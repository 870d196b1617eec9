# A verified model of the ICFP Contest 2017 punter kit

In the 2017 contest game, punters take turns claiming rivers between sites
on a map. Some sites are mines. A punter scores, for every mine, the
square of the breadth-first distance from that mine to each site its own
rivers connect to the mine. A future is a bet on one (mine, site) pair;
it adds or subtracts the cube of that distance.

This project models the logic of the kit in Dafny and proves what that
logic promises. It covers four areas.

- **The replay viewer.** The map is loaded with dense site indices, one
  adjacency list and one breadth-first distance table per mine. The move
  history is rewritten to indices. The model also covers the replay
  cursor, the attribution of replayed moves to punters, and the
  depth-first score of each punter (`Viewer`).
- **The engine-side scorers.**
  - Sorted id lists looked up by binary search.
  - Breadth-first distance tables with -1 for unreachable sites.
  - Union-find sets of score cells, one per punter (`ScoreTables`, `UnionFind`, `CommonScorer`, `StadiumScorer`).
  - The reachability map shared by the greedy players, with its token serialisation (`GameMapForAi`, `GameMapComponents`).
- **Moves, maps and players.**
  - The JSON conversions of sites, rivers, maps and moves (`GameData`).
  - The simple, stub, quick and greedy players.
  - The cheapest-path players `GreedyPunterMirac` and `FuturePunter`, which share `CostSearch`.
  - `Benkei`'s chokepoints and `FriendlyPunter`'s component search.
  - The jamming players `GreedyPunterChun`, `GreedyToJam` and `Jammer`, with their shared `Rivals`, `Candidates` and `ThemapReplay`.
  - The beam search of `SimulatingPunter`, with its snapshot keys (`MoveKey`).
  - The factory and switching player (`PunterFactory`), and the time-limit back-off of `MetaPunter`.
- **Referees and farm tooling.**
  - The online and offline referees: frame reading, the move window, turn order and message validation (`Arena`, `OfflineArena`, over `PyBuiltins`).
  - The dashboard's ranking points (`Dashboard`).
  - The continuous scheduler's balanced rounds (`Continuous`).
  - The evaluator's choice of the next match (`ContinuousEvaluator`).

Code that changes state step by step is modelled as classes with
`modifies` frames, methods with loop invariants, and arrays where the
source has fixed buffers. Each such method is proved against
specification functions. Lemmas state how those functions relate to each
other: round trips, invariants kept, and reference definitions.

Three helper modules hold shared vocabulary:
- `Wrappers`: options, results and folds;
- `Graph`: walks, reachability and the breadth-first and depth-first search invariants;
- `Sorting`: sorted sequences, insertion into them, `lower_bound` and `equal_range`.

A failed `CHECK`, `DCHECK` or `LOG(FATAL)` in the C++ code, and a Python
exception in the referees, is usually an error value of the model
(`Fatal`, `Raises` and the like). The few places where a precondition
stands in for such a failure are listed under "Left out".

The viewer's move normaliser, `History.load` (visualizer/main.js:110-127),
translates only claims and options. An unknown id becomes `undefined`
(here `None`), and splurge routes keep their site ids. The viewer tells
move kinds apart in a fixed order: it checks for an option with `if`
and for a pass with `else if` (visualizer/main.js:280-285).

## Model

| member | source | states |
|---|---|---|
| GameData.GetInteger | common/game_data.cc:56 | an integer is found at a path exactly when the path leads to an integer value |
| GameData.GetList | common/game_data.cc:87-91 | a list is found at a path exactly when the path leads to a list value |
| GameData.IntOf | common/game_data.cc:22-29 | an integer list element converts exactly when it is an integer |
| GameData.SiteOf | common/game_data.cc:52-58 | `Site::FromJson` succeeds exactly on a dictionary with an integer "id" |
| GameData.RiverOf | common/game_data.cc:66-73 | `River::FromJson` succeeds exactly on a dictionary with integer "source" and "target" |
| GameData.SiteRoundTrip | common/game_data.cc:52-64 | reading back the JSON of a site gives the same site |
| GameData.RiverRoundTrip | common/game_data.cc:66-80 | reading back the JSON of a river gives the same river |
| GameData.AllOf | common/game_data.cc:12-20 | a converted list has as many elements as the JSON list |
| GameData.AllJson | common/game_data.cc:33-41 | the JSON list holds each element's JSON at the same position |
| GameData.AllOfElements | common/game_data.cc:12-20 | a list converts exactly when every element converts, each element to its own value |
| GameData.ListRoundTrip | common/game_data.cc:12-41 | for element converters that round-trip, converting a list to JSON and back restores it, order and length included |
| GameData.AllOfPrefixErr | common/game_data.cc:15-18 | a failing element anywhere aborts the whole conversion |
| GameData.ListFromJson | common/game_data.cc:12-20 | the conversion loop computes the list conversion |
| GameData.ListToJson | common/game_data.cc:33-41 | the writing loop computes the list's JSON |
| GameData.GameMapOf | common/game_data.cc:82-98 | a map reads only from a dictionary with "sites", "rivers" and "mines" lists, each converted element by element with the same length |
| GameData.GameMapRoundTrip | common/game_data.cc:82-106 | reading back the JSON of a map gives the same map |
| GameData.GameMapFromJson | common/game_data.cc:82-98 | `GameMap::FromJson` computes the map conversion |
| GameData.GameMapToJson | common/game_data.cc:100-106 | `GameMap::ToJson` computes the map's JSON |
| GameData.Pass | common/game_data.cc:108-110 | the factory builds a pass by the given punter with no route |
| GameData.Claim | common/game_data.cc:112-114 | the factory builds a claim of the given river by the given punter |
| GameData.Splurge | common/game_data.cc:116-120 | the factory builds a splurge by the given punter along the given route |
| GameData.MoveOf | common/game_data.cc:122-150 | a move reads only when "claim", "pass" or "splurge" is present, the first present key in that order deciding the move type and its fields; a claim with its three integers, a pass with its punter, and a splurge with its punter and an all-integer route always read |
| GameData.MoveJson | common/game_data.cc:152-179 | writing a move succeeds exactly when it is not an option move |
| GameData.MoveJsonKey | common/game_data.cc:152-176 | a written move has exactly one top-level key, the one its type names |
| GameData.MoveRoundTrip | common/game_data.cc:108-179 | every claim, pass and splurge the factories build is read back unchanged from its JSON |
| GameData.SplurgeRoundTrip | common/game_data.cc:139-175 | a splurge's route survives writing and reading |
| GameData.ReadMoveWrites | common/game_data.cc:122-179 | a move read from JSON can always be written back |
| GameData.OptionMoveFatal | common/game_data.cc:147-149 | an "option" move is fatal to read |
| GameData.MoveFromJson | common/game_data.cc:122-150 | `GameMove::FromJson` computes the move conversion |
| GameData.MoveToJson | common/game_data.cc:152-179 | `GameMove::ToJson` computes the move's JSON |
| GameData.MovesFromJson | common/game_data.cc:181-185 | every move of the list is read, in order |
| GameData.FuturesToJson | common/game_data.cc:187-190 | futures are written as rivers, in order |
| MoveKey.ShowNat | punter/simulating_punter.cc:69 | the numeral the stream writes for a non-negative number is a non-empty run of digits |
| MoveKey.Show | punter/simulating_punter.cc:69 | a number's numeral is non-empty and holds no space and no ';' |
| MoveKey.ShowNatValue | punter/simulating_punter.cc:69 | the digits written for `n` have the value `n` |
| MoveKey.ReadShow | punter/simulating_punter.cc:69 | every numeral the stream writes reads back as the number it shows |
| MoveKey.Triples | punter/simulating_punter.cc:60-69 | the key reads only the punter, source and target of each move, in order |
| MoveKey.SortTriplesSorts | punter/simulating_punter.cc:60-65 | the sort of the key leaves the triples in lexicographic order and is a permutation of them |
| MoveKey.SortedUnique | punter/simulating_punter.cc:60-65 | two sorted arrangements of the same triples are the same sequence, so the unstable sort's tie order does not reach the key |
| MoveKey.KeysIgnoreOrder | punter/simulating_punter.cc:59-72 | move lists holding the same triples in any order get the same key, both as written and as corrected |
| MoveKey.ShowInjective | punter/simulating_punter.cc:69 | a numeral determines its number |
| MoveKey.DelimitedInjective | punter/simulating_punter.cc:67-71 | text with a ';' after each triple determines the triples it was written from |
| MoveKey.KeySameExactly | punter/simulating_punter.cc:59-72 | with a ';' after each triple, two move lists share a key exactly when they hold the same triples |
| MoveKey.GluedPair | punter/simulating_punter.cc:67-71 | as written, the key of two ordered moves is their pieces glued with nothing between them |
| MoveKey.PiecesCollide | punter/simulating_punter.cc:69 | the pieces "0 1 12" + "3 4 5" and "0 1 1" + "23 4 5" give the same text |
| MoveKey.KeysCollide | punter/simulating_punter.cc:59-72 | as written, two different move lists get the same key "0 1 123 4 5" |
| MoveKey.KeyAsWritten | punter/simulating_punter.cc:67-71 | as written, the key is the sorted moves' pieces with nothing between them, exactly one character per move shorter than the ';'-delimited key |
| MoveKey.DelimitedLonger | punter/simulating_punter.cc:67-71 | ending every piece with ';' adds one character per move to the glued pieces |
| PyBuiltins.PyInt | arena/offline_arena.py:338 | `int('')` raises |
| PyBuiltins.PyIntUnsigned | arena/arena.py:194 | unsigned digits read as the number they show |
| PyBuiltins.PyIntNegative | arena/arena.py:194 | digits after '-' read as the negated number |
| PyBuiltins.PyIntShow | arena/offline_arena.py:338-339 | `int()` reads back every numeral `str()` writes, so the length check passes for every canonical length |
| PyBuiltins.ShowNoColon | arena/offline_arena.py:16 | a written length holds no ':', so the first ':' of a frame ends its length |
| PyBuiltins.Find | arena/arena.py:186 | `find` gives the first position of the character, or -1 exactly when it is absent |
| PyBuiltins.Clamp | arena/offline_arena.py:337 | a slice index is read from the end when negative and clamped to the text; indices within the text are kept |
| PyBuiltins.PySlice | arena/offline_arena.py:337 | a slice within the text is the plain subsequence |
| PyBuiltins.Split | lambdapark/dashboard.py:70 | `split(',')` gives at least one piece, no piece holds the separator, and every character of a piece comes from the text |
| PyBuiltins.SplitJoin | lambdapark/continuous.py:139 | splitting a comma-joined list whose pieces hold no comma gives the list back |
| PyBuiltins.SplitAfter | lambdapark/continuous.py:139 | splitting at the first separator gives the head, then the splits of what follows |
| PyBuiltins.Upper | lambdapark/dashboard.py:70 | `upper()` maps a lower-case ASCII letter to its capital and leaves other characters as they are |
| PyBuiltins.TextLeTotal | lambdapark/continuous.py:139 | Python's string order relates any two strings |
| PyBuiltins.TextLeAntisymmetric | lambdapark/continuous.py:139 | strings ordered both ways are equal |
| PyBuiltins.Lookup | arena/arena.py:277 | `get` finds a value exactly when the key is present with a non-null value, and then it is that value |
| PyBuiltins.Number | arena/arena.py:318 | `%d` formats exactly JSON integers and Booleans, as the integer they compare equal to |
| Arena.ColonAt | arena/arena.py:186-193 | in a frame the first ':' comes right after the length, and the slice before it is exactly the written length |
| Arena.HeaderIncomplete | arena/arena.py:184-188 | until the ':' has arrived the receive loop only waits, keeping every byte |
| Arena.HeaderComplete | arena/arena.py:184-198 | once the ':' has arrived the length is read and accepted and the payload step follows |
| Arena.FeedWaits | arena/arena.py:182-199 | more bytes of a frame that still fall short of its end leave the parser waiting with everything buffered |
| Arena.PayloadComplete | arena/arena.py:198-214 | a whole frame in the buffer hands on its message and keeps the bytes after it, with the parser reset |
| Arena.FeedCompletes | arena/arena.py:174-214 | the last bytes of a frame, and maybe more, hand on its message and keep the rest |
| Arena.FrameRoundTrip | arena/arena.py:13-15 | a frame written by `serialize` and received whole is read back as the message it carries; what follows stays buffered |
| Arena.DeliverStep | arena/arena.py:175-214 | one pass of the loop feeds the first chunk, then the loop goes on with the rest |
| Arena.DeliverWaits | arena/arena.py:187-188 | a chunk that leaves the parser waiting yields no message and the loop goes on |
| Arena.DeliverReceives | arena/arena.py:210-214 | a chunk that completes a message hands it on before the loop goes on |
| Arena.CutFrame | arena/arena.py:182 | a frame cut into chunks continues with the next chunk as the next bytes of the frame |
| Arena.DeliverChunked | arena/arena.py:174-214 | however a frame is cut into non-empty chunks, its message is delivered exactly once, after its last chunk, and the parser is fresh again |
| Arena.DeliverOne | arena/arena.py:174-214 | a single chunk that completes a message delivers exactly that message |
| Arena.OneChunk | arena/arena.py:174-214 | a chunk holding a whole frame and more delivers the frame's message and buffers the rest |
| Arena.TwoFramesOneChunk | arena/arena.py:174-214 | two frames in one chunk deliver only the first message; the second waits for more bytes, since one pass takes at most one message |
| Arena.FreshFeed | arena/arena.py:182-186 | on a fresh connection the bytes received are the whole buffer and the header step reads them |
| Arena.ColonFirst | arena/arena.py:189-191 | a ':' at the start of the buffer is an empty length and is refused |
| Arena.HeaderText | arena/arena.py:186-193 | the length read is exactly the text before the first ':' |
| Arena.MiswrittenLength | arena/arena.py:194-197 | a length `int()` reads but `str()` would write differently is refused |
| Arena.UnreadableLength | arena/arena.py:194 | a length `int()` cannot read makes the receive loop raise |
| Arena.ZeroFive | arena/arena.py:194-195 | "05" reads as 5, which is written "5" |
| Arena.LeadingZero | arena/arena.py:194-197 | a length with a leading zero is refused |
| Arena.XIsNoNumber | arena/arena.py:194 | "x" is not a number to `int()` |
| Arena.LengthNotANumber | arena/arena.py:194 | a length that is not a number makes the receive loop raise |
| Arena.Endpoint.constructor | arena/arena.py:152-155 | a new endpoint starts with an empty buffer, no ':' found and no length read |
| Arena.Endpoint.Feed | arena/arena.py:182-214 | one pass of the loop leaves the endpoint in the state, and with the outcome, the pure step gives |
| Arena.Endpoint.ReadHeader | arena/arena.py:184-197 | the header step on the endpoint's fields agrees with the pure header step |
| Arena.Endpoint.ReadPayload | arena/arena.py:198-212 | the payload step on the endpoint's fields agrees with the pure payload step |
| Arena.Endpoint.Recv | arena/arena.py:174-214 | the receive loop over the socket's chunks delivers exactly the messages the pure loop does and stops where it stops |
| Arena.Oriented | arena/arena.py:27-34 | a river is stored with its smaller end first, with the same two ends, and unclaimed |
| Arena.MapOf | arena/arena.py:18-34 | the map keeps every site id and the mines in order, and every river oriented and unclaimed |
| Arena.Claimed | arena/arena.py:108-116 | the claim looks at every river and passes each through the same per-river rule |
| Arena.ClaimExact | arena/arena.py:108-116 | a claim changes nothing but owners, and gives the punter exactly the rivers whose ends equal (source, target) in that order, even ones already owned |
| Arena.ReversedClaimIgnored | arena/arena.py:112 | a claim naming the larger end first takes nothing, because rivers are stored smaller end first |
| Arena.Latest | arena/arena.py:117-119 | the window is the last `k` messages, or all when there are fewer, and the log is what came before plus the window |
| Arena.PushedLatest | arena/arena.py:117-119 | appending a message and dropping the oldest beyond five keeps the window equal to the five latest messages |
| Arena.RetainedLatest | arena/arena.py:137-143 | a move prompt carries the four latest messages, or all of them when there are fewer than five |
| Arena.ReadyVerdict | arena/arena.py:277-282 | a set-up reply is accepted exactly when it is a dictionary whose "ready" equals the handler's own id; any other dictionary is refused, and a non-dictionary raises |
| Arena.MoveVerdict | arena/arena.py:290-320 | a move is a claim exactly when "claim" names the handler's own id with a source and target, a pass exactly when there is no claim and "pass" names its own id; everything else is refused or raises |
| Arena.PassNeverReported | arena/arena.py:301 | as written, a well-formed pass always raises, because the log line formats names that are not bound |
| Arena.MoveVerdictAsWritten | arena/arena.py:290-320 | as written, the verdict never reports a pass: where the handler would accept a pass it raises, and every other verdict is the corrected one |
| Arena.PassReported | arena/arena.py:292-303 | with the log line fixed, a pass with the player's own id is reported as that punter's pass |
| Arena.HandshakeVerdict | arena/arena.py:327-334 | a handshake is accepted exactly when it is a dictionary with a "me", and the player is given that name |
| Arena.Stops | arena/arena.py:126-135 | at game over, each of the five players is stopped, in the order of their ids |
| Arena.Arena.constructor | arena/arena.py:38-52 | a new arena has no players, turn 0, no moves and the map's rivers oriented and unclaimed |
| Arena.Arena.Join | arena/arena.py:60-86 | a join gives the next id while fewer than five have joined, and nothing once five have; the fifth player's arrival sends the first set-up prompt |
| Arena.Arena.PromptSetup | arena/arena.py:99-103 | the player whose turn it is gets a set-up with its id and the player count, and the turn advances |
| Arena.Arena.DoneSetup | arena/arena.py:88-97 | after a set-up reply the next player is set up, or, once all five are, the first move prompt follows |
| Arena.Arena.PromptMove | arena/arena.py:125-148 | at turn five plus the river count every player is stopped; otherwise the player whose turn it is gets the retained moves and the turn advances |
| Arena.Arena.SendStops | arena/arena.py:126-135 | game over stops every player and changes nothing else |
| Arena.Arena.SendMoves | arena/arena.py:137-148 | a move prompt goes to player `turn % 5` with the retained moves, and the turn advances |
| Arena.Arena.DoneMove | arena/arena.py:105-123 | a claim updates owners as the claim rule says, every message joins the window, and the next prompt follows |
| Arena.Arena.ClaimRiver | arena/arena.py:108-116 | the claim loop leaves the rivers equal to the claim rule applied to every river |
| Arena.Arena.Record | arena/arena.py:117-119 | after recording, the window is still the five latest messages of the log |
| Arena.Handler.constructor | arena/arena.py:224-236 | a new handler has no prompt pending, no handshake, no name and no id |
| Arena.Handler.PromptSetup | arena/arena.py:248-250 | sending a set-up leaves a set-up pending and changes nothing else in the handler |
| Arena.Handler.PromptMove | arena/arena.py:255-257 | sending a move prompt leaves a move pending and changes nothing else in the handler |
| Arena.Handler.Timeout | arena/arena.py:259-265 | a timeout tells the arena the player passed, with its id, and the pending prompt stays pending |
| Arena.Handler.HandleMessage | arena/arena.py:272-340 | corrected, a pending set-up's reply, else a pending move's, else the handshake, else an out-of-turn message, each judged by its verdict; only accepted replies reach the arena |
| OfflineArena.ParseLength | arena/offline_arena.py:337-341 | the text before the ':' raises exactly when `int()` cannot read it, is refused exactly when `str()` writes the number read differently, and otherwise gives that length |
| OfflineArena.LengthCheck | arena/offline_arena.py:330-341 | corrected, with the ':' position kept one past the ':', a ':' first is refused as an empty length; every other header is judged as written |
| OfflineArena.EmptyLengthRaises | arena/offline_arena.py:330-338 | as written, a ':' first never meets the empty-length check and `int('')` raises |
| OfflineArena.LengthCheckAsWritten | arena/offline_arena.py:330-338 | as written, the empty-length test looks for position 0, which the kept ':' position never holds; a ':' first (position 1) makes `int('')` raise, and every other position is judged as corrected |
| OfflineArena.EmptyLengthRefused | arena/offline_arena.py:334-336 | corrected, a ':' first is refused as an empty length, as the socket reader refuses it |
| OfflineArena.LengthChecksAgree | arena/offline_arena.py:330-341 | the corrected check differs from the written one only on an empty length |
| OfflineArena.ReadWithLength | arena/offline_arena.py:322-326 | with the length known, a read takes exactly the bytes the payload still lacks, then the payload step follows |
| OfflineArena.LengthOfFrame | arena/offline_arena.py:337-341 | the length written by `serialize` is read back and accepted |
| OfflineArena.PayloadWhole | arena/offline_arena.py:343-360 | a buffer holding exactly a frame hands on its message and the reader starts afresh |
| OfflineArena.PayloadReads | arena/offline_arena.py:322-360 | with the length read, the payload is read whole and handed on, and nothing after it is read |
| OfflineArena.ColonReads | arena/offline_arena.py:327-360 | the ':' of a frame leads to its length being accepted and its payload read |
| OfflineArena.HeaderReads | arena/offline_arena.py:316-360 | from any point within the length of a frame, reading goes on to deliver that frame's message |
| OfflineArena.FrameReads | arena/offline_arena.py:315-360 | a read on a pipe holding a frame and more delivers exactly that frame's message, leaves the rest unread and resets the reader |
| OfflineArena.ShortPayloadSpins | arena/offline_arena.py:322-344 | a pipe that ends inside a payload leaves the read loop spinning, since a read of the missing bytes keeps returning nothing |
| OfflineArena.WellBehavedPlayer | arena/offline_arena.py:384-393 | a player writing a handshake frame and a reply frame has the handshake delivered by the first read and the reply by the second |
| OfflineArena.RefusedPayloadSticks | arena/offline_arena.py:343-353 | a refused payload keeps the reader's position and length, so the next process's output is read as the rest of that payload |
| OfflineArena.ScannedSticks | arena/offline_arena.py:327-353 | the same holds for a read that has just taken one header character |
| OfflineArena.FileEndpoint.constructor | arena/offline_arena.py:302-310 | a new reader has an empty buffer, no ':' and no length |
| OfflineArena.FileEndpoint.Launch | arena/offline_arena.py:387 | a new process changes the pipe's contents but not what the reader kept |
| OfflineArena.FileEndpoint.Read | arena/offline_arena.py:315-360 | corrected, the read loop leaves the reader, the pipe and the outcome as the pure read says, and keeps the reader's fields consistent |
| OfflineArena.FileEndpoint.ScanChar | arena/offline_arena.py:317-344 | corrected, one header character read agrees with the pure header step and consumes no further input |
| OfflineArena.FileEndpoint.PayloadFrom | arena/offline_arena.py:346-360 | the payload step on the reader's fields agrees with the pure payload step |
| OfflineArena.FileEndpoint.TakePayload | arena/offline_arena.py:322-344 | with the length known, the read of the missing payload bytes agrees with the pure step, or spins when the pipe is closed |
| OfflineArena.StateIn | arena/offline_arena.py:162 | the "state" of a reply is its value when present, and null otherwise |
| OfflineArena.Halt | arena/offline_arena.py:315-360 | a spinning read hangs the game, and `int()` or a handler raising crashes it; nothing else ends it |
| OfflineArena.PlayerHost.constructor | arena/offline_arena.py:363-375 | a new host has an empty pipe, nothing pending, no name, and the id the arena gave on joining |
| OfflineArena.PlayerHost.HandleMessage | arena/offline_arena.py:151-221 | a pending prompt is settled whatever its reply; an accepted set-up or move reply reaches the arena with the state it carries, and a claim in a move reply is filed for the current turn; the handshake is taken once; anything else is an error |
| OfflineArena.PlayerHost.Listen | arena/offline_arena.py:315-360 | one read from the pipe as the pure read says, with its message handled |
| OfflineArena.PlayerHost.Exchange | arena/offline_arena.py:384-404 | a prompt starts a fresh process, reads its handshake, marks the prompt pending and reads one reply; only claims by this host's punter for the current turn are filed |
| OfflineArena.StaleSetupTakesHandshake | arena/offline_arena.py:152-164 | a prompt whose reply never came stays pending into the next process, whose handshake is then taken as that reply and refused |
| OfflineArena.Referee.constructor | arena/offline_arena.py:39-51 | a new referee has no players, turn 0, no moves and the map's rivers oriented and unclaimed |
| OfflineArena.Referee.Join | arena/offline_arena.py:64-79 | a join gives the next id with a null state, and nothing once five have joined |
| OfflineArena.Referee.Ready | arena/offline_arena.py:110-112 | a set-up reply stores its state for the player whose turn it is and changes nothing else |
| OfflineArena.Referee.DoneMove | arena/offline_arena.py:114-128 | a move stores the player's new state; a claim updates owners by the claim rule, joins the window and is filed for the current turn, so the rivers stay the start's rivers with every filed claim applied in order; a pass changes nothing more |
| OfflineArena.Referee.ClaimRiver | arena/offline_arena.py:117-125 | the claim loop leaves the rivers equal to the claim rule applied to every river |
| OfflineArena.Referee.Record | arena/offline_arena.py:126-128 | after recording a claim, the window is still the five latest claims |
| OfflineArena.Referee.RetainedMoves | arena/offline_arena.py:98-104 | a prompt carries the window less its oldest claim when the window is full |
| OfflineArena.Referee.Run | arena/offline_arena.py:81-108 | five set-ups and then one move prompt per river, each played out by the host whose turn it is, until every river has had its turn or the game halts; every claim filed on the way belongs to the player whose turn it was, no later than the last turn |
| OfflineArena.Referee.SetUpAll | arena/offline_arena.py:82-87 | the five set-up prompts go out in turn order, and a claim filed meanwhile is the player's of its turn |
| OfflineArena.Referee.MoveAll | arena/offline_arena.py:89-108 | one move prompt per river after the set-ups until every river has had its turn or the game halts; each claim is filed by the player whose turn it was |
| OfflineArena.Referee.SetupStep | arena/offline_arena.py:82-87 | one set-up prompt to player `turn % 5`, played out by its host |
| OfflineArena.Referee.MoveStep | arena/offline_arena.py:98-108 | one move prompt to player `turn % 5` with the retained claims and its stored state |
| OfflineArena.Referee.Play | arena/offline_arena.py:84-108 | the prompt is played out by the host of the current player and the turn passes unless the game ended; any claim filed is that player's, for that turn |
| Dashboard.NonEmpty | lambdapark/dashboard.py:70 | `filter(None, …)` keeps exactly the non-empty pieces, in order |
| Dashboard.Heads | lambdapark/dashboard.py:70 | each extension contributes its first character, upper-cased, in order |
| Dashboard.OrDash | lambdapark/dashboard.py:70-71 | an empty field is written as "-", so no field of the key is empty |
| Dashboard.UpperNoSpace | lambdapark/dashboard.py:70 | upper-casing never makes a space, so the initials cannot split the key |
| Dashboard.InitialsNoSpace | lambdapark/dashboard.py:70 | the initials of extensions written without spaces have no space |
| Dashboard.ShowNoSpace | lambdapark/dashboard.py:69 | the punter count written in the key has no space |
| Dashboard.ConfigKeyFields | lambdapark/dashboard.py:67-72 | a key whose map and extensions have no spaces splits back at its spaces into the map, the punter count, the initials and the extensions, with "-" for none |
| Dashboard.FourFields | lambdapark/dashboard.py:67 | four spaceless fields joined by single spaces split back into those fields |
| Dashboard.SameKey | lambdapark/dashboard.py:67-72 | two reports filed under one key, maps and extensions spaceless and no extension list written "-", share the map, the punter count and the extensions |
| Dashboard.Zip | lambdapark/dashboard.py:78 | `zip` pairs each punter with its score, up to the shorter list |
| Dashboard.Placed | lambdapark/dashboard.py:79 | an entry placed after every entry scoring at least as much keeps the ranking descending and adds just that entry |
| Dashboard.PlacedBelow | lambdapark/dashboard.py:79 | placing an entry that beats the last one keeps the last one at the bottom |
| Dashboard.Ranked | lambdapark/dashboard.py:79 | the stable descending sort by score gives a descending ranking holding exactly the pairs given |
| Dashboard.AboveCount | lambdapark/dashboard.py:81-85 | when exactly the first `i` entries score more than `v`, `i` entries are above `v` |
| Dashboard.AboveSelf | lambdapark/dashboard.py:81-85 | an entry is never above its own score |
| Dashboard.AboveGap | lambdapark/dashboard.py:81-85 | a lower score has strictly more entries above it than a higher score that occurs |
| Dashboard.AboveMono | lambdapark/dashboard.py:81-85 | a lower score has at least as many entries above it |
| Dashboard.StandingOrder | lambdapark/dashboard.py:81-85 | points lie between 1 and the number of entries; equal scores get equal points, and a higher score strictly more |
| Dashboard.TopStanding | lambdapark/dashboard.py:81-85 | the top entry gets as many points as there are entries |
| Dashboard.Points | lambdapark/dashboard.py:80-85 | the points loop gives each entry of a descending ranking the number of entries less those scoring strictly more, so ties share the higher points |
| Dashboard.TouchedKeeps | lambdapark/dashboard.py:74-75 | looking a bucket up changes no points and makes each punter's bucket for the configuration exist |
| Dashboard.CreditedBucket | lambdapark/dashboard.py:86-87 | crediting a ranking adds to a punter's bucket for the configuration exactly that punter's points in ranking order, and touches no other configuration |
| Dashboard.ErrorAddsNoPoints | lambdapark/dashboard.py:73-77 | a report with an error adds no points and flags its configuration |
| Dashboard.FinishedCredits | lambdapark/dashboard.py:78-87 | a finished report gives each of its punters, in its configuration's bucket, the standing of each of its entries, and flags nothing |
| Dashboard.PointsOfBounded | lambdapark/dashboard.py:80-87 | every point credited from a report is between 1 and the number of its entries |
| Dashboard.PointsOfIn | lambdapark/dashboard.py:86-87 | the points a punter is credited are drawn from the points computed |
| Dashboard.Touch | lambdapark/dashboard.py:74-75 | the lookup loop over an errored report's punters leaves the buckets as the pure lookup says |
| Dashboard.Credit | lambdapark/dashboard.py:86-87 | the crediting loop leaves the buckets as the pure crediting says |
| Dashboard.Tally | lambdapark/dashboard.py:62-88 | the loop over all reports gives the buckets and flagged configurations of the pure fold |
| Continuous.Continuing | lambdapark/continuous.py:111-114 | the continuous punters are exactly the names flagged continuous, in settings order |
| Continuous.ContinuousNames | lambdapark/continuous.py:111-114 | the collecting loop gives exactly the continuous punters |
| Continuous.SitesOf | lambdapark/continuous.py:116 | the map table holds exactly the names of the listed maps |
| Continuous.LastEntryWins | lambdapark/continuous.py:116 | a map listed more than once takes its size from its last entry |
| Continuous.Filed | lambdapark/continuous.py:119 | a configuration filed after every one whose key is at most its own keeps the list ordered and adds just it |
| Continuous.FiledBelow | lambdapark/continuous.py:119 | filing an entry that sorts before the last leaves the last at the end |
| Continuous.ByMapSize | lambdapark/continuous.py:118-119 | the sort orders the configurations by map size and then punter count, and is a permutation of them |
| Continuous.InsertText | lambdapark/continuous.py:139 | inserting a string into a sorted list keeps it sorted and adds just that string |
| Continuous.SortedText | lambdapark/continuous.py:139 | `sorted` gives the extensions in order, a permutation of them |
| Continuous.ExtensionFieldSplits | lambdapark/continuous.py:139 | the extension field is the sorted extensions joined by ',', and splits back into them when no extension holds a ',' |
| Continuous.Shuffle | lambdapark/continuous.py:128-134 | a shuffle gives a permutation of its list |
| Continuous.Fewest | lambdapark/continuous.py:125 | the minimum count is the count of some punter and at most every punter's count |
| Continuous.Sift | lambdapark/continuous.py:126-127 | the two comprehensions keep exactly the punters whose count is, or is not, the minimum, without adding any |
| Continuous.SiftSizes | lambdapark/continuous.py:126-127 | the two lists split the punters between them |
| Continuous.Round | lambdapark/continuous.py:125-136 | a round seats `min(size, punters)` distinct punters, every least-played one before any other, and raises exactly the seated punters' counts by one, keeping all counts within one of each other |
| Continuous.Rebalanced | lambdapark/continuous.py:125-136 | raising the counts of a choice drawn from the least-played, or taking in all of them, keeps the counts within one of each other |
| Continuous.Pick | lambdapark/continuous.py:130-133 | the pick has `min(size, punters)` entries: only least-played ones when there are enough, and all of them otherwise |
| Continuous.Shuffled | lambdapark/continuous.py:134 | a shuffled part of a list without repeats has the same members and length, and no repeats |
| Continuous.Count | lambdapark/continuous.py:135-136 | each chosen punter's count goes up by one and every other count stays |
| Continuous.ConfigJobs | lambdapark/continuous.py:123-145 | a configuration gives one job per round, each for its map, sorted extensions and run label, with any two punters' appearances differing by at most one; `min` of no counts fails when a round is wanted and no punter is continuous |
| Continuous.TotalRoundsAppend | lambdapark/continuous.py:122-124 | the rounds of two lists of configurations add up |
| Continuous.TotalRoundsPermutation | lambdapark/continuous.py:118-124 | sorting the configurations does not change how many jobs they make |
| Continuous.Schedule | lambdapark/continuous.py:110-145 | the job list fails exactly when a configuration names an unknown map or a round is wanted with no continuous punter; otherwise it holds one job per round of every configuration, each laid out for its configuration, ordered by map size |
| Continuous.Collect | lambdapark/continuous.py:121-145 | the loop over sorted configurations fails exactly when a round is wanted with no punter, and otherwise lays out every round in order of map size |
| Continuous.Extend | lambdapark/continuous.py:121-145 | appending one configuration's jobs keeps the list ordered by map size |
| ContinuousEvaluator.NamesOf | lambdapark/continuous_evaluator.py:155 | the names of the punters, in order |
| ContinuousEvaluator.GamesLeft | lambdapark/continuous_evaluator.py:156-161 | counting down over the result index leaves each punter its games owed less the seats it took |
| ContinuousEvaluator.PlayedAppend | lambdapark/continuous_evaluator.py:103-104 | recording a match adds one game for every seat a name takes in it |
| ContinuousEvaluator.Eligible | lambdapark/continuous_evaluator.py:162-163 | the eligible names are exactly the names with games left, in settings order |
| ContinuousEvaluator.Unique | lambdapark/continuous_evaluator.py:164 | `set` keeps each member once |
| ContinuousEvaluator.Ineligible | lambdapark/continuous_evaluator.py:164 | the ineligible names are exactly the names with no games left, each once |
| ContinuousEvaluator.ChooseNames | lambdapark/continuous_evaluator.py:162-176 | names are chosen exactly when someone has games left and the seats can be filled; then every seat holds a name, names with games left come first, and an ineligible name is seated only once every eligible name is |
| ContinuousEvaluator.Seat | lambdapark/continuous_evaluator.py:165-176 | seats are filled exactly when someone has games left and the two lists can fill them; the names with games left take the first seats, and a name without is seated only once every name with games left is |
| ContinuousEvaluator.Layout | lambdapark/continuous_evaluator.py:169-172 | a seat holds a name with games left exactly when it was filled from the eligible names |
| ContinuousEvaluator.LayoutOrder | lambdapark/continuous_evaluator.py:169-172 | names with games left fill the first seats, and once a seat lacks one every name with games left is seated |
| ContinuousEvaluator.NoDuplicatesSeated | lambdapark/continuous_evaluator.py:169-172 | taking from two disjoint lists without repeats seats nobody twice |
| ContinuousEvaluator.EligibleDistinct | lambdapark/continuous_evaluator.py:162-163 | with distinct names, the eligible names are distinct |
| ContinuousEvaluator.SeatableDistinct | lambdapark/continuous_evaluator.py:162-176 | with distinct names, a match can be seated exactly when someone has games left and there are at least as many names as seats |
| ContinuousEvaluator.SameMembers | lambdapark/continuous_evaluator.py:164 | two lists without repeats with the same members have the same length |
| ContinuousEvaluator.LastIndex | lambdapark/continuous_evaluator.py:177 | the dictionary keeps the last punter of each name: the index found is the last entry with that name, or none when the name is missing |
| ContinuousEvaluator.DecideNextPunters | lambdapark/continuous_evaluator.py:154-178 | the next match's punters are chosen exactly when the names can be seated, each seat holding the last punter listed under its chosen name |
| ContinuousEvaluator.CrashResult | lambdapark/continuous_evaluator.py:199-204 | a crashed server is recorded as the error "server crashed", no moves and a zero score per seat |
| ContinuousEvaluator.OwedMonotone | lambdapark/continuous_evaluator.py:182-210 | recording a match never raises the games still owed |
| ContinuousEvaluator.OwedDrops | lambdapark/continuous_evaluator.py:182-210 | recording a match that seats a name still owed a game lowers the games owed, so the loop ends |
| ContinuousEvaluator.Recorded | lambdapark/continuous_evaluator.py:83-104 | the recorded entry names the seated punters, with zero scores when the server crashed |
| ContinuousEvaluator.ProcessConfig | lambdapark/continuous_evaluator.py:181-210 | the loop only appends to the result index, each new entry seating the configured number of punters, and stops once no match can be seated |
| ContinuousEvaluator.NextEntry | lambdapark/continuous_evaluator.py:183-208 | one pass gives no entry exactly when no match can be seated, and otherwise the recorded entry of the chosen punters |
| Viewer.FirstSeen | visualizer/main.js:27-33 | the indexed ids are exactly the ids listed, each once, in order of first occurrence |
| Viewer.FirstSeenStep | visualizer/main.js:27-33 | reading one more id appends it to the order unless it was seen already |
| Viewer.FirstSeenPrefix | visualizer/main.js:27-33 | reading more ids only appends to the order |
| Viewer.FirstSeenIndex | visualizer/main.js:28-31 | the first occurrence of an id gets the next dense index, the number of distinct ids seen before it |
| Viewer.Lookup | visualizer/main.js:49 | `Map.get` finds a value exactly when the key is present, and then it is the stored value |
| Viewer.IndexMapsAppend | visualizer/main.js:28-31 | a new id gets the next index in both maps, keeping them consistent with the order |
| Viewer.IndexMapsInverse | visualizer/main.js:15-16 | the id-to-index and index-to-id maps are inverse to each other |
| Viewer.AdjacencyOf | visualizer/main.js:61-69 | there is one adjacency list per site |
| Viewer.AdjacencySymmetric | visualizer/main.js:64-69 | a site is adjacent to another exactly when some river joins them, in either direction |
| Viewer.AdjacencyWellFormed | visualizer/main.js:61-69 | every adjacency entry is a site index |
| Viewer.BuildAdjacency | visualizer/main.js:61-69 | the adjacency loop gives the symmetric adjacency lists |
| Viewer.ExpandSite | visualizer/main.js:88-95 | each neighbour of the dequeued site gets at most one more than its distance and, if unvisited, is marked and enqueued |
| Viewer.ExpandNeighbour | visualizer/main.js:89-94 | one neighbour's distance becomes the smaller of its old distance and one more, and an unvisited neighbour is marked and enqueued |
| Viewer.MineDistances | visualizer/main.js:72-96 | one mine's search gives the mine distance 0, every reached site a distance that some path of that length attains, and every site no path reaches INF |
| Viewer.IndexSites | visualizer/main.js:27-33 | the first loop leaves both maps consistent with the first-seen order of the site ids |
| Viewer.RiverLink | visualizer/main.js:40-41 | a river end is rewritten to an index exactly when its id is a listed site |
| Viewer.RewriteRivers | visualizer/main.js:39-42 | every river is rewritten, in order |
| Viewer.RewriteMines | visualizer/main.js:43-45 | every mine is rewritten, in order, to its index when it is a listed site |
| Viewer.IndexSiteList | visualizer/main.js:35-38 | every listed site becomes its dense index, in order |
| Viewer.ResolveRivers | visualizer/main.js:39-42 | the river loop gives the rewritten rivers |
| Viewer.ResolveMines | visualizer/main.js:43-45 | the mine loop gives the rewritten mines |
| Viewer.GameMap.constructor | visualizer/main.js:4-17 | a new map is empty, with empty index maps |
| Viewer.GameMap.Reset | visualizer/main.js:9-17 | reset empties the map and both index maps |
| Viewer.GameMap.Initialize | visualizer/main.js:25-46 | ids get dense indices in first-seen order, a repeated id keeping its first, and sites, rivers and mines are rewritten through that indexing |
| Viewer.GameMap.GetSiteIndex | visualizer/main.js:48-50 | a site id has an index exactly when it is listed, and the index is its place in first-seen order |
| Viewer.GameMap.GetSiteId | visualizer/main.js:52-54 | corrected, an index within range gives the id at that place in first-seen order, and anything else gives `undefined` |
| Viewer.GameMap.GetSiteIdAsWritten | visualizer/main.js:52-54 | as written, `getSiteId` throws a ReferenceError for every index |
| Viewer.GameMap.SiteIdRoundTrip | visualizer/main.js:48-54 | the corrected lookup inverts `getSiteIndex` for every listed site |
| Viewer.GameMap.Precompute | visualizer/main.js:56-98 | precomputation gives symmetric adjacency over all sites and one breadth-first distance table per mine |
| Viewer.GameMap.Load | visualizer/main.js:19-23 | loading resets, indexes and precomputes the map, a missing mine list counting as empty |
| Viewer.NormalizeBody | visualizer/main.js:115-124 | both ends of a claim or option are looked up as site indices, and the punter is kept |
| Viewer.NormalizeMove | visualizer/main.js:113-126 | a loaded move keeps its pass and splurge, and has its claim and option ends looked up |
| Viewer.History.constructor | visualizer/main.js:101-108 | a new history has no moves |
| Viewer.History.Reset | visualizer/main.js:106-108 | reset drops every move |
| Viewer.History.Load | visualizer/main.js:110-127 | loading keeps the moves in order and rewrites every claim and option end through `getSiteIndex`, leaving passes and splurge routes as they are |
| Viewer.NormalizeOne | visualizer/main.js:114-125 | the loop body rewrites one move as the pure rewriting does |
| Viewer.GetSiteIndexIsLookup | visualizer/main.js:48-50 | `getSiteIndex` is the id-to-index lookup |
| Viewer.DetectedPunter | visualizer/main.js:279-285 | a move is credited to a punter exactly when it has a claim, an option or a pass; an option, or else a pass, wins over a claim, and a splurge is not looked at |
| Viewer.DetectPlayers | visualizer/main.js:277-289 | the players are exactly the punters some move is credited to |
| Viewer.SplurgeOnlyPunterUndetected | visualizer/main.js:279-288 | a punter who only splurges gets no colour and so no score slot |
| Viewer.RouteLinks | visualizer/main.js:432-436 | a splurge route of `n` sites gives its `n - 1` consecutive edges, in route order |
| Viewer.PunterEdges | visualizer/main.js:417-438 | no moves give no edges |
| Viewer.PassGivesNoEdges | visualizer/main.js:417-438 | a pass gives no edge to anybody |
| Viewer.AttributionConservesEdges | visualizer/main.js:414-438 | when every move's punter has a slot, the punters' edge lists hold exactly as many edges as the moves push |
| Viewer.PushEdge | visualizer/main.js:422 | an edge is appended to the punter's slot and to no other, and fails when there is no such slot |
| Viewer.PushRoute | visualizer/main.js:432-436 | the route loop appends the route's edges to the punter's slot and to no other |
| Viewer.PushBody | visualizer/main.js:418-429 | a claim or option appends its edge to its punter's slot |
| Viewer.PushMove | visualizer/main.js:418-437 | one move appends each punter's edges of that move, and fails exactly when its punter has no slot |
| Viewer.PushMoveEdges | visualizer/main.js:418-437 | the claim, option and splurge pushes together append each punter's edges of the move |
| Viewer.AttributeEdges | visualizer/main.js:414-438 | the attribution loop gives each punter the edges of the first `step` moves credited to it, in replay order, and fails exactly when a move's punter has no slot |
| Viewer.NoEdgesReach | visualizer/main.js:170-181 | over no edges only the mine itself is reached |
| Viewer.NoEdgesMineScore | visualizer/main.js:170-181 | with no edges a mine scores 0, since it is at distance 0 from itself |
| Viewer.Scorer.constructor | visualizer/main.js:140-142 | the scorer reads the given map |
| Viewer.Scorer.Compute | visualizer/main.js:145-152 | the score is the sum over all mines of the squared distances of the sites the punter's edges connect to the mine |
| Viewer.Scorer.ComputeForMine | visualizer/main.js:154-168 | one mine's score sums the squared distances of the sites a search from the mine reaches over the punter's edges, each once |
| Viewer.Scorer.ComputeRecursively | visualizer/main.js:170-181 | the search marks `v` and every site reachable from it through unmarked sites, and returns the sum of their squared distances |
| Viewer.NoEdgesScoreZero | visualizer/main.js:145-181 | a punter with no edges scores 0 |
| Viewer.DisplayScores | visualizer/main.js:273-296 | each detected player is scored on the edges of the first `step` moves credited to it, or the display fails when a move's punter has no slot |
| Viewer.PrevStep | visualizer/main.js:551 | the previous button moves one step back, never below 0 |
| Viewer.NextStep | visualizer/main.js:556 | the next button moves one step on, never past the end |
| Viewer.StepsStayInRange | visualizer/main.js:550-558 | both buttons keep the cursor within the moves |
| Viewer.PrevNextInverse | visualizer/main.js:550-558 | next undoes previous away from the start, and previous undoes next away from the end |
| Viewer.SliderStep | visualizer/main.js:564-568 | the slider sets the step exactly when its value is an integer within the moves, and otherwise keeps it |
| Viewer.State.constructor | visualizer/main.js:130-137 | a new state is at step 0 |
| Viewer.State.Reset | visualizer/main.js:135-137 | reset rewinds to step 0 |
| Viewer.Controller.constructor | visualizer/main.js:485-506 | a new controller is not playing, has no timer, and holds a fresh empty map, history and state and a scorer over that map |
| Viewer.Controller.Reset | visualizer/main.js:509-512 | reset stops counting as playing and rewinds, leaving the timer as it is |
| Viewer.Controller.StartPlay | visualizer/main.js:518-526 | playing starts with the new timer, rewinding first when the cursor is at the end |
| Viewer.Controller.StopPlay | visualizer/main.js:528-535 | stopping clears the timer and stops playing |
| Viewer.Controller.OnPlayClicked | visualizer/main.js:537-542 | the play button toggles playing, starting or stopping the timer |
| Viewer.Controller.OnPrevClicked | visualizer/main.js:550-553 | the previous button moves the cursor as the previous step says |
| Viewer.Controller.OnNextClicked | visualizer/main.js:555-558 | the next button moves the cursor as the next step says |
| Viewer.Controller.OnInterval | visualizer/main.js:544-548 | a tick moves one step on and stops playing at the end |
| Viewer.Controller.OnSliderChange | visualizer/main.js:560-569 | the slider stops playback and sets the step as the slider rule says |
| Viewer.Controller.OnInputMapChange | visualizer/main.js:571-581 | a new map is loaded and precomputed, the moves dropped and the cursor rewound |
| Viewer.Controller.OnInputMovesChange | visualizer/main.js:583-592 | new moves are rewritten against the current map and the cursor rewound |
| ScoreTables.CreateSiteIdList | common/scorer.cc:14-21 | the site id list is the map's site ids, sorted ascending |
| ScoreTables.GetIndex | common/scorer.cc:23-30 | `lower_bound` of a value the sorted list holds gives a position holding that value, with every earlier entry smaller |
| ScoreTables.GetIndexInverts | common/scorer.cc:23-30 | in a sorted list without repeats the index found for an entry is its own position |
| ScoreTables.IndicesOf | common/scorer.cc:37-39 | every mine becomes the position of its id in the site list |
| ScoreTables.CreateMineIndexList | common/scorer.cc:32-41 | the mine index list is the mines' site indices, sorted ascending |
| ScoreTables.MineIndicesInRange | common/scorer.cc:32-41 | the sorted mine indices are one per mine and all within the site list |
| ScoreTables.IndexPair | common/scorer.cc:48-49 | a river's ends become site indices within the list |
| ScoreTables.BothWays | common/scorer.cc:47-52 | every river is listed once in each direction |
| ScoreTables.IndexPairs | common/scorer.cc:48-49 | every river's ends become site indices, in river order |
| ScoreTables.BothWaysMembers | common/scorer.cc:47-52 | the two-way list holds exactly the index pairs some river joins, in either direction |
| ScoreTables.BothWaysSymmetric | common/scorer.cc:47-52 | each pair of the two-way list is there reversed too, and both ends are sites |
| ScoreTables.CreateBidirectionalGraph | common/scorer.cc:43-55 | the graph is both directions of every river, sorted |
| ScoreTables.Neighbours | common/scorer.cc:83-91 | the sorted pairs describe one neighbour list per site |
| ScoreTables.NeighboursMembers | common/scorer.cc:83-91 | `equal_range` on a site gives exactly the sites paired with it |
| ScoreTables.SameElementsSameNeighbours | common/scorer.cc:53 | sorting the pairs does not change the neighbours they describe |
| ScoreTables.RiverGraph | common/scorer.cc:64-65 | the river graph has one neighbour list per site |
| ScoreTables.RiverGraphShape | common/scorer.cc:43-55 | the river graph is symmetric, names only sites, and joins exactly the sites some river joins |
| ScoreTables.ExpandEdges | common/scorer.cc:83-96 | the loop over the dequeued site's neighbours gives every one still without a distance the site's distance plus one and enqueues it, skipping the rest |
| ScoreTables.ExpandNeighbour | common/scorer.cc:91-95 | one neighbour is given the next distance and enqueued unless it already has one |
| ScoreTables.SearchMine | common/scorer.cc:67-97 | one mine's search gives every site reachable from the mine its shortest distance and every other site -1 |
| ScoreTables.InitializeDistanceMap | common/scorer.cc:61-99 | the distance map holds, per mine in list order, the shortest distances over the river graph, -1 where unreachable |
| ScoreTables.DistanceMapAtMines | common/scorer.cc:72-73 | every table holds 0 at its own mine |
| UnionFind.Parents | common/scorer.cc:169-179 | the parent links of the cells, in order |
| UnionFind.Root | common/scorer.cc:169-179 | following parent links from a site ends at a parentless cell, itself when the site has no parent |
| UnionFind.Roots | common/scorer.cc:169-179 | every site's root, in order |
| UnionFind.CompressKeepsRoots | common/scorer.cc:173-177 | re-pointing a cell straight at its root keeps every site's root |
| UnionFind.UnionRoots | common/scorer.cc:152-167 | after a union every site of the second component has the first root, and every other site keeps its root |
| UnionFind.LinkRoots | common/scorer.cc:166 | hanging the second root under the first moves exactly the second component to the first root |
| UnionFind.UnionSums | common/scorer.cc:163-166 | after a union the new root holds the sum of both components, and every other root keeps its sum |
| UnionFind.SingletonSum | common/scorer.cc:118-131 | while every site is its own root, a component's sum is its root's own score |
| UnionFind.ContributionChange | common/scorer.cc:133-141 | changing one site's score changes its component's sum by as much and no other component's |
| UnionFind.UnionFindSet.Valid | common/scorer.cc:113-191 | a consistent set has one root and one contribution row per cell |
| UnionFind.UnionFindSet.constructor | common/scorer.cc:115-116 | a new set has no cells |
| UnionFind.UnionFindSet.Initialize | common/scorer.cc:118-122 | one parentless cell without scores per site, each its own root |
| UnionFind.UnionFindSet.SetDistanceMap | common/scorer.cc:124-131 | every cell, still its own root, gets one score per mine, the square of its distance to that mine |
| UnionFind.UnionFindSet.FindIndex | common/scorer.cc:169-179 | the root of a site is returned, and path compression keeps every site's root and every component's sums |
| UnionFind.UnionFindSet.GetScore | common/scorer.cc:143-146 | the score of a site's component for a mine is the sum of that component's contributions, and the partition does not change |
| UnionFind.UnionFindSet.IsConnected | common/scorer.cc:148-150 | two sites are connected exactly when they share a root, and the partition does not change |
| UnionFind.UnionFindSet.Merge | common/scorer.cc:152-167 | unless the sites share a root, the two components are united under the first root, which holds the sum of both components' scores |
| UnionFind.UnionFindSet.AddFuture | common/scorer.cc:133-141 | the mine's cell, holding 0 for the mine, gets `-d^3` and the target's cell gains `2 d^3`, each write moving its component's sum by as much |
| UnionFind.Identity | common/scorer.cc:118-122 | the identity partition makes every site its own root |
| UnionFind.SquaredDistances | common/scorer.cc:126-129 | a site's scores are its squared distances to each mine, in mine order |
| UnionFind.SquareColumn | common/scorer.cc:126-129 | the inner loop gives a cell its squared distances to each mine |
| UnionFind.AddScores | common/scorer.cc:163-165 | the merge loop adds the two score lists element by element |
| UnionFind.LinkConsistent | common/scorer.cc:161-166 | hanging one root under another that holds both sums keeps the set consistent and unites the two components |
| UnionFind.LinkRanked | common/scorer.cc:166 | hanging one root under another keeps parent chains finite and moves the second component to the first root |
| UnionFind.LinkSums | common/scorer.cc:161-166 | after linking, the roots hold the sums of the united components |
| UnionFind.CompressConsistent | common/scorer.cc:173-177 | path compression of a non-root cell keeps every invariant |
| UnionFind.SingletonRoot | common/scorer.cc:170-171 | a parentless cell is its own root |
| UnionFind.WriteSums | common/scorer.cc:138-140 | writing one score keeps every root's sums when the contribution moves by the same amount |
| UnionFind.FutureConsistent | common/scorer.cc:133-141 | the two writes of a future keep the set consistent |
| UnionFind.FutureSums | common/scorer.cc:133-141 | the two writes of a future keep every parent link and every root's sums |
| UnionFind.WithScore | common/scorer.cc:138-140 | setting one score changes that score of that cell only |
| UnionFind.FutureCells | common/scorer.cc:133-141 | after a future, the mine's cell holds `-d^3` for the mine and the target's cell `2 d^3` more, nothing else changed |
| CommonScorer.UnionTerm | common/scorer.cc:263-273 | after uniting two components, a mine joined to one gains the other's sum for that mine, and every other mine's term is unchanged |
| CommonScorer.UnionShaped | common/scorer.cc:152-167 | a union keeps the sums matching the partition |
| CommonScorer.SplurgeRoots | common/scorer.cc:248-251 | a splurge is one union per consecutive pair of its route |
| CommonScorer.SplurgeStep | common/scorer.cc:249-250 | a splurge is the union of its first pair followed by the splurge of the rest |
| CommonScorer.UnionJoins | common/scorer.cc:152-167 | a union keeps together sites that were together and joins its two sites |
| CommonScorer.SplurgeConnects | common/scorer.cc:248-251 | after a splurge every site of its route shares one component, and sites together before still are |
| CommonScorer.FreshScoreZero | common/scorer.cc:198-212 | before any claim or future each mine is worth its own squared distance, 0, so the score is 0 |
| CommonScorer.FuturePays | common/scorer.cc:214-229 | a future at distance `d` is worth `d^3` once its target shares the mine's component and `-d^3` otherwise |
| CommonScorer.TotalShift | common/scorer.cc:231-239 | a change to one mine's term moves the score by as much |
| CommonScorer.FreshSets | common/scorer.cc:207-211 | one new set per punter, each of singleton cells holding squared distances |
| CommonScorer.FreshSet | common/scorer.cc:208-210 | a new set has singleton cells holding squared distances |
| CommonScorer.BuildTables | common/scorer.cc:198-205 | the site ids sorted, the mine indices sorted, and one shortest-distance table per mine |
| CommonScorer.PristineScoreZero | common/scorer.cc:198-212 | a punter with no claim and no future scores 0 |
| CommonScorer.SumOverMines | common/scorer.cc:234-238 | the score sums, over the mines, the component sum for that mine at the mine's root, leaving the partition as it was |
| CommonScorer.UnionGain | common/scorer.cc:263-273 | for two separate components the gain sums, per mine, the other component's sum when the mine is joined to one of them |
| CommonScorer.MineGain | common/scorer.cc:264-272 | a mine joined to the first end gains the second end's component sum, one joined to the second gains the first's, any other nothing |
| CommonScorer.MinesJoined | common/scorer.cc:289-294 | the loop lists the ids of the mines in the site's component, in mine-list order |
| CommonScorer.SitesJoined | common/scorer.cc:304-308 | the loop lists the ids of the sites in the site's component, in index order |
| CommonScorer.MinePosition | common/scorer.cc:221-222 | a future's mine is found at its position in the mine list |
| CommonScorer.FutureSlotsDiffer | common/scorer.cc:220-228 | futures from different mines write different score slots |
| CommonScorer.FutureStep | common/scorer.cc:225-227 | one future on singleton components moves the score by its worth |
| CommonScorer.FuturesValueStep | common/scorer.cc:220-228 | each further future adds its own worth |
| CommonScorer.AddFutures | common/scorer.cc:220-228 | the loop writes every future into the set, in order |
| CommonScorer.AddOneFuture | common/scorer.cc:221-227 | one iteration writes future `i` into the set |
| CommonScorer.Scorer.Partition | common/scorer.cc:231-310 | each punter's components keep their sums matching the partition |
| CommonScorer.Scorer.constructor | common/scorer.cc:195 | a new scorer holds no tables |
| CommonScorer.Scorer.Initialize | common/scorer.cc:198-212 | the sorted id and mine lists, one distance table per mine, and per punter singleton cells holding squared distances, so every punter scores 0 |
| CommonScorer.Scorer.GetScore | common/scorer.cc:231-239 | the score is the sum over mines of the mine's component sum, and the partition does not change |
| CommonScorer.Scorer.IsConnected | common/scorer.cc:278-282 | two sites are connected exactly when they share a component of the punter, which does not change |
| CommonScorer.Scorer.Claim | common/scorer.cc:241-246 | a claim unites the components of the river's two ends |
| CommonScorer.Scorer.Splurge | common/scorer.cc:248-251 | a splurge claims each consecutive pair of its route, in order |
| CommonScorer.Scorer.TryClaim | common/scorer.cc:253-276 | the score is what the punter would have once the river's two ends are united, computed without changing the partition |
| CommonScorer.Scorer.AddFuture | common/scorer.cc:214-229 | each future puts `-d^3` in its mine's cell and adds `2 d^3` to its target's cell at that mine's slot |
| CommonScorer.Scorer.GetConnectedMineList | common/scorer.cc:284-296 | the ids of exactly the mines in the site's component, in mine-list order |
| CommonScorer.Scorer.GetConnectedSiteList | common/scorer.cc:299-310 | the ids of exactly the sites in the site's component, ascending |
| CommonScorer.SameElementsSameMembers | common/scorer.cc:20 | sorting keeps membership |
| CommonScorer.MinesWithRoot | common/scorer.cc:289-294 | the mines whose root is given, in list order, at most one per mine |
| CommonScorer.SitesWithRoot | common/scorer.cc:304-308 | the sites whose root is given, in index order |
| CommonScorer.MinesWithRootMembers | common/scorer.cc:289-294 | the mine list names exactly the mines in the component |
| CommonScorer.SitesWithRootMembers | common/scorer.cc:304-308 | the site list holds exactly the sites in the component, and is sorted because the id list is |
| StadiumScorer.Scorer.constructor | stadium/scorer.cc:194 | a new scorer holds no tables |
| StadiumScorer.Scorer.Initialize | stadium/scorer.cc:197-209 | the sorted site ids, the sorted mine indices, a shortest-distance table per mine with -1 where unreached, and per punter singleton cells holding squared distances |
| StadiumScorer.Scorer.AddFuture | stadium/scorer.cc:211-226 | each future puts `-d^3` in its mine's cell and adds `2 d^3` to its target's; on singleton components the score moves by the futures' worth |
| StadiumScorer.Scorer.GetScore | stadium/scorer.cc:228-236 | the score is the sum over mines of the mine's component sum, and the partition does not change |
| StadiumScorer.Scorer.Claim | stadium/scorer.cc:238-243 | a claim unites the components of the river's two ends |
| GameMapForAi.Attach | punter/gamemapforai.cc:40-41 | edge `ix` is added to the lists of its two ends and to no other list |
| GameMapForAi.IncidenceOf | punter/gamemapforai.cc:33-48 | the lists hold one entry per node |
| GameMapForAi.IncidenceMembers | punter/gamemapforai.cc:33-48 | a node lists `(w, ix)` exactly when edge `ix` joins it to `w`, so every edge sits in both ends' lists |
| GameMapForAi.Ends | punter/gamemapforai.cc:82-83 | the neighbours of a list of pairs, in order |
| GameMapForAi.NodeGraph | punter/gamemapforai.cc:82-88 | the lists read as an adjacency over the nodes |
| GameMapForAi.IncidenceIndexed | punter/gamemapforai.cc:33-48 | every list entry names an edge that joins its node to the listed neighbour, and the adjacency names only nodes |
| GameMapForAi.IndexIdsFinds | punter/gamemapforai.cc:27-31 | a site id maps to the last position holding it, and an id of no site keeps what an earlier `init` left |
| GameMapForAi.DistinctIdsIndexed | punter/gamemapforai.cc:27-31 | with distinct site ids every id maps to its own position |
| GameMapForAi.KnownIdsResolve | punter/gamemapforai.cc:27-53 | the river ends and mines of a map whose ids are all sites resolve to node indices |
| GameMapForAi.NormalEdge | punter/gamemapforai.cc:35-45 | a river is stored as its two node indices, smaller first, uncoloured |
| GameMapForAi.Column | punter/gamemapforai.cc:80-85 | one mine's distances, one per node |
| GameMapForAi.IndexNodes | punter/gamemapforai.cc:27-31 | node `i` takes the id of site `i` and the id maps back to a node holding it |
| GameMapForAi.AddRivers | punter/gamemapforai.cc:33-48 | every river becomes an uncoloured edge with the smaller node first, pushed onto both ends' lists, in order |
| GameMapForAi.ResolveMines | punter/gamemapforai.cc:50-53 | every mine id is resolved to its node, in order |
| GameMapForAi.ResetNodes | punter/gamemapforai.cc:55-63 | every node gets zero distances and no flags, except that each mine is flagged for every punter for itself |
| GameMapForAi.WithColumn | punter/gamemapforai.cc:80-85 | replacing one mine's distances changes that column and nothing else |
| GameMapForAi.InitMineScores | punter/gamemapforai.cc:68-91 | each mine's column holds the shortest distances from the mine over the river graph, 0 where unreachable |
| GameMapForAi.MineDistance | punter/gamemapforai.cc:74-89 | one search from a mine gives every reachable node its shortest distance and every other node 0 |
| GameMapForAi.ExpandNode | punter/gamemapforai.cc:82-88 | every neighbour still at 0 other than the mine goes one level deeper and is queued |
| GameMapForAi.ExpandPair | punter/gamemapforai.cc:83-87 | one neighbour is given the next distance and queued when it is not the mine and still holds 0, the mark of unvisited |
| GameMapForAi.IncidenceIgnoresColour | punter/gamemapforai.cc:40-41 | the lists depend only on the edges' ends, not on their colours |
| GameMapForAi.BuildInit | punter/gamemapforai.cc:17-66 | `init` indexes the sites, rivers and mines, resets the flags and fills the distance columns |
| GameMapForAi.ColouredEndsMembers | punter/gamemapforai.cc:133-141 | a neighbour is pushed exactly when it is not the ignored end and its edge has the punter's colour |
| GameMapForAi.ColouredGraph | punter/gamemapforai.cc:133-141 | the searched graph has, per node, the neighbours over the punter's edges with the ignored end cut out |
| GameMapForAi.ColouredBack | punter/gamemapforai.cc:133-141 | an edge of the searched graph also goes back the other way |
| GameMapForAi.ColouredSymmetric | punter/gamemapforai.cc:133-141 | the searched graph names only nodes and every edge of it goes both ways |
| GameMapForAi.PopStep | punter/gamemapforai.cc:129-131 | popping the top of the stack onto the collected list keeps the search's invariant |
| GameMapForAi.PushStep | punter/gamemapforai.cc:137-140 | pushing and marking an unmarked neighbour keeps the search's invariant |
| GameMapForAi.FinishReach | punter/gamemapforai.cc:126-143 | when the stack is empty, the marked nodes and the start are exactly the nodes reachable from the start |
| GameMapForAi.FinishStart | punter/gamemapforai.cc:126-143 | an unmarked start ends up marked exactly when it has a neighbour in the searched graph |
| GameMapForAi.CollectFinish | punter/gamemapforai.cc:126-143 | the nodes reachable from the start are collected once each, and an unmarked start once more when it has a neighbour |
| GameMapForAi.Collect | punter/gamemapforai.cc:123-143 | the search collects each node reachable from the start once, plus the start a second time when it is left unmarked and has a neighbour |
| GameMapForAi.SearchStep | punter/gamemapforai.cc:128-142 | one round pops the top of the stack and pushes its unmarked neighbours, keeping the invariant |
| GameMapForAi.PushNeighbours | punter/gamemapforai.cc:133-141 | every unmarked neighbour of the popped node over the punter's edges is pushed and marked |
| GameMapForAi.VisitPair | punter/gamemapforai.cc:134-140 | one pair is pushed and marked when it is unmarked, not the ignored end, and its edge has the punter's colour |
| GameMapForAi.MineMask | punter/gamemapforai.cc:116-143 | the nodes a claim adds for a mine: none when both ends or neither were connected to it, otherwise everything the other end reaches over the punter's rivers |
| GameMapForAi.ListSumIsMaskSum | punter/gamemapforai.cc:145-148 | a list holding each node of a set once sums to the set's sum |
| GameMapForAi.SumSquares | punter/gamemapforai.cc:145-148 | the loop sums the squared distances of the collected nodes for the mine |
| GameMapForAi.FlagTwice | punter/gamemapforai.cc:152-154 | flagging a node twice is flagging it once |
| GameMapForAi.MarkReachable | punter/gamemapforai.cc:152-154 | every collected node is flagged for the mine and punter, and nothing else changes |
| GameMapForAi.ClaimMine | punter/gamemapforai.cc:116-157 | corrected, one mine's gain is the sum of squared distances of the nodes the claim makes reachable, which are flagged when claiming |
| GameMapForAi.FirstMatch | punter/gamemapforai.cc:164-169 | the recoloured edge is the first pair of the source's list that leads to the destination |
| GameMapForAi.Recoloured | punter/gamemapforai.cc:161-173 | only the first edge from the source to the destination takes the punter's colour |
| GameMapForAi.ColourRiver | punter/gamemapforai.cc:161-173 | the colour loop stops at the first pair leading to the destination and colours that edge only |
| GameMapForAi.ClaimedNode | punter/gamemapforai.cc:111-159 | a node's flags once the first mines have flagged the nodes they gain |
| GameMapForAi.ClaimedNodeFlags | punter/gamemapforai.cc:150-154 | a claimed node's flags gain the claim's nodes for the mines done so far, and keep the rest |
| GameMapForAi.SameColumnSameGain | punter/gamemapforai.cc:116-148 | a mine's gain reads only that mine's distances and flags |
| GameMapForAi.ClaimedFits | punter/gamemapforai.cc:104-176 | a claim keeps the sizes, and the lists still index the recoloured edges |
| GameMapForAi.ClaimStep | punter/gamemapforai.cc:111-159 | corrected, one pass of the mine loop adds that mine's gain and flags |
| GameMapForAi.ClaimMines | punter/gamemapforai.cc:111-159 | corrected, the mine loop's total is the sum of every mine's gain |
| GameMapForAi.ClaimCore | punter/gamemapforai.cc:104-176 | corrected, a claim is worth the sum over mines of the squared distances of the nodes it makes reachable, each counted once; when claiming, the flags, the river's colour and the score are updated by that amount |
| GameMapForAi.StartCountedTwice | punter/gamemapforai.cc:123-143 | as written, on a three-node map the search's start is collected twice, so its distance counts twice |
| GameMapForAi.ScoreAsWritten | punter/gamemapforai.cc:145-157 | as written, each mine with a gain adds the running total of all gains so far to the score |
| GameMapForAi.AddedAsWrittenOneMine | punter/gamemapforai.cc:145-157 | with at most one mine gaining, the written bookkeeping adds just the gain |
| GameMapForAi.AddedAsWritten | punter/gamemapforai.cc:145-157 | as written, with gains never negative and only gaining mines active, the bookkeeping adds at least the true total gain |
| GameMapForAi.RunningTotalOvercounts | punter/gamemapforai.cc:145-157 | two mines gaining 1 each make a claim worth 2, but the score as written grows by 3 |
| GameMapForAi.FlagInts | punter/gamemapforai.cc:192 | a flag is written as 1 or 0 |
| GameMapForAi.Bits | punter/gamemapforai.cc:233-235 | any integer but 0 is read back as set |
| GameMapForAi.ReadEdgesIn | punter/gamemapforai.cc:245-252 | edges that are read name only nodes |
| GameMapForAi.ReadRowsEncoded | punter/gamemapforai.cc:190-194 | flag rows written as integers read back as themselves |
| GameMapForAi.ReadNodeEncoded | punter/gamemapforai.cc:184-196 | a node written in `serialize`'s order reads back as itself |
| GameMapForAi.ReadNodesEncoded | punter/gamemapforai.cc:183-196 | the nodes written read back as themselves, leaving the rest |
| GameMapForAi.ReadEdgesEncoded | punter/gamemapforai.cc:198-201 | the edges written read back as themselves, leaving the rest |
| GameMapForAi.DecodeTailEncoded | punter/gamemapforai.cc:242-261 | the edges, mines and scores written read back as themselves |
| GameMapForAi.DecodeEncode | punter/gamemapforai.cc:178-264 | corrected, reading back what `serialize` wrote gives the same map, with one score per punter |
| GameMapForAi.ReadNodeOneMine | punter/gamemapforai.cc:184-196 | with at most one mine the written and the reading order of a node coincide |
| GameMapForAi.ReadNodesOneMine | punter/gamemapforai.cc:224-238 | with at most one mine the node loop reads the same either way |
| GameMapForAi.ReadNodeAsWritten | punter/gamemapforai.cc:224-238 | as written, a node reads exactly when the corrected reading does, keeps its id and leaves the same tokens, so a misread goes unnoticed |
| GameMapForAi.RowsTake | punter/gamemapforai.cc:184-196 | reading `count` rows of `width` flags succeeds exactly when `count * width` tokens are there, leaving what follows |
| GameMapForAi.EntriesTake | punter/gamemapforai.cc:230-237 | reading `count` distance-then-flags entries succeeds exactly when `count * (1 + punters)` tokens are there, leaving what follows |
| GameMapForAi.ReadersTakeAlike | punter/gamemapforai.cc:224-238 | the written and the corrected node reader take the same number of tokens |
| GameMapForAi.ReadNodesAlike | punter/gamemapforai.cc:224-238 | the node loop as written and as corrected succeed together, read the same number of nodes with the same ids, and leave the same tokens |
| GameMapForAi.DecodeAsWrittenOneMine | punter/gamemapforai.cc:214-264 | on a map with at most one mine, `deserialize` as written reads what `serialize` wrote |
| GameMapForAi.DecodeAsWritten | punter/gamemapforai.cc:214-264 | as written, `deserialize` accepts exactly what the corrected reading accepts, with the same edges, mines, scores and node ids; only the nodes' distances and flags can differ |
| GameMapForAi.TwoMinesMisread | punter/gamemapforai.cc:178-264 | as written, a one-node two-mine map does not read back as itself |
| GameMapForAi.EncodedMisread | punter/gamemapforai.cc:214-238 | as written, the second distance of that map is read from a flag token |
| GameMapForAi.ExampleEncoded | punter/gamemapforai.cc:178-212 | `serialize` writes that map as `1 2 1 5 0 3 1 0 0 0 0 0` |
| GameMapForAi.ExampleNodeMisread | punter/gamemapforai.cc:224-238 | as written, the node `5 0 3 1 0` is read with distances 0 and 1 |
| GameMapForAi.NodeSites | punter/gamemapforai.cc:226-227 | the sites the nodes carry, in order |
| GameMapForAi.EncodeNodesSnoc | punter/gamemapforai.cc:184-196 | writing one more node appends its tokens |
| GameMapForAi.EncodeEdgesSnoc | punter/gamemapforai.cc:199-201 | writing one more edge appends its three tokens |
| GameMapForAi.ReadNodesLoop | punter/gamemapforai.cc:224-238 | the node loop succeeds exactly when the nodes can be read, and then gives them, each id mapped to its position |
| GameMapForAi.DecodeTailLoop | punter/gamemapforai.cc:240-261 | the edge loop, which pushes every edge onto both ends' lists, then the mines and scores, read as the pure decoding says |
| GameMapForAi.GameMapForAI.constructor | punter/gamemapforai.h:16 | the default constructor leaves an empty map with no punters |
| GameMapForAi.GameMapForAI.FromMap | punter/gamemapforai.cc:11-15 | corrected, the constructor from a map runs `init` with one zero score per punter |
| GameMapForAi.GameMapForAI.InitCore | punter/gamemapforai.cc:17-66 | as written, `init` indexes the map and fills the distances and flags, but leaves the scores as they were |
| GameMapForAi.GameMapForAI.Init | punter/gamemapforai.cc:17-66 | corrected, `init` also gives every punter a zero score, so every claim has a slot |
| GameMapForAi.GameMapForAI.ClaimImpl | punter/gamemapforai.cc:104-176 | corrected, the worth of a claim to the punter, with the flags, colour and score updated only when claiming |
| GameMapForAi.GameMapForAI.Claim | punter/gamemapforai.cc:94-97 | corrected, a claim returns its worth and records it |
| GameMapForAi.GameMapForAI.Serialize | punter/gamemapforai.cc:178-212 | `serialize` writes the counts, each node, the edges, the mines and the scores, as tokens |
| GameMapForAi.GameMapForAI.Deserialize | punter/gamemapforai.cc:214-264 | corrected, `deserialize` reads back whatever `serialize` wrote, and changes the map only when the whole input can be read |
| GameMapForAi.GameMapForAI.DeltaScore | punter/gamemapforai.cc:99-102 | corrected, `delta_score` gives the claim's worth and changes nothing |
| GameMapForAi.InitLeavesScoresEmpty | punter/gamemapforai.cc:17-66 | as written, `init` on a fresh two-punter map leaves no score slots, so a claim would index past them |
| GameMapComponents.ColouredAdj | punter/gamemapforai.cc:133-141 | the searched graph joins two nodes exactly when an edge of the punter joins them and neither is cut out |
| GameMapComponents.RecolourLinked | punter/gamemapforai.cc:161-169 | colouring an uncoloured edge links its ends for the punter and changes nothing else |
| GameMapComponents.InitFlagsAreComponents | punter/gamemapforai.cc:55-63 | after `init` every river is free, so each mine's component is the mine alone, which is what the flags say |
| GameMapComponents.ClaimedEdge | punter/gamemapforai.cc:161-169 | a claim of a free river colours one uncoloured edge joining the river's ends |
| GameMapComponents.ClaimKeepsOthers | punter/gamemapforai.cc:104-176 | a claim leaves every other punter's graph and flags as they were |
| GameMapComponents.OwnedGainsRiver | punter/gamemapforai.cc:104-176 | the claiming punter's graph after the claim is the graph before with the river added |
| GameMapComponents.OwnedCutOut | punter/gamemapforai.cc:133-141 | the graph the search walks is the punter's graph with the ignored end cut out |
| GameMapComponents.ClaimJoinsComponents | punter/gamemapforai.cc:116-154 | when one end was connected to a mine and the other was not, the component gains what the other end reaches; otherwise it stays |
| GameMapComponents.ClaimKeepsComponents | punter/gamemapforai.cc:104-176 | a claim of a free river keeps every flag equal to membership in the mine's component |
| SimplePunter.Mark | framework/simple_punter.cc:12-21 | a claim gives every river it matches to the claimer and fails the check exactly when a matching river is already owned; the endpoints never change and any other move changes nothing |
| SimplePunter.FirstUnclaimed | framework/simple_punter.cc:24-28 | the first river nobody owns, or none exactly when every river is owned |
| SimplePunter.ApplyMovesPrefixErr | framework/simple_punter.cc:12-22 | a check that fails part-way through a batch fails the whole batch |
| SimplePunter.ApplyMovesKeepsOwners | framework/simple_punter.cc:12-22 | a batch that passes its checks keeps every endpoint and every owner, handing only free rivers to claimers |
| SimplePunter.ChoiceBecomesOwned | framework/simple_punter.cc:11-31 | the river `Run` claims is free, and once that claim comes back it is the picker's |
| SimplePunter.SiteIdOf | framework/simple_punter.cc:54-56 | a stored site reads back exactly when it is an integer |
| SimplePunter.RiverStateOf | framework/simple_punter.cc:61-67 | a stored river reads back exactly when it is a dictionary with integer source, target and punter |
| SimplePunter.Forgotten | framework/simple_punter.cc:91-97 | every river kept with its owner dropped |
| SimplePunter.StateRoundTrip | framework/simple_punter.cc:45-108 | reading back a written state restores the ids, sites, river endpoints and mines, with every river free |
| SimplePunter.SiteListRoundTrip | framework/simple_punter.cc:51-56 | the site list written reads back as itself |
| SimplePunter.MineListRoundTrip | framework/simple_punter.cc:69-74 | the mine list written reads back as itself |
| SimplePunter.RiverListRoundTrip | framework/simple_punter.cc:58-67 | the river list written reads back with every owner forgotten |
| SimplePunter.FreeListRoundTrip | framework/simple_punter.cc:58-67 | a river list that is all free reads back as itself |
| SimplePunter.FreeRiverRoundTrip | framework/simple_punter.cc:58-67 | a free river reads back as itself |
| SimplePunter.SimplePunter.constructor | framework/simple_punter.h:40-44 | a fresh punter has ids -1 and empty lists |
| SimplePunter.SimplePunter.SetUp | framework/simple_punter.cc:33-43 | the ids, sites and mines are taken as given and each river is appended free after those already held |
| SimplePunter.SimplePunter.MarkMove | framework/simple_punter.cc:13-21 | one move updates the rivers as the pure marking says, and fails exactly when a matching river is owned |
| SimplePunter.SimplePunter.Run | framework/simple_punter.cc:11-31 | `Run` succeeds exactly when every claim of the batch finds its rivers free; then the rivers are updated and the move claims the first free river, or passes when none is left |
| SimplePunter.SimplePunter.GetState | framework/simple_punter.cc:77-108 | the state written holds the ids, sites, rivers with punter -1, and mines |
| SimplePunter.SimplePunter.SetState | framework/simple_punter.cc:45-75 | `SetState` succeeds exactly when every field can be read, and then holds what was read |
| StubPunter.Normal | stadium/stub_punter.cc:15-17 | a river is stored as the pair of its two ends, smaller first |
| StubPunter.RemainingShrinks | stadium/stub_punter.cc:24-30 | erasing the batch's claims only removes pairs, and every claimed river is gone |
| StubPunter.LeastExists | stadium/stub_punter.cc:31 | a set of pairs that is not empty has a least pair, which the set's iterator starts at |
| StubPunter.StubPunter.constructor | stadium/stub_punter.cc:7 | a fresh punter holds no rivers |
| StubPunter.StubPunter.SetUp | stadium/stub_punter.cc:11-21 | the set gains exactly the rivers of the map as ordered pairs, and the punter is named "STUB" |
| StubPunter.StubPunter.OnTurn | stadium/stub_punter.cc:23-35 | the batch's claims are erased, the least pair left is claimed and erased too |
| StubPunter.OnTurnClaimsOrdered | stadium/stub_punter.cc:31-33 | the claim names its smaller end first, and the set gets smaller |
| QuickPunter.RecolourSettles | punter/quick_punter.cc:46-62 | after one's own claim of a river with a coloured end both ends are coloured, and recolouring again changes nothing |
| QuickPunter.RecolourMirrored | punter/quick_punter.cc:46-62 | recolouring keeps the map equal to what the colour log builds, every colour a mine, and every existing colour as it was |
| QuickPunter.ApplyQuickPrefixErr | punter/quick_punter.cc:37-65 | a check that fails part-way through a batch fails the whole batch |
| QuickPunter.ApplyQuickKeeps | punter/quick_punter.cc:37-65 | a batch keeps the colouring mirrored and only adds colours, each a mine; owned rivers keep their owners and no river changes its ends |
| QuickPunter.FirstFrontier | punter/quick_punter.cc:68-81 | the first free river with one end coloured and the other not, or with two different colours; none exactly when there is no such river |
| QuickPunter.ChoiceSpreadsColour | punter/quick_punter.cc:34-83 | once the claim of a river with one coloured end comes back, both ends carry that colour |
| QuickPunter.QuickPunter.constructor | punter/quick_punter.cc:8 | a fresh punter holds an empty map and no colours |
| QuickPunter.QuickPunter.SetUp | punter/quick_punter.cc:11-32 | the sites, free rivers and mines are appended, and each mine is coloured with itself |
| QuickPunter.QuickPunter.MarkMove | punter/quick_punter.cc:37-65 | one move updates the rivers and colours as the pure marking says, failing exactly when a matching river is owned |
| QuickPunter.QuickPunter.Run | punter/quick_punter.cc:34-83 | `Run` succeeds exactly when the batch's checks pass; then the move claims the first free frontier river, or passes when there is none |
| QuickPunter.QuickPunter.SetState | punter/quick_punter.cc:85-97 | the decoded buffer replaces the fields, and its colour entries go into the map without overwriting those already there |
| GreedyPunter.Other | punter/greedy_punter.cc:32-38 | a river joins a site to a mine's set exactly when one end is in the set and the other is not, and then the site is the end outside |
| GreedyPunter.MineGain | punter/greedy_punter.cc:30-43 | what one mine gains from a river is never negative |
| GreedyPunter.RiverScore | punter/greedy_punter.cc:28-43 | a river's score over the mines is never negative |
| GreedyPunter.Scan | punter/greedy_punter.cc:20-50 | the river kept by the scan is one of those scanned |
| GreedyPunter.ScanFindsFirstBest | punter/greedy_punter.cc:20-50 | the river kept is the first free river of maximal score, there is one exactly when some river is free, and the score kept is its score |
| GreedyPunter.Grown | punter/greedy_punter.cc:52-55 | one set per mine after the claim |
| GreedyPunter.GrownJoins | punter/greedy_punter.cc:52-55 | the sets only grow, and each set that held one end of the river now holds both |
| GreedyPunter.ScoreRiver | punter/greedy_punter.cc:28-43 | the inner loop computes the river's score and the (mine, site) pairs it would join |
| GreedyPunter.InsertJoined | punter/greedy_punter.cc:53-55 | each mine's set gains exactly the sites paired with it |
| GreedyPunter.JoinedGrows | punter/greedy_punter.cc:42-54 | the pairs collected for a river are exactly what growing the sets adds |
| GreedyPunter.Least | punter/greedy_punter.cc:89-91 | the least site of a set that is not empty |
| GreedyPunter.SetToJson | punter/greedy_punter.cc:87-92 | a mine's set is written as its sites in ascending order, each once |
| GreedyPunter.ReadSites | punter/greedy_punter.cc:71-75 | a mine's list reads exactly when every entry is an integer, and inserts those into what the set held |
| GreedyPunter.ReadWrittenSites | punter/greedy_punter.cc:71-75 | a written list read into an empty set gives back the set |
| GreedyPunter.ReadLists | punter/greedy_punter.cc:64-76 | the lists read exactly when every one is a list of integers, each inserted into its mine's set after resizing |
| GreedyPunter.ReadListsPrefixErr | punter/greedy_punter.cc:68-76 | a list that fails to read fails the whole reading |
| GreedyPunter.ListsReadBack | punter/greedy_punter.cc:62-79 | lists written from the sets read back, into no sets or into the same sets, as the sets |
| GreedyPunter.BaseStateReadBack | punter/greedy_punter.cc:78-96 | the base's entries of the written state read back as the base's state with every river free |
| GreedyPunter.GreedyStateRoundTrip | punter/greedy_punter.cc:62-96 | the state `GetState` writes reads back as the same sets, into a fresh punter or the one that wrote it, and the base's state with every river free |
| GreedyPunter.GreedyPunter.constructor | punter/greedy_punter.cc:7 | a fresh punter has no sets and an empty base |
| GreedyPunter.GreedyPunter.SetUp | punter/greedy_punter.cc:10-17 | the base's set-up, then one set per mine holding just that mine |
| GreedyPunter.GreedyPunter.Run | punter/greedy_punter.cc:19-60 | the move claims the first free river of maximal score, or passes when none is free, and the sets grow by what the claimed river joins |
| GreedyPunter.GreedyPunter.GetState | punter/greedy_punter.cc:81-97 | the base's state with one ascending list per mine under "greedy" |
| GreedyPunter.GreedyPunter.SetState | punter/greedy_punter.cc:62-79 | `SetState` succeeds exactly when the lists and the base's entries can be read, and then the sets and the base hold what was read |
| GreedyPunterChun.Keys | punter/greedy_punter_chun.cc:46-51 | one (score, edge) pair per candidate, in order |
| GreedyPunterChun.KeyOf | punter/greedy_punter_chun.cc:46-51 | every listed candidate has its pair among those sorted |
| GreedyPunterChun.BestListed | punter/greedy_punter_chun.cc:46-59 | the pair of largest score names a free river scoring at least as much as every free river; there is none exactly when no river is free |
| GreedyPunterChun.BestTops | punter/greedy_punter_chun.cc:46-59 | the same for the uncoloured edges of the map, scored by what claiming them adds for the punter |
| GreedyPunterChun.GreedyPunterChun.constructor | punter/greedy_punter_chun.cc:12-14 | a fresh punter holds an empty map |
| GreedyPunterChun.GreedyPunterChun.SetUp | punter/greedy_punter_chun.cc:18-21 | corrected, `init` runs on the map with one zero score per punter, then the base's set-up |
| GreedyPunterChun.GreedyPunterChun.RunWithoutMoves | punter/greedy_punter_chun.cc:23-26 | `Run()` without moves passes, naming punter 0 |
| GreedyPunterChun.GreedyPunterChun.Run | punter/greedy_punter_chun.cc:27-65 | corrected, every claim of the batch is replayed on the map; the move claims an uncoloured edge adding the most to this punter's score, named by its sites' ids, and the check fails exactly when no edge is uncoloured |
| GreedyPunterChun.GreedyPunterChun.GetState | punter/greedy_punter_chun.cc:80-89 | the base's state plus the map's serialization |
| GreedyPunterChun.GreedyPunterChun.SetState | punter/greedy_punter_chun.cc:67-78 | corrected, `SetState` succeeds exactly when the map's tokens and the base's entries can be read, and then holds what was read |
| GreedyPunterChun.StateRoundTrip | punter/greedy_punter_chun.cc:67-89 | what `GetState` writes `SetState` reads back: the map exactly, the base's state with every river free |
| CostSearch.Step | punter/greedy_punter_mirac.cc:59-68 | crossing a river from a site reached at some cost arrives at a cost no lower, within what the rule allows |
| CostSearch.StepMonotone | punter/greedy_punter_mirac.cc:59-68 | a cheaper start crosses every river a dearer one crosses, and arrives no dearer |
| CostSearch.PopTop | punter/greedy_punter_mirac.cc:53-58 | the popped candidate comes before every other queued one, and the rest of the queue is the others |
| CostSearch.RelaxStart | punter/greedy_punter_mirac.cc:59 | the loop state holds before the first edge of the popped site |
| CostSearch.RelaxSkip | punter/greedy_punter_mirac.cc:64-72 | an edge that cannot be crossed, or does not improve its far end, keeps the loop state |
| CostSearch.RelaxUpdate | punter/greedy_punter_mirac.cc:69-74 | an edge that improves its far end rewrites that entry and queues a candidate, keeping the loop state |
| CostSearch.UpdateFacts | punter/greedy_punter_mirac.cc:69-73 | the far end of an improving edge is neither done, nor the popped site, nor the mine |
| CostSearch.UpdateRest | punter/greedy_punter_mirac.cc:73-74 | the rewritten entry keeps the remaining conjuncts of the loop state |
| CostSearch.UpdateQueueOk | punter/greedy_punter_mirac.cc:73-74 | every queued candidate still costs no less than its site's entry after the rewrite |
| CostSearch.UpdateRelaxed | punter/greedy_punter_mirac.cc:73 | lowering an entry that is not done keeps the done sites' edges relaxed |
| CostSearch.UpdateUpTo | punter/greedy_punter_mirac.cc:59-74 | after the rewrite the edges seen so far of the popped site are relaxed |
| CostSearch.UpdatePointers | punter/greedy_punter_mirac.cc:73 | the rewritten back-pointer leads to a done site, so the pointers still form a tree |
| CostSearch.UpdatePending | punter/greedy_punter_mirac.cc:73-74 | every reached site that is not done still has its entry in the queue |
| CostSearch.Relax | punter/greedy_punter_mirac.cc:59-75 | the relaxation loop rewrites exactly the far ends it improves, queueing one candidate for each |
| CostSearch.NoUpdateFromDone | punter/greedy_punter_mirac.cc:69-72 | a stale candidate of a done site improves nothing |
| CostSearch.PopKeeps | punter/greedy_punter_mirac.cc:52-58 | the state after a pop is what the relaxation loop needs |
| CostSearch.RelaxKeeps | punter/greedy_punter_mirac.cc:52-76 | after the relaxation loop the popped site is done and the search's state holds again |
| CostSearch.SearchEnds | punter/greedy_punter_mirac.cc:52-76 | with the queue empty the table is settled and its back-pointers form a tree rooted at the mine |
| CostSearch.NotDoneShrinks | punter/greedy_punter_mirac.cc:52-76 | finishing a site leaves fewer sites to finish |
| CostSearch.SearchStep | punter/greedy_punter_mirac.cc:52-76 | one turn of the loop keeps the search's state and finishes a site or drops a stale candidate |
| CostSearch.StartColumn | punter/greedy_punter_mirac.cc:41-43 | before the loop every site but the mine is unreached and the mine costs nothing |
| CostSearch.SearchStarts | punter/greedy_punter_mirac.cc:49-51 | the search's state holds with the mine alone queued |
| CostSearch.Search | punter/greedy_punter_mirac.cc:45-76 | the search from a mine ends with a settled table whose back-pointers form a tree rooted at the mine |
| CostSearch.Follow | punter/greedy_punter_mirac.cc:59-68 | following existing edges from a site gives a site and a cost within what the rule allows |
| CostSearch.FollowAppend | punter/greedy_punter_mirac.cc:59-68 | one more edge at the end of a path is one more crossing from where it ends |
| CostSearch.TreePath | punter/greedy_punter_mirac.cc:122-131 | following back-pointers gives every reached site a path from the mine costing exactly its entry |
| CostSearch.SettledBound | punter/greedy_punter_mirac.cc:45-76 | in a settled table no path from a reached site arrives cheaper than the entry at its end |
| CostSearch.Cheapest | punter/greedy_punter_mirac.cc:45-76 | a site is reached exactly when some path from the mine can cross to it, and its entry is the least cost of such a path, attained by its back-pointers |
| CostSearch.FirstStepCrosses | punter/greedy_punter_mirac.cc:125-135 | the last crossing of the back-walk goes from a site with nothing to claim over a free river, or over another's river by option |
| CostSearch.WalkStep | punter/greedy_punter_mirac.cc:126-130 | one step back from a site that still has rivers to claim lands on a reached site found earlier |
| CostSearch.Walk | punter/greedy_punter_mirac.cc:122-131 | the back-walk ends at the first site on the route with nothing left to claim, and the site before it is the route's next |
| CostSearch.CrossesLegal | punter/greedy_punter_mirac.cc:133-135 | the crossing the back-walk ends with is a legal claim or option for the punter |
| CostSearch.Columns | punter/greedy_punter_mirac.cc:41-83 | one settled column per mine |
| CostSearch.Connect | punter/greedy_punter_mirac.cc:122-135 | the move is a legal claim or option of the first river still to take on the table's cheapest route from the mine to the target |
| CostSearch.Fallback | punter/greedy_punter_mirac.cc:112-120 | claims the first free river, or passes when none is free |
| GreedyPunterMirac.BeatsTrans | punter/greedy_punter_mirac.cc:97-99 | the test that replaces the best is transitive |
| GreedyPunterMirac.RowKeeps | punter/greedy_punter_mirac.cc:91-106 | whatever beats the best after a site's mines beats the best before them |
| GreedyPunterMirac.SitesKeeps | punter/greedy_punter_mirac.cc:90-107 | whatever beats the best after the sites beats the best before them |
| GreedyPunterMirac.RowCovers | punter/greedy_punter_mirac.cc:91-106 | after the inner loop no mine of the site beats the best |
| GreedyPunterMirac.SitesCovers | punter/greedy_punter_mirac.cc:90-107 | after the outer loop no site from any mine beats the best |
| GreedyPunterMirac.RowPicks | punter/greedy_punter_mirac.cc:91-106 | the inner loop keeps the best or replaces it with an eligible site |
| GreedyPunterMirac.SitesPicks | punter/greedy_punter_mirac.cc:90-107 | the outer loop keeps the best or replaces it with an eligible site |
| GreedyPunterMirac.TargetIsBest | punter/greedy_punter_mirac.cc:85-107 | no eligible site from any mine beats the target, and unless nothing was found the target is eligible |
| GreedyPunterMirac.ScoredIsEligible | punter/greedy_punter_mirac.cc:85-112 | a target with a score other than -1 is an eligible site, reached and with rivers left to claim |
| GreedyPunterMirac.SelectTarget | punter/greedy_punter_mirac.cc:85-107 | the two loops pick the best target |
| GreedyPunterMirac.Run | punter/greedy_punter_mirac.cc:37-136 | with no target the fallback move; otherwise a legal claim or option of the first river still to take on the cheapest route from the target's mine to the target, buying an option only while options are left |
| FuturePunter.BeatsTrans | punter/future_punter.cc:85-86 | the test that replaces a mine's best is transitive |
| FuturePunter.DownKeeps | punter/future_punter.cc:80-92 | whatever beats a mine's best after the sites beats the best before them |
| FuturePunter.DownCovers | punter/future_punter.cc:80-92 | after the loop no site of the mine beats its best |
| FuturePunter.DownPicks | punter/future_punter.cc:80-92 | the loop keeps the best or replaces it with an eligible site of that mine |
| FuturePunter.BestFor | punter/future_punter.cc:76-92 | no eligible site beats a mine's best, and the best is eligible unless there is none |
| FuturePunter.Candidate | punter/future_punter.cc:75-100 | corrected, a mine's candidate is its best site when it has one and no mine sits there, and no eligible site of the mine beats it |
| FuturePunter.CandidateAsWritten | punter/future_punter.cc:76-99 | as written, a mine's candidate is the corrected one, except that a mine with no eligible site also yields a candidate naming site -1 |
| FuturePunter.AsWrittenKeepsNoPick | punter/future_punter.cc:76-99 | as written, a mine with no eligible site yields a candidate naming site -1 and mine index -1 |
| FuturePunter.IsolatedMineColumn | punter/future_punter.cc:34-67 | on a board whose mine has no river the search reaches nothing but the mine |
| FuturePunter.IsolatedMineBetsOnNothing | punter/future_punter.cc:69-116 | as written, on that board the one future bet on names mine index -1 and site -1, while the corrected candidate list is empty |
| FuturePunter.Candidates | punter/future_punter.cc:75-100 | every candidate is an eligible site of its mine where no mine sits |
| FuturePunter.CandidatesComplete | punter/future_punter.cc:75-100 | every mine's candidate is among the candidates |
| FuturePunter.InsertByScore | punter/future_punter.cc:101-102 | inserting a candidate adds exactly it |
| FuturePunter.InsertKeepsDescending | punter/future_punter.cc:101-102 | inserting into a list sorted from the highest score down keeps it sorted |
| FuturePunter.SortByScore | punter/future_punter.cc:101-102 | the candidates rearranged from the highest score down |
| FuturePunter.Chosen | punter/future_punter.cc:104-111 | the futures added are the sorted candidates in order: all of them when aggressive, at most the first otherwise |
| FuturePunter.ChosenScoresMost | punter/future_punter.cc:69-111 | without aggression the one future bet on scores at least as much as every mine's candidate |
| FuturePunter.RowKeeps | punter/future_punter.cc:137-149 | whatever beats the best after a site's mines beats the best before them |
| FuturePunter.SitesKeeps | punter/future_punter.cc:136-150 | whatever beats the best after the sites beats the best before them |
| FuturePunter.RowCovers | punter/future_punter.cc:137-149 | after the inner loop no mine of the site beats the best |
| FuturePunter.SitesCovers | punter/future_punter.cc:136-150 | after the outer loop no site from any mine beats the best |
| FuturePunter.RowPicks | punter/future_punter.cc:137-149 | the inner loop keeps the best or replaces it with an eligible site |
| FuturePunter.SitesPicks | punter/future_punter.cc:136-150 | the outer loop keeps the best or replaces it with an eligible site |
| FuturePunter.Target | punter/future_punter.cc:131-150 | no eligible site from any mine beats the target, which is eligible unless there is none |
| FuturePunter.MineBest | punter/future_punter.cc:76-92 | the inner loop finds the mine's best site |
| FuturePunter.CollectCandidates | punter/future_punter.cc:72-100 | corrected, the loop over the mines collects each mine's candidate in mine order |
| FuturePunter.AddFutures | punter/future_punter.cc:104-111 | the futures gain the chosen candidates, after those already held |
| FuturePunter.SelectTarget | punter/future_punter.cc:132-150 | the two loops pick the target |
| FuturePunter.FuturesOnAppend | punter/future_punter.cc:104-111 | futures naming mines and sites of the board stay so when more such futures are added |
| FuturePunter.ChosenOn | punter/future_punter.cc:104-111 | futures chosen from candidates on the board name mines and sites of the board |
| FuturePunter.ChosenValid | punter/future_punter.cc:69-111 | the futures added name mines and sites of the board |
| FuturePunter.FutureRivers | punter/future_punter.cc:113-116 | each future becomes the pair of its mine's site and its target, in order |
| FuturePunter.RunMoveConnects | punter/future_punter.cc:123-127 | the first future still unconnected is the one connected towards |
| FuturePunter.FuturePunter.constructor | punter/future_punter.cc:31 | a fresh punter has no table and no futures |
| FuturePunter.FuturePunter.GenerateRiversToClaim | punter/future_punter.cc:34-67 | the table holds, per mine, the settled cheapest-route columns that cross only free rivers and our own |
| FuturePunter.FuturePunter.GetFuturesImpl | punter/future_punter.cc:69-117 | corrected, the futures gain the sorted candidates, the best one or all when aggressive, and every future is returned as its mine's site and its target |
| FuturePunter.FuturePunter.TryToConnect | punter/future_punter.cc:165-176 | the claim of the first river still to take on the cheapest route from the mine to the site |
| FuturePunter.FuturePunter.RunMirac | punter/future_punter.cc:131-163 | with no target the fallback move, otherwise the claim towards the best site over all mines |
| FuturePunter.FuturePunter.Run | punter/future_punter.cc:119-129 | the table afresh; the first future whose target still has rivers to claim is connected towards, and with none the move of `RunMirac` |
| Candidates.Entry | punter/jammer.cc:76-80 | a river's candidate carries its index and its score |
| Candidates.Listing | punter/jammer.cc:75-81 | the candidates of the free rivers in river order: exactly one entry per free river and nothing else |
| Candidates.InsertDown | punter/jammer.cc:82-83 | inserting into a list sorted from the highest score down keeps it sorted and adds exactly the candidate |
| Candidates.InsertDownStep | punter/jammer.cc:82-83 | inserting after a head that scores more keeps the list sorted and adds exactly the candidate |
| Candidates.SortCandidates | punter/jammer.cc:82-83 | the sort leaves the same candidates ordered from the highest score down |
| Candidates.RankedEntry | punter/greedy_to_jam.cc:120-137 | every entry of a ranked list is the candidate of a free river |
| Candidates.RankedHas | punter/greedy_to_jam.cc:120-137 | every free river has its candidate in a ranked list |
| Candidates.RankedEmpty | punter/greedy_to_jam.cc:97-100 | a ranked list is empty exactly when no river is free |
| Candidates.RankedFirst | punter/greedy_to_jam.cc:109-111 | the head of a ranked list is a free river of the highest score |
| Candidates.TwoCopies | punter/jammer.cc:82-83 | an element found at two positions counts at least twice |
| Candidates.ListingOnce | punter/jammer.cc:75-81 | a listing holds each candidate at most once |
| Candidates.IndexedOnce | punter/jammer.cc:75-81 | a list with strictly increasing river indices holds each candidate at most once |
| Candidates.RankedTwo | punter/greedy_to_jam.cc:84 | a ranked list has a second entry exactly when two or more rivers are free |
| Candidates.RankedSecond | punter/greedy_to_jam.cc:84-86 | the second entry is another free river, of the highest score once the head's river is set aside |
| Candidates.RankedTopTwo | punter/greedy_to_jam.cc:84-91 | the first two entries are a best river and a best other river |
| Rivals.Others | punter/greedy_to_jam.cc:61-67 | the (score, id) pairs of every punter but `me`, in id order, and nothing else |
| Rivals.OthersNext | punter/greedy_to_jam.cc:63-67 | one more punter appends its pair unless it is `me` |
| Rivals.CollectRivals | punter/greedy_to_jam.cc:62-67 | the loop gathers the other punters' pairs in id order |
| Rivals.Best | punter/greedy_to_jam.cc:68-72 | the largest pair in `std::pair` order, which is one of the list |
| Rivals.Without | punter/greedy_to_jam.cc:68-75 | the list with every copy of one pair removed and the rest kept |
| Rivals.WithoutCounts | punter/greedy_to_jam.cc:68-75 | removing a pair drops its every copy and keeps the counts of the rest |
| Rivals.IncreasingOnce | punter/greedy_to_jam.cc:62-67 | a list of increasing ids holds each pair at most once |
| Rivals.SortedLast | punter/greedy_to_jam.cc:68-72 | the last pair of any sorted arrangement is the best pair |
| Rivals.PickRival | punter/greedy_to_jam.cc:68-76 | after the sort, the last pair's id when it trails this punter's score or stands alone, else the id before it |
| Rivals.SortedRunnerUp | punter/greedy_to_jam.cc:68-76 | the second-last pair of the sorted rivals is the best of the rest once the best is set aside |
| Rivals.InOthers | punter/greedy_to_jam.cc:63-67 | a listed pair is another punter's score and id |
| Rivals.BestRanksFirst | punter/greedy_to_jam.cc:68-72 | the best pair belongs to another punter ranked first among the others |
| Rivals.NextRanksSecond | punter/greedy_to_jam.cc:73-75 | once the best is set aside, the best of the rest is another punter ranked second |
| Rivals.RivalRanks | punter/greedy_to_jam.cc:61-76 | the rival is another punter, there is none only when this punter plays alone, and it ranks first among the others when that one trails this punter or is alone, second otherwise |
| ThemapReplay.ClaimedNodes | punter/gamemapforai.cc:111-159 | corrected, every node once the claim's gains are flagged |
| ThemapReplay.AfterClaim | punter/gamemapforai.cc:94-97 | corrected, the state after a claim keeps its shape and is the one `claim` leaves |
| ThemapReplay.ClaimedUnique | punter/gamemapforai.cc:94-97 | a claim leaves exactly one state behind |
| ThemapReplay.Nodes | punter/greedy_to_jam.cc:46-53 | the node index of each site of a route, in order |
| ThemapReplay.ClaimPath | punter/greedy_to_jam.cc:46-53 | claiming each consecutive pair of a path keeps the map's shape |
| ThemapReplay.Replayed | punter/greedy_to_jam.cc:34-55 | replaying the moves in order keeps the map's shape |
| ThemapReplay.ReplayAppend | punter/greedy_to_jam.cc:34-55 | replaying two batches one after the other is replaying them joined |
| ThemapReplay.ClaimsOf | punter/greedy_to_jam.cc:45-54 | the claims of a route's consecutive pairs, in order |
| ThemapReplay.ClaimsResolve | punter/greedy_to_jam.cc:45-54 | the claims of a route of known sites name known sites |
| ThemapReplay.ClaimsOfTail | punter/greedy_to_jam.cc:49-53 | a route's claims are that of its first pair, then those of the rest |
| ThemapReplay.ClaimPathStep | punter/greedy_to_jam.cc:49-53 | claiming a path is claiming its first pair and then the rest |
| ThemapReplay.SplurgeIsClaims | punter/greedy_to_jam.cc:45-54 | a replayed splurge changes the map as the claims of its consecutive pairs would |
| ThemapReplay.SplurgeMoveIsClaims | punter/greedy_to_jam.cc:45-54 | a splurge move replays as the claims of its route's consecutive pairs, in order |
| ThemapReplay.ClaimRoute | punter/greedy_to_jam.cc:46-53 | corrected, the splurge loop claims each consecutive pair of the route in turn |
| ThemapReplay.Replay | punter/greedy_to_jam.cc:34-55 | corrected, the replay loop leaves the map in the replayed state |
| ThemapReplay.Uncoloured | punter/greedy_to_jam.cc:123-125 | which edges are still uncoloured |
| ThemapReplay.EdgeEnds | punter/greedy_to_jam.cc:124-127 | the two node indices of every edge |
| ThemapReplay.Gains | punter/greedy_to_jam.cc:126 | corrected, what claiming each edge would add to the punter's score |
| ThemapReplay.ScoreUncoloured | punter/greedy_punter_chun.cc:46-52 | corrected, every uncoloured edge in edge order with its gain, and the map unchanged |
| ThemapReplay.SquareSumNonNegative | punter/gamemapforai.cc:145-148 | a sum of squared distances is never negative |
| ThemapReplay.ClaimGainNonNegative | punter/gamemapforai.cc:111-159 | what a claim adds is never negative |
| ThemapReplay.GainsNonNegative | punter/gamemapforai.cc:99-102 | no edge's claim lowers a score |
| GreedyToJam.ClaimOf | punter/greedy_to_jam.cc:113-117 | the claim of an edge, by this punter, named by its sites' ids |
| GreedyToJam.AttackFound | punter/greedy_to_jam.cc:84-92 | with two or more candidates for the rival the attack is the head's edge, and the damage the head's gain less the second's plus what the edge brings this punter |
| GreedyToJam.HeadFits | punter/greedy_to_jam.cc:85-91 | the head's ends are nodes of the map |
| GreedyToJam.NoAttack | punter/greedy_to_jam.cc:80-93 | with fewer than two candidates for the rival there is no attack and no damage |
| GreedyToJam.GreedyToJam.constructor | punter/greedy_to_jam.cc:13-15 | a fresh punter holds an empty map |
| GreedyToJam.GreedyToJam.SetUp | punter/greedy_to_jam.cc:19-22 | corrected, `init` on the map with one zero score per punter, then the base's set-up |
| GreedyToJam.GreedyToJam.RunWithoutMoves | punter/greedy_to_jam.cc:24-27 | `Run()` without moves passes, naming punter 0 |
| GreedyToJam.GreedyToJam.ListCandidates | punter/greedy_to_jam.cc:120-137 | corrected, the uncoloured edges scored for the punter, highest first, with the map unchanged |
| GreedyToJam.GreedyToJam.Attack | punter/greedy_to_jam.cc:80-93 | corrected, with two or more uncoloured edges the rival's best edge and the damage of taking it, otherwise no damage |
| GreedyToJam.GreedyToJam.Run | punter/greedy_to_jam.cc:28-118 | corrected, the batch is replayed; there is no rival only when this punter plays alone; it passes exactly when no edge is uncoloured, and otherwise claims the rival's best edge when the damage exceeds its own best gain and its own best edge when not |
| GreedyToJam.GreedyToJam.GetState | punter/greedy_to_jam.cc:152-161 | the base's state plus the map's serialization |
| GreedyToJam.GreedyToJam.SetState | punter/greedy_to_jam.cc:139-150 | corrected, `SetState` succeeds exactly when the map's tokens and the base's entries can be read, and then holds what was read |
| Jammer.Free | punter/jammer.cc:76-77 | which rivers nobody owns |
| Jammer.RiverEnds | punter/jammer.cc:78-79 | the two site ids of every river |
| Jammer.KnownAt | punter/jammer.cc:76-80 | a river of a list of known rivers has both ends among the known sites |
| Jammer.Totals | punter/jammer.cc:76-80 | one total per river, what `TryClaim` reports for it |
| Jammer.TotalAt | punter/jammer.cc:78 | a river's entry is the score once its ends are joined |
| Jammer.JoinedTotalIsScoreWhenJoined | common/scorer.cc:275-290 | claiming a river inside one component leaves the score as it is |
| Jammer.ScoresOf | punter/jammer.cc:16 | one score per punter |
| Jammer.ScoreOfPart | punter/jammer.cc:16 | each punter's entry is the score of its partition |
| Jammer.ScoresOn | punter/jammer.cc:14-18 | every punter's score on a board |
| Jammer.TotalsOn | punter/jammer.cc:76-80 | what `TryClaim` reports for a punter on each river |
| Jammer.ClaimAt | punter/jammer.cc:55-68 | the claim this punter makes of a river's ends |
| Jammer.AttackFound | punter/jammer.cc:35-46 | with two or more candidates for the rival the attack is the head's river, and the damage the head's total less the second's plus this punter's total once it takes it |
| Jammer.HeadIn | punter/jammer.cc:38 | the head of a ranked list is one of the rivers |
| Jammer.NoAttack | punter/jammer.cc:33-46 | with fewer than two candidates for the rival there is no attack and no damage |
| Jammer.ScoredOn | punter/jammer.cc:71-86 | the free flags, totals and ends of a board's rivers line up |
| Jammer.TurnChosen | punter/jammer.cc:11-69 | the rival, the attack and the choice together give the turn `Run` promises |
| Jammer.Choose | punter/jammer.cc:50-68 | a pass when there is no candidate; otherwise the rival's best river when the damage beats the head candidate's score, and the head's river when not |
| Jammer.RivalChosen | punter/jammer.cc:12-27 | the rival is another punter, and there is none only when this punter plays alone |
| Jammer.Jammer.constructor | punter/jammer.cc:8 | the punter holds the ids, rivers and scorer its set-up gives it |
| Jammer.Jammer.Holds | punter/jammer.cc:11-86 | a board the punter holds fits it and has its rivers and punter count |
| Jammer.Jammer.Current | punter/jammer.cc:11-86 | the board the punter holds |
| Jammer.Jammer.GetScore | punter/jammer.cc:16 | a punter's score on the board, which stays as it was |
| Jammer.Jammer.TryClaimRiver | punter/jammer.cc:78 | a punter's total after claiming the river, with the board unchanged |
| Jammer.Jammer.AddRival | punter/jammer.cc:15-17 | one turn of the rival loop appends the punter's pair unless it is this punter |
| Jammer.Jammer.RivalPairs | punter/jammer.cc:13-18 | the loop gathers the other punters' pairs in id order |
| Jammer.Jammer.AddCandidate | punter/jammer.cc:77-80 | one turn of the candidate loop adds a free river's candidate |
| Jammer.Jammer.ListDeltas | punter/jammer.cc:75-81 | the free rivers scored for the punter, in river order |
| Jammer.Jammer.ListCandidates | punter/jammer.cc:71-86 | the free rivers scored by `TryClaim` for the punter, highest first |
| Jammer.Jammer.ChooseRival | punter/jammer.cc:12-27 | the rival picked from the sorted pairs, as the rivals' order says: another punter, and none only when this punter plays alone |
| Jammer.Jammer.Attack | punter/jammer.cc:33-46 | with two or more free rivers the rival's best river and the damage of taking it, otherwise no damage |
| Jammer.Jammer.AttackRival | punter/jammer.cc:33-46 | with a rival, the attack on it; without one, no damage and the empty candidate |
| Jammer.Jammer.Run | punter/jammer.cc:11-69 | it passes exactly when no river is free, and otherwise claims the rival's best river when the damage exceeds its own best total and its own best river when not |
| Benkei.SitesWellFormed | punter/benkei.cc:90-92 | the sites listed at each site are sites of the board |
| Benkei.Bfs | punter/benkei.cc:79-100 | the search visits exactly the sites reachable from the origin and leaves back pointers along shortest walks |
| Benkei.Expand | punter/benkei.cc:90-99 | every unvisited site listed at the popped site is visited, queued and pointed back at it |
| Benkei.Visit | punter/benkei.cc:91-98 | one entry: an unvisited site across it is visited, queued and pointed back across that river |
| Benkei.TreeChained | punter/benkei.cc:103-110 | following back pointers from any site goes one step closer to the origin each time, so the trace ends |
| Benkei.Path | punter/benkei.cc:104-109 | the rivers a trace crosses are rivers of the board |
| Benkei.PathIsShortest | punter/benkei.cc:79-110 | a trace crosses as many rivers as the site's shortest walk from the origin has steps, and none from a site out of reach |
| Benkei.Tally | punter/benkei.cc:107 | one count per river |
| Benkei.TallyCounts | punter/benkei.cc:103-110 | each river's count grows by the number of times it is crossed |
| Benkei.TallyAppend | punter/benkei.cc:103-110 | counting two runs of rivers is counting one, then the other |
| Benkei.Paths | punter/benkei.cc:103-110 | the traces from each target in turn cross only rivers of the board |
| Benkei.AddPaths | punter/benkei.cc:103-110 | the trace loop adds one to each river on the way back from each target |
| Benkei.FrequentPaths | punter/benkei.cc:75-113 | the check fails exactly when there is not one count per river; otherwise the search leaves a shortest-path tree and each target's trace is counted |
| Benkei.AllPaths | punter/benkei.cc:59-61 | the traces of every search, each from every target, cross only rivers of the board |
| Benkei.ForestAppend | punter/benkei.cc:59-61 | the search from the next mine extends the trees, and its traces follow the earlier ones |
| Benkei.Frequencies | punter/benkei.cc:54-61 | each river's count is the number of times it lies on the trace from some mine back to some mine's search origin |
| Benkei.CountsStep | punter/benkei.cc:59-61 | counting one more search's traces onto the earlier counts counts them all |
| Benkei.Threshold | punter/benkei.cc:63 | the cut-off `m(m-1)/4 + 1` is the least count above a quarter of the ordered pairs of distinct mines |
| Benkei.Chokepoints | punter/benkei.cc:65-70 | exactly the rivers whose count reaches the cut-off, in increasing order |
| Benkei.IsRiverClaimedBetween | punter/benkei.cc:33-44 | the check fails exactly when no river listed at the source joins it to the destination; otherwise whether the first such river is held |
| Benkei.Benkei.constructor | punter/benkei.cc:13 | a fresh punter has no chokepoints |
| Benkei.Benkei.SetUp | punter/benkei.cc:46-73 | the rivers whose count reaches the cut-off for the number of mines are appended to the chokepoints in increasing order |
| Benkei.Benkei.Run | punter/benkei.cc:16-27 | chokepoints are taken from the back and held ones dropped; the first free one is claimed, and with none left every chokepoint was held and the move is a legal one or the fallback |
| FriendlyPunter.AdjacencyOf | punter/friendly_punter.cc:61-67 | one list per site |
| FriendlyPunter.AdjacencyJoins | punter/friendly_punter.cc:61-67 | a site is listed at another exactly when a kept river joins the two, either way round |
| FriendlyPunter.AdjacencyWellFormed | punter/friendly_punter.cc:61-67 | the lists name only sites |
| FriendlyPunter.Adjacency | punter/friendly_punter.cc:61-67 | the loops push each kept river at both of its ends |
| FriendlyPunter.OwnWithinOwnOrFree | punter/friendly_punter.cc:123-131 | what our own rivers join, our own and free rivers together join too |
| FriendlyPunter.Dfs | punter/friendly_punter.cc:32-41 | the search marks the start and exactly the unmarked sites reachable from it without passing a marked site, and nothing else |
| FriendlyPunter.Dfs2 | punter/friendly_punter.cc:18-30 | the same search over the sites listed in either list |
| FriendlyPunter.Dfs2MarksReach | punter/friendly_punter.cc:18-30 | from nothing marked, the search over both lists marks exactly what the two lists together reach |
| FriendlyPunter.Values | punter/friendly_punter.cc:52-58 | the worth of a site to a mine is its squared distance from it |
| FriendlyPunter.CoveredByMines | punter/friendly_punter.cc:69-72 | a site is covered exactly when our own rivers join it to some mine |
| FriendlyPunter.Effects | punter/friendly_punter.cc:74-83 | a mine's effect is the summed worth to it of the sites our own rivers join it to |
| FriendlyPunter.LeastEffective | punter/friendly_punter.cc:85-93 | the first mine of least effect when that is below `INF`, -1 exactly when every effect is at least `INF` |
| FriendlyPunter.FreeAdjWellFormed | punter/friendly_punter.cc:109-119 | the sites across free rivers are sites of the board |
| FriendlyPunter.CountTrueHas | punter/friendly_punter.cc:101-104 | a marked site is counted |
| FriendlyPunter.SearchStart | punter/friendly_punter.cc:96-104 | with the component queued at distance 0 the search's state holds |
| FriendlyPunter.SearchPop | punter/friendly_punter.cc:105-108 | taking the head of the queue keeps the search's state with none of its entries handled |
| FriendlyPunter.ReachedVisit | punter/friendly_punter.cc:114-118 | a site visited across a free river is reachable from the component |
| FriendlyPunter.BoundedVisit | punter/friendly_punter.cc:116-117 | visiting one further keeps every visited site's distance bounded |
| FriendlyPunter.ParentedVisit | punter/friendly_punter.cc:114-118 | a site visited one further has a parent one closer across a free river |
| FriendlyPunter.SpreadVisit | punter/friendly_punter.cc:114-118 | visiting a site across a free river keeps the distances spread from the component |
| FriendlyPunter.QueueVisit | punter/friendly_punter.cc:114-118 | visiting a site queues it and closes that entry |
| FriendlyPunter.SeedQueue | punter/friendly_punter.cc:96-104 | the queue starts with the component's sites at distance 0, in site order, and every other site unreached |
| FriendlyPunter.SearchDone | punter/friendly_punter.cc:105-120 | with the queue empty the visited sites are exactly those the free rivers reach from the component |
| FriendlyPunter.SearchVisit | punter/friendly_punter.cc:109-119 | visiting a site keeps both the spread and the queue |
| FriendlyPunter.ClosedStep | punter/friendly_punter.cc:110-113 | an entry to a visited site or across a held river is closed as it is |
| FriendlyPunter.VisitEntry | punter/friendly_punter.cc:114-118 | an unvisited site across a free river is visited one further and queued |
| FriendlyPunter.ExpandEntry | punter/friendly_punter.cc:109-119 | one entry of the popped site is skipped or visited one further |
| FriendlyPunter.QueueClose | punter/friendly_punter.cc:109-119 | once every entry is handled the popped site is closed |
| FriendlyPunter.ExpandFree | punter/friendly_punter.cc:109-119 | every unvisited site across a free river of the popped site goes one further |
| FriendlyPunter.FreeSearch | punter/friendly_punter.cc:95-120 | the search visits exactly the sites the free rivers reach from the component, each at a distance one more than a parent across a free river |
| FriendlyPunter.SpreadIsGraded | punter/friendly_punter.cc:105-120 | every visited site outside the component has a free river down one step |
| FriendlyPunter.StepsExtend | punter/friendly_punter.cc:174-185 | one more step down keeps the walk going down |
| FriendlyPunter.FirstDescent | punter/friendly_punter.cc:174-185 | the first entry across a free river to a site one closer, or -1 exactly when there is none |
| FriendlyPunter.WalkBack | punter/friendly_punter.cc:169-186 | the walk spins exactly when the target was never reached, and otherwise goes down one step per free river until the component |
| FriendlyPunter.SiteValues | punter/friendly_punter.cc:133-154 | each site's value, as the worth, cover and free neighbours give it |
| FriendlyPunter.BestTarget | punter/friendly_punter.cc:156-164 | the first site of largest value, or -1 exactly when every value is negative |
| FriendlyPunter.ClaimLegal | punter/friendly_punter.cc:190-193 | the last pair of the walk crosses a free river, so claiming it is legal |
| FriendlyPunter.Component | punter/friendly_punter.cc:98-99 | one search on fresh marks marks exactly the sites reachable from the start |
| FriendlyPunter.ChooseMine | punter/friendly_punter.cc:48-93 | the worth table, our own rivers, the covered sites, and the least effective mine, -1 exactly when no effect is below `INF` |
| FriendlyPunter.Survey | punter/friendly_punter.cc:95-154 | from the least effective mine: its component, the free search, what our own and free rivers reach, and every site's value |
| FriendlyPunter.Move | punter/friendly_punter.cc:166-193 | a best value of 0 passes; a target never reached spins; any other target claims the free river entering the component on its way down |
| FriendlyPunter.Run | punter/friendly_punter.cc:48-194 | no move exactly when no mine's effect is below `INF`; otherwise the first target of largest value, passing on 0, spinning on a target never reached, and else claiming the river that enters the least effective mine's component |
| SimulatingPunter.RivalScore | punter/simulating_punter.cc:75-79 | the highest score of the other punters, or 0 when that is higher: at least 0 and every other score, and attained unless 0 |
| SimulatingPunter.Total | punter/simulating_punter.cc:74-81 | a snapshot's worth is our score less the best rival's: no more than our score, nor than our lead over any rival, and equal to one of those |
| SimulatingPunter.TotalScore | punter/simulating_punter.cc:74-81 | the loop computes that worth |
| SimulatingPunter.SnapshotKeys | punter/simulating_punter.cc:83-93 | with the key made unambiguous, two snapshots share a key exactly when they hold the same moves in whatever order |
| SimulatingPunter.ClaimRiver | punter/simulating_punter.cc:111-115 | our claim of a river names its two ends, the smaller first |
| SimulatingPunter.First | punter/simulating_punter.cc:96-102 | the first snapshot filed under a key is one of the list with that key |
| SimulatingPunter.FirstIsEarliest | punter/simulating_punter.cc:97-102 | it is the earliest snapshot with that key |
| SimulatingPunter.KeySetSnoc | punter/simulating_punter.cc:97-102 | one more snapshot adds its key |
| SimulatingPunter.FirstAt | punter/simulating_punter.cc:98-101 | a snapshot whose key no earlier one has is the first under it |
| SimulatingPunter.AppendFirst | punter/simulating_punter.cc:103-107 | one more first snapshot under a new key keeps the keys distinct and the entries first |
| SimulatingPunter.FileFirsts | punter/simulating_punter.cc:96-102 | the map holds exactly the keys, each with its first snapshot |
| SimulatingPunter.UniqifyByMove | punter/simulating_punter.cc:95-109 | corrected, the result holds, in some order, exactly the first snapshot under each key |
| SimulatingPunter.InsertUp | punter/simulating_punter.cc:181-183 | inserting into a list sorted by worth keeps it sorted and adds exactly the snapshot |
| SimulatingPunter.InsertUpStep | punter/simulating_punter.cc:181-183 | inserting after a head worth less keeps the list sorted and adds exactly the snapshot |
| SimulatingPunter.SortByTotal | punter/simulating_punter.cc:181-183 | the same snapshots from the lowest worth up |
| SimulatingPunter.Reversed | punter/simulating_punter.cc:184 | the list back to front, so a list sorted upward comes out sorted downward |
| SimulatingPunter.ReversedSame | punter/simulating_punter.cc:184 | reversing keeps the same snapshots |
| SimulatingPunter.DistinctOnce | punter/simulating_punter.cc:95-109 | with distinct keys each snapshot appears at most once |
| SimulatingPunter.Rearranged | punter/simulating_punter.cc:180-184 | rearranging the first snapshots keeps them the first snapshots |
| SimulatingPunter.DistinctCount | punter/simulating_punter.cc:103-107 | with distinct keys there are as many keys as snapshots |
| SimulatingPunter.CutBelow | punter/simulating_punter.cc:185-187 | every key dropped by the cut has a first snapshot worth no more than those kept |
| SimulatingPunter.KeptKeys | punter/simulating_punter.cc:185-187 | every snapshot kept by the cut keeps its key |
| SimulatingPunter.TopOfDescending | punter/simulating_punter.cc:184-187 | cutting a list sorted downward to the width leaves the top snapshots |
| SimulatingPunter.ShrinkToTop | punter/simulating_punter.cc:178-188 | corrected, at most ten first snapshots, one per key, worth at least as much as every first snapshot dropped, from the highest worth down |
| SimulatingPunter.Round | punter/simulating_punter.cc:163-170 | a round opens with our claim, then each next punter's move in turn |
| SimulatingPunter.PlayRound | punter/simulating_punter.cc:162-170 | the loop plays one whole round on a shadow |
| SimulatingPunter.Children | punter/simulating_punter.cc:159-175 | one child per free river, in river order, each the parent's moves followed by a round opening with our claim of that river |
| SimulatingPunter.ChildrenNext | punter/simulating_punter.cc:159-175 | one river more adds its child when it is free |
| SimulatingPunter.GenerateNextSnapshots | punter/simulating_punter.cc:151-176 | the children of the snapshot are appended to those collected |
| SimulatingPunter.ExpansionEmpty | punter/simulating_punter.cc:131-138 | a beam expands to nothing exactly when it is empty or no river is free |
| SimulatingPunter.ExpansionGrows | punter/simulating_punter.cc:131-134 | every snapshot of an expansion grows one of the beam's |
| SimulatingPunter.GrownHead | punter/simulating_punter.cc:163-174 | a grown snapshot opens with our claim when its parent does or has no moves |
| SimulatingPunter.ExpandBeam | punter/simulating_punter.cc:131-134 | every snapshot's children, in beam order |
| SimulatingPunter.NextBeam | punter/simulating_punter.cc:135-140 | the top of a beam's expansion is the next beam |
| SimulatingPunter.BeamHead | punter/simulating_punter.cc:129-142 | after a step the beam's head opens with our claim of a free river |
| SimulatingPunter.Run | punter/simulating_punter.cc:127-143 | corrected, ten steps when some river is free and none otherwise; the move is the first of the head snapshot, our claim of a free river, and there is none exactly when no river is free |
| MetaPunter.CountPositive | punter/meta_punter.cc:87-90 | a punter is counted in the turn's tally exactly when it made one of the turn's moves |
| MetaPunter.MostOver | punter/meta_punter.cc:91-94 | the largest count over the listed punters: at least each of theirs, one of them when the list is not empty, 0 when it is |
| MetaPunter.MostMovesAttained | punter/meta_punter.cc:87-94 | the most moves by one punter is 0 exactly when there are no moves, bounds every punter's count and is some punter's count |
| MetaPunter.Largest | punter/meta_punter.cc:91-94 | the loop finds a count at least every count in the tally and equal to one of them, 0 for an empty tally |
| MetaPunter.MaxMovesByOnePunter | punter/meta_punter.cc:87-94 | the two loops compute the most moves made by one punter this turn |
| MetaPunter.Backoff | punter/meta_punter.cc:96-103 | with no extra move the limit is kept; otherwise it is cut by 100 ms per extra move but not below 100 ms, so it shrinks strictly unless already at the floor |
| MetaPunter.BackoffKeepsRange | punter/meta_punter.cc:96-103 | a limit between 100 and 800 ms stays there and never grows |
| MetaPunter.BackoffMonotone | punter/meta_punter.cc:96-103 | more extra moves never leave a longer limit |
| MetaPunter.BackoffFloor | punter/meta_punter.cc:96-103 | seven or more extra moves bring a limit of at most 800 ms down to the 100 ms floor |
| MetaPunter.LimitsDescend | punter/meta_punter.cc:76-103 | from set-up on, turn after turn, the limit stays between 100 and 800 ms and never grows |
| MetaPunter.MovesJson | punter/meta_punter.cc:173 | a move list is written exactly when none of its moves is an option, each element the move's own writing |
| MetaPunter.ReadIsCanonical | punter/meta_punter.cc:140-155 | every move read back from JSON is in canonical form |
| MetaPunter.CanonicalRoundTrip | punter/meta_punter.cc:155-173 | a canonical move is written and read back unchanged |
| MetaPunter.ReadsEach | punter/meta_punter.cc:155 | a list whose every element reads as the matching element reads as the whole list |
| MetaPunter.MovesReadBack | punter/meta_punter.cc:155-173 | each move of a canonical history is written and reads back as itself |
| MetaPunter.MovesRoundTrip | punter/meta_punter.cc:148-176 | the history saved by `GetState` is read back unchanged by `SetState` |
| MetaPunter.StateJson | punter/meta_punter.cc:161-176 | the saved state holds exactly the primary's and backup's states, the history and the limit, and is written exactly when the history is |
| MetaPunter.StateOf | punter/meta_punter.cc:148-159 | the state read has the primary's, the backup's, the history and the limit as found under their keys; anything missing is fatal |
| MetaPunter.StateRoundTrip | punter/meta_punter.cc:148-176 | a state saved with a canonical history is read back exactly |
| MetaPunter.TakeState | punter/meta_punter.cc:67-68 | a worker's reply with its state taken out: that state and every other entry unchanged; fatal exactly when there is no state |
| MetaPunter.MetaPunter.constructor | punter/meta_punter.cc:39 | no futures, no worker states, no history |
| MetaPunter.MetaPunter.SetUp | punter/meta_punter.cc:56-77 | both workers' states taken from their replies, futures taken from the primary's reply when it has them, the limit set to 800 ms; a reply without a state is fatal |
| MetaPunter.MetaPunter.Run | punter/meta_punter.cc:83-141 | the limit backs off by this turn's extra moves; the primary gets all moves it has missed with the limit, the backup only this turn's; the primary's move is played if it answered in time, clearing the history, else the backup's, keeping the history |
| MetaPunter.MetaPunter.GetState | punter/meta_punter.cc:161-176 | both workers' states, the history and the limit; when not persistent the workers' states are handed out and gone |
| MetaPunter.MetaPunter.SetState | punter/meta_punter.cc:148-159 | the workers' states, the history and the limit become those read; fatal when one is missing |
| PunterFactory.NamesDiffer | punter/punter_factory.cc:25-62 | no two punter classes are built under the same name |
| PunterFactory.Find | punter/punter_factory.cc:24-66 | the class found carries the name asked for, and the lookup fails exactly when no class has that name |
| PunterFactory.PunterByName | punter/punter_factory.cc:24-66 | a name is built into the class of that name; any other name is fatal |
| PunterFactory.FindsOwnName | punter/punter_factory.cc:24-66 | a class whose name no other class shares is found by that name |
| PunterFactory.Registered | punter/punter_factory.cc:25-62 | every punter class is among those the names are tried against |
| PunterFactory.NamesBuild | punter/punter_factory.cc:24-66 | every class is built from its own name, so the factory accepts exactly the classes' names |
| PunterFactory.ChooseBenkeiOrJam | punter/punter_factory.cc:101-106 | the jammer exactly in a two-punter game on fewer than 100 sites, Benkei otherwise |
| PunterFactory.ChooseMiracOrJamOrFriendly | punter/punter_factory.cc:108-115 | the friendly punter exactly on maps of at least 800 sites and 8 mines; else the jammer exactly in a small duel; else the mirac greedy punter |
| PunterFactory.ChooseMiracOrJamOrFriendlyOrFuture | punter/punter_factory.cc:117-129 | as the rule before, except that a small duel with futures on picks the future punter |
| PunterFactory.FutureVariant | punter/punter_factory.cc:108-129 | the two rules agree except on small duels with futures on, where the jammer gives way to the future punter |
| PunterFactory.ChoicesBuild | punter/punter_factory.cc:73-77 | every rule picks a name the factory builds, and never another switching punter |
| PunterFactory.StateOut | punter/punter_factory.cc:95-99 | the core's state with "core" set to the core's name and every other entry kept; fatal when the core's state is not a dictionary |
| PunterFactory.StateIn | punter/punter_factory.cc:88-93 | a state is read only when it has a string "core" naming a buildable class that is not itself a switching punter, and the class is the one that name builds |
| PunterFactory.StateRoundTrip | punter/punter_factory.cc:88-99 | a state written out is read back with the same name and class, the dictionary handed on whole |
| PunterFactory.SwitchingPunter.constructor | punter/punter_factory.cc:69-70 | the rule is kept and there is no core yet |
| PunterFactory.SwitchingPunter.SetUp | punter/punter_factory.cc:73-77 | the name is the one the rule picks, and the core is the class built from it |
| PunterFactory.SwitchingPunter.GetState | punter/punter_factory.cc:95-99 | without a core the call fails; otherwise the core's state tagged with its name |
| PunterFactory.SwitchingPunter.SetState | punter/punter_factory.cc:88-93 | on success the name, the class and the core's state are those read; on failure nothing changes |

## Left out

- Sockets, asyncio loops, threads, the referee's lock (arena/arena.py:65-70 returns without releasing it), `call_later` timers and subprocesses. A player's handler is told of its prompts and timeouts by method calls.
- The offline referee's processes and pipes. What a read from a player's output yields is a parameter. A reader that waits for input that never comes is the outcome `Spinning`, standing for a hang. The reader's state is kept across the processes of one player, as the source does.
- JSON text parsing and writing, protobuf, and base64 (punter/quick_punter.cc:85-108). Values are an abstract JSON tree, and QuickPunter's state is the protobuf's fields.
- Process start-up, stdin/stdout framing (framework/game.cc, common/protocol.cc, stadium/local_punter.cc), and MetaPunter's worker spawning. The workers are functions from request to reply, and the primary's time-out is a reply of `None`.
- The viewer's rendering and UI: canvas drawing, colours, coordinates, DOM state, `FileReader`, the autoplay timer and `JSON.parse`.
- `computeScore` and `computeScoreRec` in visualizer/main.js:184-210. They are never called, and they duplicate `Scorer`.
- Randomness and floating point. LazyPunter and RandomPunter are not part of this model. Neither are `FriendlyPunter::ComputeReachability` and `Evaluate`, or the dashboard's averages, "best" flags and times. `random.shuffle` is an arbitrary permutation.
- The database, bottle, git, the settings file and the clock in the lambdapark scripts. Settings and reports enter as values. `insert_many` of an empty job list is not modelled as an error.
- The evaluator's match itself: its outcome is a parameter. `run_arena` and `run_stadium` are not part of this model.
- The `SimplePunter` variant that holds `edges_`, `dist_to_mine` and `num_sites` for the graph players is not shipped. Its tables are read-only inputs: a `Board` value and a `dist` function.
- The shadow player and score simulation of `SimulatingPunter` are not part of this model. They enter as the functions of a `Sim`. The `unordered_map` iteration order in `UniqifyByMove` is any order.
- `std::sort`'s order among equal keys. Sorted results are specified up to permutation, or through their head and runner-up.
- Integer widths. Sizes, ids and scores are unbounded integers, so 32-bit overflow of the C++ `int` (cubes of long distances in futures, sums of squares) is not modelled.
- `SwitchingPunter::Run` and `GetFutures` only forward to the core, and punter/switching_punter.cc is an older copy of the same class. Neither is modelled beyond the core's name and state.
- `PunterFactory.PunterByName`: the literal chain of 19 name tests is modelled as a registry scanned in the same order. The first match wins, as in the chain.
- `PunterFactory.SwitchingPunter.SetUp`: the core's own set-up is not run; the state it leaves is a parameter.
- `GameMapForAi.GameMapForAI.Init`: requires every river end and mine to be a listed site, where `id2ix.at` would abort. Ids left in `id2ix` by an earlier map are not relied on.
- `GameMapForAi.GameMapForAI.FromMap`: requires every river end and mine to be a listed site, as `Init` does.
- `GameMapForAi.GameMapForAI.InitCore`: the same precondition as `Init`.
- `GameMapForAi.GameMapForAI.Deserialize`: requires a map with no adjacency lists yet, because `deserialize` appends to the lists it finds. On malformed input the fields are left as they were; the stream would leave them partly overwritten.
- `GreedyPunterChun.GreedyPunterChun.SetState`: requires a fresh map, as `Deserialize` does.
- `GreedyToJam.GreedyToJam.SetState`: requires a fresh map, as `Deserialize` does.
- `GreedyPunterChun.GreedyPunterChun.Run`: requires every site id of the turn's claims to be known to `id2ix`, where `at` would abort.
- `GreedyToJam.GreedyToJam.Run`: requires every site id of the turn's claims and splurges to be known to `id2ix`, where `at` would abort.
- `ThemapReplay.Replay`: the same precondition on site ids.
- `CommonScorer.Scorer.Initialize`: requires every river end and mine to be a listed site, which `GetIndex` only `DCHECK`s.
- `StadiumScorer.Scorer.Initialize`: the same precondition as the engine-side scorer.
- `UnionFind.UnionFindSet.AddFuture`: requires the mine's cell to be 0, which the source `DCHECK`s.
- `StubPunter.StubPunter.OnTurn`: requires a river to be left, since the source takes `begin()` of the set, which is undefined when the set is empty.
- `FriendlyPunter.Run`: requires twin entries for every river in the adjacency lists, and fewer sites than `INF`. A target with no way back makes the source loop forever; this is the error `Spins`.
- `Benkei.Benkei.Run`: requires the chokepoint list to hold river indices, as `SetUp` leaves it.
- `FuturePunter.SortByScore`: keeps equal scores in their order, which is one of the orders `std::sort` may produce.
- `GreedyPunter.GreedyPunter.Run` takes the distance table as a parameter, because the base class that computes it is not shipped.
- `GreedyPunterMirac.Run`: when two entries tie on cost the queue pops the larger site first. `std::priority_queue` leaves the order of such ties to its implementation.
- `Continuous.Schedule`: requires the continuous punters' names to be distinct. With a repeated name, one round could seat the same punter twice.
- GameMapForAi.ClaimMine: follows the correction (the start node marked, so each node counts once); the code at punter/gamemapforai.cc:116-157 behaves as written (see "## Findings").
- GameMapForAi.ClaimStep: follows the correction (each mine's own gain added once); the code at punter/gamemapforai.cc:111-159 behaves as written (see "## Findings").
- GameMapForAi.ClaimMines: follows the correction (the total is the sum of the mines' gains, not a running total); the code at punter/gamemapforai.cc:111-159 behaves as written (see "## Findings").
- GameMapForAi.GameMapForAI.ClaimImpl: uses the corrected `claim_impl`, which marks the search's start and grows the score by the claim's worth; the code at punter/gamemapforai.cc:104-176 behaves as written (see "## Findings").
- GameMapForAi.GameMapForAI.Claim: uses the corrected `claim_impl`, which marks the search's start and grows the score by the claim's worth; the code at punter/gamemapforai.cc:94-97 behaves as written (see "## Findings").
- GameMapForAi.GameMapForAI.DeltaScore: uses the corrected `claim_impl`, which marks the search's start and grows the score by the claim's worth; the code at punter/gamemapforai.cc:99-102 behaves as written (see "## Findings").
- GameMapForAi.GameMapForAI.FromMap: uses the corrected `init`, which gives every punter a zero score; the code at punter/gamemapforai.cc:11-15 behaves as written (see "## Findings").
- ThemapReplay.AfterClaim: uses the corrected `claim_impl`, which marks the search's start and grows the score by the claim's worth; the code at punter/gamemapforai.cc:94-97 behaves as written (see "## Findings").
- ThemapReplay.ClaimedNodes: follows the correction (the start node marked, so each node counts once); the code at punter/gamemapforai.cc:111-159 behaves as written (see "## Findings").
- ThemapReplay.ClaimRoute: uses the corrected `claim_impl`, which marks the search's start and grows the score by the claim's worth; the code at punter/greedy_to_jam.cc:46-53 behaves as written (see "## Findings").
- ThemapReplay.Replay: uses the corrected `claim_impl`, which marks the search's start and grows the score by the claim's worth; the code at punter/greedy_to_jam.cc:34-55 behaves as written (see "## Findings").
- ThemapReplay.Gains: uses the corrected `claim_impl`, which marks the search's start and grows the score by the claim's worth; the code at punter/greedy_to_jam.cc:126 behaves as written (see "## Findings").
- ThemapReplay.ScoreUncoloured: uses the corrected `claim_impl`, which marks the search's start and grows the score by the claim's worth; the code at punter/greedy_punter_chun.cc:46-52 behaves as written (see "## Findings").
- GreedyPunterChun.GreedyPunterChun.SetUp: uses the corrected `init`, which gives every punter a zero score; the code at punter/greedy_punter_chun.cc:18-21 behaves as written (see "## Findings").
- GreedyPunterChun.GreedyPunterChun.Run: uses the corrected `claim_impl`, which marks the search's start and grows the score by the claim's worth; the code at punter/greedy_punter_chun.cc:27-65 behaves as written (see "## Findings").
- GreedyPunterChun.GreedyPunterChun.SetState: uses the corrected `deserialize`, which reads the distances in the order `serialize` writes them; the code at punter/greedy_punter_chun.cc:67-78 behaves as written (see "## Findings").
- GreedyToJam.GreedyToJam.SetUp: uses the corrected `init`, which gives every punter a zero score; the code at punter/greedy_to_jam.cc:19-22 behaves as written (see "## Findings").
- GreedyToJam.GreedyToJam.SetState: uses the corrected `deserialize`, which reads the distances in the order `serialize` writes them; the code at punter/greedy_to_jam.cc:139-150 behaves as written (see "## Findings").
- GreedyToJam.GreedyToJam.ListCandidates: uses the corrected `claim_impl`, which marks the search's start and grows the score by the claim's worth; the code at punter/greedy_to_jam.cc:120-137 behaves as written (see "## Findings").
- GreedyToJam.GreedyToJam.Attack: uses the corrected `claim_impl`, which marks the search's start and grows the score by the claim's worth; the code at punter/greedy_to_jam.cc:80-93 behaves as written (see "## Findings").
- GreedyToJam.GreedyToJam.Run: uses the corrected `init`, `claim_impl` and `deserialize`; the code at punter/greedy_to_jam.cc:28-118 behaves as written (see "## Findings").
- Arena.Handler.HandleMessage: follows the correction (a valid pass is reported as that punter's pass); the code at arena/arena.py:272-340 behaves as written (see "## Findings").
- OfflineArena.LengthCheck: follows the correction (a ':' first is refused as an empty length); the code at arena/offline_arena.py:330-341 behaves as written (see "## Findings").
- OfflineArena.FileEndpoint.Read: follows the correction (a ':' first is refused as an empty length); the code at arena/offline_arena.py:315-360 behaves as written (see "## Findings").
- OfflineArena.FileEndpoint.ScanChar: follows the correction (a ':' first is refused as an empty length); the code at arena/offline_arena.py:317-344 behaves as written (see "## Findings").
- SimulatingPunter.UniqifyByMove: follows the correction (keys separate the moves with ';'); the code at punter/simulating_punter.cc:95-109 behaves as written (see "## Findings").
- SimulatingPunter.ShrinkToTop: follows the correction (keys separate the moves with ';'); the code at punter/simulating_punter.cc:178-188 behaves as written (see "## Findings").
- SimulatingPunter.Run: follows the correction (keys separate the moves with ';'); the code at punter/simulating_punter.cc:127-143 behaves as written (see "## Findings").
- FuturePunter.CollectCandidates: follows the correction (a mine with nothing to reach yields no candidate); the code at punter/future_punter.cc:72-100 behaves as written (see "## Findings").
- FuturePunter.FuturePunter.GetFuturesImpl: follows the correction (a mine with nothing to reach yields no candidate); the code at punter/future_punter.cc:69-117 behaves as written (see "## Findings").
- CommonScorer.Scorer.IsConnected: requires both site ids to be listed sites, which `GetIndex` only `DCHECK`s.
- CommonScorer.Scorer.Claim: requires both ends of the river to be listed sites, which `GetIndex` only `DCHECK`s.
- CommonScorer.Scorer.TryClaim: requires both ends of the river to be listed sites, which `GetIndex` only `DCHECK`s.
- CommonScorer.Scorer.GetConnectedMineList: requires the site id to be a listed site, which `GetIndex` only `DCHECK`s.
- CommonScorer.Scorer.GetConnectedSiteList: requires the site id to be a listed site, which `GetIndex` only `DCHECK`s.
- CommonScorer.Scorer.AddFuture: requires every future's mine and target to be listed, which `GetIndex` only `DCHECK`s.
- StadiumScorer.Scorer.AddFuture: the same precondition on the futures' sites as the engine-side scorer.
- StadiumScorer.Scorer.Claim: requires both ends of the river to be listed sites, which `GetIndex` only `DCHECK`s.
- Viewer.GameMap.Load: requires every river end and mine to be a loaded site. An unknown river end (visualizer/main.js:67) or mine (visualizer/main.js:88, which reads the adjacency list of the `undefined` index that visualizer/main.js:44 kept) makes `precompute_` throw a TypeError.
- Benkei.Benkei.Run: once no chokepoint is left, the move is stated only to be legal or the fallback pass; what `GreedyPunterMirac.Run` promises about the move it picks is not restated here.
- `Arena.Handler`'s `_handle_error` (arena/arena.py:267-270) calls `set_zombie`, which no class defines, so it raises AttributeError. Errors are modelled as the handler's verdicts, and `_handle_error` itself is not part of this model.
- Dashboard.Initials: a report's extensions are a string. A report whose extensions are null would make `.split` raise at lambdapark/dashboard.py:70; that case is not modelled.
- PyBuiltins.IsSpace: only ASCII whitespace is recognised. Python's `int()` also strips Unicode spaces, which are not modelled.

## Findings

| source | as written | input that shows it | evidently intended | confidence | as-written member | corrected member |
|---|---|---|---|---|---|---|
| punter/simulating_punter.cc:67-71 | `MovesToKey` writes each move as "punter source target" and joins the moves with nothing between them | claims (0,1,12),(3,4,5) and (0,1,1),(23,4,5) both give "0 1 123 4 5" | two move lists share a key only when they hold the same moves | not executed | MoveKey.KeysCollide | MoveKey.KeySameExactly |
| arena/arena.py:301 | a valid pass is logged with `source` and `target`, which are not bound on that path | `{"pass": {"punter": 0}}` from player 0 raises instead of being reported | the pass is reported as that punter's pass | not executed | Arena.PassNeverReported | Arena.PassReported |
| arena/offline_arena.py:330-338 | `colon_pos` is one past the ':', so the test for a ':' at position 0 never fires | a reply that starts with ':' makes `int('')` raise, which stops the referee | a ':' first is refused as an empty length | not executed | OfflineArena.EmptyLengthRaises | OfflineArena.EmptyLengthRefused |
| visualizer/main.js:52-54 | `getSiteId` reads the undeclared name `siteId` | any loaded site's index throws a ReferenceError | the id of a dense index, the inverse of `getSiteIndex` | not executed | Viewer.GameMap.GetSiteIdAsWritten | Viewer.GameMap.SiteIdRoundTrip |
| punter/gamemapforai.cc:123-143 | the search never marks its start node as visited | punter 0 owns river 0-2 and claims 0-1 with node 1 connected: node 0 is collected twice | each newly connected node is collected once | not executed | GameMapForAi.StartCountedTwice | GameMapForAi.ClaimCore |
| punter/gamemapforai.cc:145-157 | the score grows by the running total after each mine, not by that mine's gain | two mines that gain 1 each: the claim is worth 2, but the score grows by 3 | the score grows by the claim's worth | not executed | GameMapForAi.RunningTotalOvercounts | GameMapForAi.ClaimCore |
| punter/gamemapforai.cc:17-66 | `init` never sizes `scores_`, which `claim` indexes by punter | a fresh two-punter map has no score slots | one zero score per punter | not executed | GameMapForAi.InitLeavesScoresEmpty | GameMapForAi.GameMapForAI.Init |
| punter/gamemapforai.cc:178-264 | `serialize` writes each node's distances before its flags; `deserialize` reads them mine by mine, each distance followed by its flags | one node (id 5), one punter, two mines, distances [0,3], flags [true],[false]: the distances come back as [0,1] | `deserialize(serialize(m))` gives `m` back | not executed | GameMapForAi.TwoMinesMisread | GameMapForAi.DecodeEncode |
| punter/future_punter.cc:76-99 | a mine with no site left to reach still yields a candidate, naming site -1 and mine -1 | a mine that no river touches, without aggression: the future (-1, -1) is bet on | no future for such a mine | not executed | FuturePunter.IsolatedMineBetsOnNothing | FuturePunter.Candidate |
