/**
 * The base of the simplest strategy (`framework::SimplePunter`): it keeps
 * the map's rivers, each with the punter that owns it (-1 for nobody),
 * marks the claims it is told about and claims the first river still free.
 * A failed `CHECK` is the error `Fatal`.
 */
module SimplePunter {
  import opened Wrappers
  import opened GameData

  datatype RiverWithPunter = RiverWithPunter(source: int, target: int, punter: int)

  /** The fields `GetState` writes and `SetState` reads. */
  datatype SimpleState = SimpleState(punterId: int, numPunters: int, sites: seq<Site>,
                                     rivers: seq<RiverWithPunter>, mines: seq<int>)

  /** A river as `SetUp` stores it: nobody's yet. */
  function Fresh(r: River): RiverWithPunter
  {
    RiverWithPunter(r.source, r.target, -1)
  }

  /** A claim names this river with its endpoints in the same order. */
  predicate Matches(r: RiverWithPunter, m: GameMove)
  {
    r.source == m.source && r.target == m.target
  }

  /**
   * The rivers after one move: a claim gives every river it matches to the
   * claimer, and fails the check on a matching river that is already owned;
   * any other move changes nothing.
   */
  function Mark(rivers: seq<RiverWithPunter>, m: GameMove): (r: Result<seq<RiverWithPunter>, Fatal>)
    ensures r.Ok? <==> (m.kind == CLAIM ==> forall i :: 0 <= i < |rivers| && Matches(rivers[i], m) ==> rivers[i].punter == -1)
    ensures r.Ok? ==> |r.value| == |rivers| && forall i :: 0 <= i < |rivers| ==>
      r.value[i] == if m.kind == CLAIM && Matches(rivers[i], m) then rivers[i].(punter := m.punter) else rivers[i]
  {
    if m.kind != CLAIM || rivers == [] then Ok(rivers)
    else match Mark(rivers[..|rivers| - 1], m)
      case Err(e) => Err(e)
      case Ok(init) =>
        var last := rivers[|rivers| - 1];
        if !Matches(last, m) then Ok(init + [last])
        else if last.punter != -1 then Err(Fatal)
        else Ok(init + [last.(punter := m.punter)])
  }

  /** The rivers after a batch of moves, marked in order. */
  function ApplyMoves(rivers: seq<RiverWithPunter>, moves: seq<GameMove>): Result<seq<RiverWithPunter>, Fatal>
  {
    if moves == [] then Ok(rivers)
    else match ApplyMoves(rivers, moves[..|moves| - 1])
      case Err(e) => Err(e)
      case Ok(marked) => Mark(marked, moves[|moves| - 1])
  }

  /** The first river nobody owns. */
  function FirstUnclaimed(rivers: seq<RiverWithPunter>): (r: Option<nat>)
    ensures r.None? <==> forall i :: 0 <= i < |rivers| ==> rivers[i].punter != -1
    ensures r.Some? ==> r.value < |rivers| && rivers[r.value].punter == -1 &&
                        (forall i :: 0 <= i < r.value ==> rivers[i].punter != -1)
  {
    if rivers == [] then None
    else if rivers[0].punter == -1 then Some(0)
    else match FirstUnclaimed(rivers[1..])
      case None => None
      case Some(i) => Some(i + 1)
  }

  /** What `Run` answers once the claims are marked: the first free river, else a pass. */
  function Choice(punterId: int, rivers: seq<RiverWithPunter>): GameMove
  {
    match FirstUnclaimed(rivers)
    case None => Pass(punterId)
    case Some(i) => Claim(punterId, rivers[i].source, rivers[i].target)
  }

  /** A failure part-way through a batch fails the whole batch. */
  lemma {:induction false} ApplyMovesPrefixErr(rivers: seq<RiverWithPunter>, moves: seq<GameMove>, k: nat)
    requires k <= |moves| && ApplyMoves(rivers, moves[..k]).Err?
    ensures ApplyMoves(rivers, moves).Err?
    decreases |moves| - k
  {
    if k < |moves| {
      assert moves[..k + 1][..k] == moves[..k];
      ApplyMovesPrefixErr(rivers, moves, k + 1);
    } else {
      assert moves[..k] == moves;
    }
  }

  /**
   * A batch that passes its checks only hands free rivers to claimers: the
   * endpoints stay, and an owned river keeps its owner.
   */
  lemma {:induction false} ApplyMovesKeepsOwners(rivers: seq<RiverWithPunter>, moves: seq<GameMove>)
    requires ApplyMoves(rivers, moves).Ok?
    ensures var after := ApplyMoves(rivers, moves).value;
      |after| == |rivers| &&
      forall i :: 0 <= i < |rivers| ==>
        after[i].source == rivers[i].source && after[i].target == rivers[i].target &&
        (rivers[i].punter != -1 ==> after[i] == rivers[i])
    decreases |moves|
  {
    if moves != [] {
      ApplyMovesKeepsOwners(rivers, moves[..|moves| - 1]);
    }
  }

  /** The river `Run` picks is free, and once the claim comes back it is the picker's. */
  lemma ChoiceBecomesOwned(punterId: int, rivers: seq<RiverWithPunter>)
    requires forall i, j :: 0 <= i < j < |rivers| ==>
      rivers[i].source != rivers[j].source || rivers[i].target != rivers[j].target
    requires Choice(punterId, rivers).kind == CLAIM
    ensures var i := FirstUnclaimed(rivers).value;
      Mark(rivers, Choice(punterId, rivers)).Ok? && Mark(rivers, Choice(punterId, rivers)).value[i].punter == punterId
  {
    var i := FirstUnclaimed(rivers).value;
    var m := Choice(punterId, rivers);
    assert Matches(rivers[i], m);
    forall j | 0 <= j < |rivers| && Matches(rivers[j], m) ensures j == i {
    }
  }

  // ---------------------------------------------------------------------
  // State

  /** A site in the state: its bare id. */
  function SiteIdJson(s: Site): Json
  {
    JInt(s.id)
  }

  function SiteIdOf(v: Json): (r: Result<Site, Fatal>)
    ensures r.Ok? <==> v.JInt?
  {
    if v.JInt? then Ok(Site(v.i)) else Err(Fatal)
  }

  /** A river in the state: its endpoints, and -1 whoever owns it. */
  function RiverStateJson(r: RiverWithPunter): Json
  {
    JDict(map["source" := JInt(r.source), "target" := JInt(r.target), "punter" := JInt(-1)])
  }

  function RiverStateOf(v: Json): (r: Result<RiverWithPunter, Fatal>)
    ensures r.Ok? <==> v.JDict? && GetInteger(v, ["source"]).Some? && GetInteger(v, ["target"]).Some? &&
                       GetInteger(v, ["punter"]).Some?
  {
    if !v.JDict? then Err(Fatal)
    else match (GetInteger(v, ["source"]), GetInteger(v, ["target"]), GetInteger(v, ["punter"]))
      case (Some(s), Some(t), Some(p)) => Ok(RiverWithPunter(s, t, p))
      case _ => Err(Fatal)
  }

  /** `GetState`'s dictionary. */
  function StateJson(s: SimpleState): Json
  {
    JDict(map["punter_id" := JInt(s.punterId), "num_punters" := JInt(s.numPunters),
              "sites" := JList(AllJson(s.sites, SiteIdJson)),
              "rivers" := JList(AllJson(s.rivers, RiverStateJson)),
              "mines" := JList(AllJson(s.mines, IntJson))])
  }

  /** `SetState`'s reading; every missing or mistyped entry fails a check. */
  function StateOf(v: Json): Result<SimpleState, Fatal>
  {
    if !v.JDict? then Err(Fatal)
    else match (GetInteger(v, ["punter_id"]), GetInteger(v, ["num_punters"]))
      case (Some(id), Some(n)) =>
        (match (GetList(v, ["sites"]), GetList(v, ["rivers"]), GetList(v, ["mines"]))
         case (Some(sites), Some(rivers), Some(mines)) =>
           (match (AllOf(sites, SiteIdOf), AllOf(rivers, RiverStateOf), AllOf(mines, IntOf))
            case (Ok(s), Ok(r), Ok(m)) => Ok(SimpleState(id, n, s, r, m))
            case _ => Err(Fatal))
         case _ => Err(Fatal))
      case _ => Err(Fatal)
  }

  /** Every river with its owner forgotten. */
  function Forgotten(rivers: seq<RiverWithPunter>): (r: seq<RiverWithPunter>)
    ensures |r| == |rivers| && forall i :: 0 <= i < |rivers| ==> r[i] == rivers[i].(punter := -1)
  {
    seq(|rivers|, i requires 0 <= i < |rivers| => rivers[i].(punter := -1))
  }

  /**
   * Reading back a written state restores the ids, the sites, the rivers'
   * endpoints and the mines, but every river comes back free.
   */
  lemma StateRoundTrip(s: SimpleState)
    ensures StateOf(StateJson(s)) == Ok(s.(rivers := Forgotten(s.rivers)))
  {
    var v := StateJson(s);
    assert GetList(v, ["sites"]) == Some(AllJson(s.sites, SiteIdJson));
    assert GetList(v, ["rivers"]) == Some(AllJson(s.rivers, RiverStateJson));
    assert GetList(v, ["mines"]) == Some(AllJson(s.mines, IntJson));
    assert GetInteger(v, ["punter_id"]) == Some(s.punterId);
    assert GetInteger(v, ["num_punters"]) == Some(s.numPunters);
    SiteListRoundTrip(s.sites);
    MineListRoundTrip(s.mines);
    RiverListRoundTrip(s.rivers);
  }

  lemma SiteListRoundTrip(sites: seq<Site>)
    ensures AllOf(AllJson(sites, SiteIdJson), SiteIdOf) == Ok(sites)
  {
    forall x: Site ensures SiteIdOf(SiteIdJson(x)) == Ok(x) {
    }
    ListRoundTrip(sites, SiteIdJson, SiteIdOf);
  }

  lemma MineListRoundTrip(mines: seq<int>)
    ensures AllOf(AllJson(mines, IntJson), IntOf) == Ok(mines)
  {
    forall x: int ensures IntOf(IntJson(x)) == Ok(x) {
    }
    ListRoundTrip(mines, IntJson, IntOf);
  }

  lemma RiverListRoundTrip(rivers: seq<RiverWithPunter>)
    ensures AllOf(AllJson(rivers, RiverStateJson), RiverStateOf) == Ok(Forgotten(rivers))
  {
    var forgotten := Forgotten(rivers);
    assert AllJson(rivers, RiverStateJson) == AllJson(forgotten, RiverStateJson);
    FreeListRoundTrip(forgotten);
  }

  lemma {:induction false} FreeListRoundTrip(rivers: seq<RiverWithPunter>)
    requires forall i :: 0 <= i < |rivers| ==> rivers[i].punter == -1
    ensures AllOf(AllJson(rivers, RiverStateJson), RiverStateOf) == Ok(rivers)
    decreases |rivers|
  {
    if rivers != [] {
      var init, last := rivers[..|rivers| - 1], rivers[|rivers| - 1];
      var values := AllJson(rivers, RiverStateJson);
      FreeListRoundTrip(init);
      assert values[..|rivers| - 1] == AllJson(init, RiverStateJson);
      FreeRiverRoundTrip(last);
      assert values[|values| - 1] == RiverStateJson(last);
      assert rivers == init + [last];
    }
  }

  /** A free river's dictionary reads back as that river. */
  lemma FreeRiverRoundTrip(r: RiverWithPunter)
    requires r.punter == -1
    ensures RiverStateOf(RiverStateJson(r)) == Ok(r)
  {
    var v := RiverStateJson(r);
    assert GetInteger(v, ["source"]) == Some(r.source);
    assert GetInteger(v, ["target"]) == Some(r.target);
    assert GetInteger(v, ["punter"]) == Some(-1);
  }

  class SimplePunter {
    var numPunters: int
    var punterId: int
    var sites: seq<Site>
    var rivers: seq<RiverWithPunter>
    var mines: seq<int>

    function State(): SimpleState
      reads this
    {
      SimpleState(punterId, numPunters, sites, rivers, mines)
    }

    constructor ()
      ensures numPunters == -1 && punterId == -1 && sites == [] && rivers == [] && mines == []
    {
      numPunters, punterId, sites, rivers, mines := -1, -1, [], [], [];
    }

    /** `SetUp`: the ids, the sites and the mines as given; each river is appended free. */
    method SetUp(id: int, n: int, gameMap: GameMap)
      modifies this
      ensures punterId == id && numPunters == n && sites == gameMap.sites && mines == gameMap.mines
      ensures |rivers| == old(|rivers|) + |gameMap.rivers| && rivers[..old(|rivers|)] == old(rivers)
      ensures forall i :: 0 <= i < |gameMap.rivers| ==> rivers[old(|rivers|) + i] == Fresh(gameMap.rivers[i])
    {
      punterId, numPunters, sites := id, n, gameMap.sites;
      ghost var before := rivers;
      for i := 0 to |gameMap.rivers|
        invariant punterId == id && numPunters == n && sites == gameMap.sites
        invariant |rivers| == |before| + i && rivers[..|before|] == before
        invariant forall j :: 0 <= j < i ==> rivers[|before| + j] == Fresh(gameMap.rivers[j])
      {
        rivers := rivers + [Fresh(gameMap.rivers[i])];
      }
      mines := gameMap.mines;
    }

    /** The inner loop of `Run` for one move: false when a matching river is owned. */
    method MarkMove(m: GameMove) returns (ok: bool)
      modifies this
      ensures ok <==> Mark(old(rivers), m).Ok?
      ensures ok ==> rivers == Mark(old(rivers), m).value
      ensures numPunters == old(numPunters) && punterId == old(punterId)
    {
      if m.kind != CLAIM {
        return true;
      }
      ghost var before := rivers;
      var i := 0;
      while i < |rivers|
        invariant 0 <= i <= |rivers| == |before|
        invariant numPunters == old(numPunters) && punterId == old(punterId)
        invariant forall j :: 0 <= j < i && Matches(before[j], m) ==> before[j].punter == -1
        invariant forall j :: 0 <= j < |before| ==>
          rivers[j] == if j < i && Matches(before[j], m) then before[j].(punter := m.punter) else before[j]
      {
        if rivers[i].source == m.source && rivers[i].target == m.target {
          if rivers[i].punter != -1 {
            assert Matches(before[i], m) && before[i].punter != -1;
            return false;
          }
          rivers := rivers[i := rivers[i].(punter := m.punter)];
        }
        i := i + 1;
      }
      ok := true;
      assert rivers == Mark(before, m).value;
    }

    /**
     * `Run`: marks every claim in the batch, then claims the first free
     * river, or passes when none is left.
     */
    method Run(moves: seq<GameMove>) returns (r: Result<GameMove, Fatal>)
      modifies this
      ensures r.Ok? <==> ApplyMoves(old(rivers), moves).Ok?
      ensures r.Ok? ==> rivers == ApplyMoves(old(rivers), moves).value && r.value == Choice(punterId, rivers)
      ensures numPunters == old(numPunters) && punterId == old(punterId)
    {
      ghost var before := rivers;
      var k := 0;
      while k < |moves|
        invariant 0 <= k <= |moves| && ApplyMoves(before, moves[..k]) == Ok(rivers)
        invariant numPunters == old(numPunters) && punterId == old(punterId)
      {
        assert moves[..k + 1][..k] == moves[..k];
        var ok := MarkMove(moves[k]);
        if !ok {
          ApplyMovesPrefixErr(before, moves, k + 1);
          return Err(Fatal);
        }
        k := k + 1;
      }
      assert moves[..k] == moves;
      var i := 0;
      while i < |rivers|
        invariant 0 <= i <= |rivers| && forall j :: 0 <= j < i ==> rivers[j].punter != -1
      {
        if rivers[i].punter == -1 {
          return Ok(Claim(punterId, rivers[i].source, rivers[i].target));
        }
        i := i + 1;
      }
      return Ok(Pass(punterId));
    }

    /** `GetState`: every river is written as free. */
    method GetState() returns (v: Json)
      ensures v == StateJson(State())
    {
      var s := ListToJson(sites, SiteIdJson);
      var r := ListToJson(rivers, RiverStateJson);
      var m := ListToJson(mines, IntJson);
      v := JDict(map["punter_id" := JInt(punterId), "num_punters" := JInt(numPunters),
                     "sites" := s, "rivers" := r, "mines" := m]);
    }

    /** `SetState`: every field read back, the lists sized to what was stored. */
    method SetState(v: Json) returns (r: Result<(), Fatal>)
      modifies this
      ensures r.Ok? <==> StateOf(v).Ok?
      ensures r.Ok? ==> State() == StateOf(v).value
    {
      if !v.JDict? {
        return Err(Fatal);
      }
      var id, n := GetInteger(v, ["punter_id"]), GetInteger(v, ["num_punters"]);
      var s, rs, ms := GetList(v, ["sites"]), GetList(v, ["rivers"]), GetList(v, ["mines"]);
      if id.None? || n.None? || s.None? || rs.None? || ms.None? {
        return Err(Fatal);
      }
      var s' := ListFromJson(s.value, SiteIdOf);
      var rs' := ListFromJson(rs.value, RiverStateOf);
      var ms' := ListFromJson(ms.value, IntOf);
      if s'.Err? || rs'.Err? || ms'.Err? {
        return Err(Fatal);
      }
      punterId, numPunters, sites, rivers, mines := id.value, n.value, s'.value, rs'.value, ms'.value;
      return Ok(());
    }
  }
}
