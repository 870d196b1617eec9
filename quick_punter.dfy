/**
 * `punter::QuickPunter`: the rivers with their owners, and a colour per
 * site naming the mine whose region the site joined. The state lives in a
 * protocol buffer, whose node-colour list logs every colour as it is
 * given; `node_color_` is the map those entries build.
 */
module QuickPunter {
  import opened Wrappers
  import opened GameData
  import opened SimplePunter

  /** The site colours and the protocol buffer's list of them. */
  datatype Colouring = Colouring(colour: map<int, int>, log: seq<(int, int)>)

  /** The protocol buffer the state is kept in. */
  datatype QuickProto = QuickProto(punterId: int, sites: seq<int>, rivers: seq<RiverWithPunter>, mines: seq<int>,
                                   nodeColor: seq<(int, int)>)

  /** The map built by inserting the entries in order; `std::map::insert` keeps a site's first colour. */
  function Inserted(start: map<int, int>, entries: seq<(int, int)>): map<int, int>
  {
    if entries == [] then start
    else
      var m := Inserted(start, entries[..|entries| - 1]);
      var e := entries[|entries| - 1];
      if e.0 in m then m else m[e.0 := e.1]
  }

  /** A colouring whose map is what its log builds, and whose colours all name mines. */
  ghost predicate Mirrored(c: Colouring, mines: seq<int>)
  {
    c.colour == Inserted(map[], c.log) && forall s :: s in c.colour ==> c.colour[s] in mines
  }

  /** A claim names this river, either way round. */
  predicate Either(r: RiverWithPunter, m: GameMove)
  {
    (r.source == m.source && r.target == m.target) || (r.source == m.target && r.target == m.source)
  }

  /**
   * The colouring after one's own claim of `source`-`target`: an uncoloured
   * end takes the colour of a coloured one; otherwise nothing changes.
   */
  function Recolour(c: Colouring, source: int, target: int): Colouring
  {
    if source in c.colour && target !in c.colour then
      Colouring(c.colour[target := c.colour[source]], c.log + [(target, c.colour[source])])
    else if source !in c.colour && target in c.colour then
      Colouring(c.colour[source := c.colour[target]], c.log + [(source, c.colour[target])])
    else c
  }

  /** Once one end is coloured, the claim leaves both coloured, and a second pass changes nothing. */
  lemma RecolourSettles(c: Colouring, source: int, target: int)
    ensures Recolour(Recolour(c, source, target), source, target) == Recolour(c, source, target)
    ensures (source in c.colour || target in c.colour) ==>
      source in Recolour(c, source, target).colour && target in Recolour(c, source, target).colour
  {
  }

  /** Recolouring keeps the map what the log builds, every colour a mine's, and every old colour as it was. */
  lemma RecolourMirrored(c: Colouring, mines: seq<int>, source: int, target: int)
    requires Mirrored(c, mines)
    ensures Mirrored(Recolour(c, source, target), mines)
    ensures forall s :: s in c.colour ==> s in Recolour(c, source, target).colour &&
                                          Recolour(c, source, target).colour[s] == c.colour[s]
  {
    var c' := Recolour(c, source, target);
    if c' != c {
      assert c'.log[..|c'.log| - 1] == c.log;
    }
  }

  /**
   * The state after one move: a claim gives every river it names, either
   * way round, to the claimer, which must be free (a debug check); one's
   * own claim also recolours its ends.
   */
  function MarkQuick(rivers: seq<RiverWithPunter>, c: Colouring, m: GameMove, me: int)
    : Result<(seq<RiverWithPunter>, Colouring), Fatal>
  {
    if m.kind != CLAIM then Ok((rivers, c))
    else if exists i :: 0 <= i < |rivers| && Either(rivers[i], m) && rivers[i].punter != -1 then Err(Fatal)
    else
      var marked := seq(|rivers|, i requires 0 <= i < |rivers| =>
                          if Either(rivers[i], m) then rivers[i].(punter := m.punter) else rivers[i]);
      var named := exists i :: 0 <= i < |rivers| && Either(rivers[i], m);
      Ok((marked, if m.punter == me && named then Recolour(c, m.source, m.target) else c))
  }

  /** The state after a batch, move by move. */
  function ApplyQuick(rivers: seq<RiverWithPunter>, c: Colouring, moves: seq<GameMove>, me: int)
    : Result<(seq<RiverWithPunter>, Colouring), Fatal>
  {
    if moves == [] then Ok((rivers, c))
    else match ApplyQuick(rivers, c, moves[..|moves| - 1], me)
      case Err(e) => Err(e)
      case Ok((rs, c')) => MarkQuick(rs, c', moves[|moves| - 1], me)
  }

  lemma {:induction false} ApplyQuickPrefixErr(rivers: seq<RiverWithPunter>, c: Colouring, moves: seq<GameMove>,
                                               me: int, k: nat)
    requires k <= |moves| && ApplyQuick(rivers, c, moves[..k], me).Err?
    ensures ApplyQuick(rivers, c, moves, me).Err?
    decreases |moves| - k
  {
    if k < |moves| {
      assert moves[..k + 1][..k] == moves[..k];
      ApplyQuickPrefixErr(rivers, c, moves, me, k + 1);
    } else {
      assert moves[..k] == moves;
    }
  }

  /**
   * A batch keeps the colouring mirrored: colours are only ever added,
   * always a mine's; owned rivers keep their owners and no river changes
   * its ends.
   */
  lemma {:induction false} ApplyQuickKeeps(rivers: seq<RiverWithPunter>, c: Colouring, moves: seq<GameMove>,
                                           me: int, mines: seq<int>)
    requires Mirrored(c, mines) && ApplyQuick(rivers, c, moves, me).Ok?
    ensures var (rs, c') := ApplyQuick(rivers, c, moves, me).value;
      Mirrored(c', mines) &&
      (forall s :: s in c.colour ==> s in c'.colour && c'.colour[s] == c.colour[s]) &&
      |rs| == |rivers| &&
      (forall i :: 0 <= i < |rivers| ==> rs[i].source == rivers[i].source && rs[i].target == rivers[i].target &&
                                         (rivers[i].punter != -1 ==> rs[i] == rivers[i]))
    decreases |moves|
  {
    if moves != [] {
      var init := moves[..|moves| - 1];
      ApplyQuickKeeps(rivers, c, init, me, mines);
      var (rs, c1) := ApplyQuick(rivers, c, init, me).value;
      var m := moves[|moves| - 1];
      if m.kind == CLAIM {
        RecolourMirrored(c1, mines, m.source, m.target);
      }
    }
  }

  /** A free river at the edge of a region: one end coloured, or the two ends coloured differently. */
  predicate Frontier(colour: map<int, int>, r: RiverWithPunter)
  {
    r.punter == -1 &&
    ((r.source !in colour && r.target in colour) || (r.source in colour && r.target !in colour) ||
     (r.source in colour && r.target in colour && colour[r.source] != colour[r.target]))
  }

  /** The first frontier river. */
  function FirstFrontier(colour: map<int, int>, rivers: seq<RiverWithPunter>): (r: Option<nat>)
    ensures r.None? <==> forall i :: 0 <= i < |rivers| ==> !Frontier(colour, rivers[i])
    ensures r.Some? ==> r.value < |rivers| && Frontier(colour, rivers[r.value]) &&
                        (forall i :: 0 <= i < r.value ==> !Frontier(colour, rivers[i]))
  {
    if rivers == [] then None
    else if Frontier(colour, rivers[0]) then Some(0)
    else match FirstFrontier(colour, rivers[1..])
      case None => None
      case Some(i) => Some(i + 1)
  }

  /** `Run`'s answer once the batch is applied: claim the first frontier river, else pass. */
  function QuickChoice(me: int, colour: map<int, int>, rivers: seq<RiverWithPunter>): GameMove
  {
    match FirstFrontier(colour, rivers)
    case None => Pass(me)
    case Some(i) => Claim(me, rivers[i].source, rivers[i].target)
  }

  /**
   * Once the claim of a river with just one coloured end comes back, both
   * of its ends carry that colour.
   */
  lemma ChoiceSpreadsColour(me: int, c: Colouring, rivers: seq<RiverWithPunter>)
    requires QuickChoice(me, c.colour, rivers).kind == CLAIM
    requires forall i, j :: 0 <= i < j < |rivers| ==> !Either(rivers[j], GameMove(CLAIM, me, rivers[i].source, rivers[i].target, []))
    ensures var m := QuickChoice(me, c.colour, rivers);
      MarkQuick(rivers, c, m, me).Ok? &&
      m.source in MarkQuick(rivers, c, m, me).value.1.colour && m.target in MarkQuick(rivers, c, m, me).value.1.colour
  {
    var i := FirstFrontier(c.colour, rivers).value;
    var m := QuickChoice(me, c.colour, rivers);
    assert Either(rivers[i], m);
    forall j | 0 <= j < |rivers| && Either(rivers[j], m) ensures j == i {
    }
  }

  class QuickPunter {
    var punterId: int
    var sites: seq<int>
    var rivers: seq<RiverWithPunter>
    var mines: seq<int>
    var colouring: Colouring

    ghost predicate Valid()
      reads this
    {
      Mirrored(colouring, mines)
    }

    constructor ()
      ensures Valid() && sites == [] && rivers == [] && mines == [] && colouring == Colouring(map[], [])
    {
      punterId, sites, rivers, mines, colouring := 0, [], [], [], Colouring(map[], []);
    }

    /**
     * `SetUp`: the sites, the free rivers and the mines are appended to the
     * buffer, and each mine is coloured with itself.
     */
    method SetUp(id: int, gameMap: GameMap)
      requires Valid()
      modifies this
      ensures Valid() && punterId == id
      ensures sites == old(sites) + seq(|gameMap.sites|, i requires 0 <= i < |gameMap.sites| => gameMap.sites[i].id)
      ensures |rivers| == old(|rivers|) + |gameMap.rivers| && rivers[..old(|rivers|)] == old(rivers)
      ensures forall i :: 0 <= i < |gameMap.rivers| ==> rivers[old(|rivers|) + i] == Fresh(gameMap.rivers[i])
      ensures mines == old(mines) + gameMap.mines
      ensures forall m :: m in gameMap.mines ==> m in colouring.colour
      ensures forall s :: s in old(colouring.colour) ==> s in colouring.colour && colouring.colour[s] == old(colouring.colour[s])
    {
      punterId := id;
      for i := 0 to |gameMap.sites|
        invariant punterId == id && Valid()
        invariant sites == old(sites) + seq(i, j requires 0 <= j < i => gameMap.sites[j].id)
        invariant rivers == old(rivers) && mines == old(mines) && colouring == old(colouring)
      {
        sites := sites + [gameMap.sites[i].id];
      }
      for i := 0 to |gameMap.rivers|
        invariant punterId == id && Valid() && mines == old(mines) && colouring == old(colouring)
        invariant |rivers| == old(|rivers|) + i && rivers[..old(|rivers|)] == old(rivers)
        invariant forall j :: 0 <= j < i ==> rivers[old(|rivers|) + j] == Fresh(gameMap.rivers[j])
        invariant sites == old(sites) + seq(|gameMap.sites|, i requires 0 <= i < |gameMap.sites| => gameMap.sites[i].id)
      {
        rivers := rivers + [Fresh(gameMap.rivers[i])];
      }
      ghost var riversSet := rivers;
      ghost var sitesSet := sites;
      for i := 0 to |gameMap.mines|
        invariant punterId == id && rivers == riversSet && sites == sitesSet
        invariant mines == old(mines) + gameMap.mines[..i] && Valid()
        invariant forall j :: 0 <= j < i ==> gameMap.mines[j] in colouring.colour
        invariant forall s :: s in old(colouring.colour) ==> s in colouring.colour && colouring.colour[s] == old(colouring.colour[s])
      {
        var m := gameMap.mines[i];
        ghost var log0 := colouring.log;
        assert gameMap.mines[..i + 1] == gameMap.mines[..i] + [m];
        mines := mines + [m];
        if m !in colouring.colour {
          colouring := Colouring(colouring.colour[m := m], colouring.log + [(m, m)]);
        } else {
          colouring := colouring.(log := colouring.log + [(m, m)]);
        }
        assert colouring.log[..|colouring.log| - 1] == log0;
      }
      assert gameMap.mines[..|gameMap.mines|] == gameMap.mines;
    }

    /**
     * The inner loop of `Run` for one move: each river the claim names is
     * checked free and given to the claimer, and one's own claim recolours
     * its ends; false when a named river is owned.
     */
    method MarkMove(m: GameMove) returns (ok: bool)
      modifies this
      ensures ok <==> MarkQuick(old(rivers), old(colouring), m, punterId).Ok?
      ensures ok ==> (rivers, colouring) == MarkQuick(old(rivers), old(colouring), m, punterId).value
      ensures punterId == old(punterId) && sites == old(sites) && mines == old(mines)
    {
      if m.kind != CLAIM {
        return true;
      }
      ghost var before, c0 := rivers, colouring;
      var i := 0;
      while i < |rivers|
        invariant 0 <= i <= |rivers| == |before|
        invariant punterId == old(punterId) && sites == old(sites) && mines == old(mines)
        invariant forall j :: 0 <= j < |before| ==>
          rivers[j] == if j < i && Either(before[j], m) then before[j].(punter := m.punter) else before[j]
        invariant forall j :: 0 <= j < i && Either(before[j], m) ==> before[j].punter == -1
        invariant colouring == if m.punter == punterId && exists j :: 0 <= j < i && Either(before[j], m)
                               then Recolour(c0, m.source, m.target) else c0
      {
        var r := rivers[i];
        if (r.source == m.source && r.target == m.target) || (r.source == m.target && r.target == m.source) {
          if r.punter != -1 {
            assert Either(before[i], m) && before[i].punter != -1;
            return false;
          }
          rivers := rivers[i := r.(punter := m.punter)];
          if m.punter == punterId {
            RecolourSettles(c0, m.source, m.target);
            var c := colouring.colour;
            if m.source in c && m.target !in c {
              colouring := Colouring(c[m.target := c[m.source]], colouring.log + [(m.target, c[m.source])]);
            } else if m.source !in c && m.target in c {
              colouring := Colouring(c[m.source := c[m.target]], colouring.log + [(m.source, c[m.target])]);
            }
          }
        }
        i := i + 1;
      }
      ok := true;
      var marked := MarkQuick(before, c0, m, punterId).value;
      assert rivers == marked.0;
    }

    /**
     * `Run`: marks the claims of the batch, then claims the first free
     * river at the edge of a region, or passes.
     */
    method Run(moves: seq<GameMove>) returns (r: Result<GameMove, Fatal>)
      modifies this
      ensures r.Ok? <==> ApplyQuick(old(rivers), old(colouring), moves, punterId).Ok?
      ensures r.Ok? ==> (rivers, colouring) == ApplyQuick(old(rivers), old(colouring), moves, punterId).value &&
                        r.value == QuickChoice(punterId, colouring.colour, rivers)
      ensures punterId == old(punterId) && sites == old(sites) && mines == old(mines)
    {
      ghost var before, c0 := rivers, colouring;
      var k := 0;
      while k < |moves|
        invariant 0 <= k <= |moves| && ApplyQuick(before, c0, moves[..k], punterId) == Ok((rivers, colouring))
        invariant punterId == old(punterId) && sites == old(sites) && mines == old(mines)
      {
        assert moves[..k + 1][..k] == moves[..k];
        var ok := MarkMove(moves[k]);
        if !ok {
          ApplyQuickPrefixErr(before, c0, moves, punterId, k + 1);
          return Err(Fatal);
        }
        k := k + 1;
      }
      assert moves[..k] == moves;
      var i := 0;
      while i < |rivers|
        invariant 0 <= i <= |rivers| && forall j :: 0 <= j < i ==> !Frontier(colouring.colour, rivers[j])
      {
        var river := rivers[i];
        var c := colouring.colour;
        if river.punter == -1 &&
           ((river.source !in c && river.target in c) || (river.source in c && river.target !in c) ||
            (river.source in c && river.target in c && c[river.source] != c[river.target])) {
          return Ok(Claim(punterId, river.source, river.target));
        }
        i := i + 1;
      }
      return Ok(Pass(punterId));
    }

    /** The buffer `GetState` encodes. */
    function Proto(): QuickProto
      reads this
    {
      QuickProto(punterId, sites, rivers, mines, colouring.log)
    }

    /**
     * `SetState` after the buffer is decoded: the buffer replaces the
     * fields, and its colour entries are inserted into the map held so far.
     */
    method SetState(p: QuickProto)
      modifies this
      ensures Proto() == p && colouring.colour == Inserted(old(colouring.colour), p.nodeColor)
    {
      punterId, sites, rivers, mines := p.punterId, p.sites, p.rivers, p.mines;
      var colour := colouring.colour;
      for i := 0 to |p.nodeColor|
        invariant colour == Inserted(old(colouring.colour), p.nodeColor[..i])
      {
        assert p.nodeColor[..i + 1][..i] == p.nodeColor[..i];
        var e := p.nodeColor[i];
        if e.0 !in colour {
          colour := colour[e.0 := e.1];
        }
      }
      assert p.nodeColor[..|p.nodeColor|] == p.nodeColor;
      colouring := Colouring(colour, p.nodeColor);
    }
  }
}
