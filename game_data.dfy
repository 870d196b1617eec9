/**
 * The game's value types (sites, rivers, maps, moves) and their
 * conversion to and from a JSON value tree. A failed `CHECK` or
 * `LOG(FATAL)` aborts the process; here it is the error `Fatal`.
 */
module GameData {
  import opened Wrappers

  /** A JSON value tree. Dictionary keys are plain strings. */
  datatype Json =
    | JNull
    | JBool(b: bool)
    | JInt(i: int)
    | JString(s: string)
    | JList(items: seq<Json>)
    | JDict(fields: map<string, Json>)

  /** The process aborted on a failed check. */
  datatype Fatal = Fatal

  datatype Site = Site(id: int)

  datatype River = River(source: int, target: int)

  /** A future names a mine (`source`) and a target site, with the shape of a river. */
  type Future = River

  datatype GameMap = GameMap(sites: seq<Site>, rivers: seq<River>, mines: seq<int>)

  datatype MoveType = CLAIM | PASS | SPLURGE | OPTION

  /**
   * A move. `source` and `target` are meaningful for CLAIM and OPTION,
   * `route` for SPLURGE; the factories leave the other fields zero or empty.
   */
  datatype GameMove = GameMove(kind: MoveType, punter: int, source: int, target: int, route: seq<int>)

  // ---------------------------------------------------------------------
  // Paths into dictionaries

  /**
   * The value at a dotted path: each key is looked up in the dictionary
   * the previous key led to.
   */
  function Get(v: Json, path: seq<string>): (r: Option<Json>)
    ensures path == [] ==> r == Some(v)
    decreases |path|
  {
    if path == [] then Some(v)
    else if v.JDict? && path[0] in v.fields then Get(v.fields[path[0]], path[1..])
    else None
  }

  /** A one-key path reads that key of a dictionary. */
  lemma GetKey(v: Json, key: string)
    requires v.JDict? && key in v.fields
    ensures Get(v, [key]) == Some(v.fields[key])
  {
    assert [key][1..] == [];
  }

  /** `GetInteger`: the integer at a path, if there is one. */
  function GetInteger(v: Json, path: seq<string>): (r: Option<int>)
    ensures r.Some? <==> Get(v, path).Some? && Get(v, path).value.JInt?
  {
    match Get(v, path)
    case Some(JInt(i)) => Some(i)
    case _ => None
  }

  /** `GetList`: the list at a path, if there is one. */
  function GetList(v: Json, path: seq<string>): (r: Option<seq<Json>>)
    ensures r.Some? <==> Get(v, path).Some? && Get(v, path).value.JList?
  {
    match Get(v, path)
    case Some(JList(items)) => Some(items)
    case _ => None
  }

  /** `HasKey`: a dictionary with that literal key. */
  predicate HasKey(v: Json, key: string)
  {
    v.JDict? && key in v.fields
  }

  // ---------------------------------------------------------------------
  // Elements

  /** An integer list element; anything else fails the check. */
  function IntOf(v: Json): (r: Result<int, Fatal>)
    ensures r.Ok? <==> v.JInt?
  {
    if v.JInt? then Ok(v.i) else Err(Fatal)
  }

  function IntJson(i: int): Json
  {
    JInt(i)
  }

  /** `Site::FromJson`: a dictionary with an integer "id". */
  function SiteOf(v: Json): (r: Result<Site, Fatal>)
    ensures r.Ok? <==> v.JDict? && GetInteger(v, ["id"]).Some?
  {
    if !v.JDict? then Err(Fatal)
    else match GetInteger(v, ["id"])
      case None => Err(Fatal)
      case Some(id) => Ok(Site(id))
  }

  /** `Site::ToJson`. */
  function SiteJson(s: Site): Json
  {
    JDict(map["id" := JInt(s.id)])
  }

  /** `River::FromJson`: a dictionary with integers "source" and "target". */
  function RiverOf(v: Json): (r: Result<River, Fatal>)
    ensures r.Ok? <==> v.JDict? && GetInteger(v, ["source"]).Some? && GetInteger(v, ["target"]).Some?
  {
    if !v.JDict? then Err(Fatal)
    else match (GetInteger(v, ["source"]), GetInteger(v, ["target"]))
      case (Some(s), Some(t)) => Ok(River(s, t))
      case _ => Err(Fatal)
  }

  /** `River::ToJson`. */
  function RiverJson(r: River): Json
  {
    JDict(map["source" := JInt(r.source), "target" := JInt(r.target)])
  }

  lemma SiteRoundTrip(s: Site)
    ensures SiteOf(SiteJson(s)) == Ok(s)
  {
  }

  lemma RiverRoundTrip(r: River)
    ensures RiverOf(RiverJson(r)) == Ok(r)
  {
  }

  // ---------------------------------------------------------------------
  // Lists

  /**
   * The list helper `FromJson(values, output)`: converts every element in
   * order; the first element that fails aborts.
   */
  function AllOf<T>(values: seq<Json>, f: Json -> Result<T, Fatal>): (r: Result<seq<T>, Fatal>)
    ensures r.Ok? ==> |r.value| == |values|
  {
    if values == [] then Ok([])
    else match AllOf(values[..|values| - 1], f)
      case Err(e) => Err(e)
      case Ok(xs) =>
        match f(values[|values| - 1])
        case Err(e) => Err(e)
        case Ok(x) => Ok(xs + [x])
  }

  /** The list helper `ToJson(elements)`: every element in order. */
  function AllJson<T>(elements: seq<T>, f: T -> Json): (r: seq<Json>)
    ensures |r| == |elements|
    ensures forall i :: 0 <= i < |elements| ==> r[i] == f(elements[i])
  {
    seq(|elements|, i requires 0 <= i < |elements| => f(elements[i]))
  }

  /** A list converts without failure exactly when each element does, each to its own value. */
  lemma {:induction false} AllOfElements<T>(values: seq<Json>, f: Json -> Result<T, Fatal>)
    ensures AllOf(values, f).Ok? <==> forall i :: 0 <= i < |values| ==> f(values[i]).Ok?
    ensures AllOf(values, f).Ok? ==>
      forall i :: 0 <= i < |values| ==> AllOf(values, f).value[i] == f(values[i]).value
    decreases |values|
  {
    if values != [] {
      var init := values[..|values| - 1];
      AllOfElements(init, f);
      assert forall i :: 0 <= i < |init| ==> init[i] == values[i];
    }
  }

  /** Converting a list to JSON and back restores it, length and order included. */
  lemma {:induction false} ListRoundTrip<T>(xs: seq<T>, to: T -> Json, from: Json -> Result<T, Fatal>)
    requires forall x :: from(to(x)) == Ok(x)
    ensures AllOf(AllJson(xs, to), from) == Ok(xs)
    decreases |xs|
  {
    if xs != [] {
      var init := xs[..|xs| - 1];
      ListRoundTrip(init, to, from);
      assert AllJson(xs, to)[..|xs| - 1] == AllJson(init, to);
      assert xs == init + [xs[|xs| - 1]];
    }
  }

  /** A failure in a prefix is a failure of the whole list. */
  lemma {:induction false} AllOfPrefixErr<T>(values: seq<Json>, f: Json -> Result<T, Fatal>, k: nat)
    requires k <= |values| && AllOf(values[..k], f).Err?
    ensures AllOf(values, f) == Err(Fatal)
    decreases |values| - k
  {
    if k < |values| {
      assert values[..k + 1][..k] == values[..k];
      AllOfPrefixErr(values, f, k + 1);
    } else {
      assert values[..k] == values;
      var e := AllOf(values, f).error;
      assert e == Fatal by {
        match e { case Fatal => }
      }
    }
  }

  /** The loop of the list helper `FromJson`. */
  method ListFromJson<T>(values: seq<Json>, f: Json -> Result<T, Fatal>) returns (r: Result<seq<T>, Fatal>)
    ensures r == AllOf(values, f)
  {
    var output: seq<T> := [];
    var i := 0;
    while i < |values|
      invariant 0 <= i <= |values| && AllOf(values[..i], f) == Ok(output)
    {
      assert values[..i + 1][..i] == values[..i];
      var x := f(values[i]);
      if x.Err? {
        AllOfPrefixErr(values, f, i + 1);
        return Err(Fatal);
      }
      output := output + [x.value];
      i := i + 1;
    }
    assert values[..i] == values;
    return Ok(output);
  }

  /** The loop of the list helper `ToJson`. */
  method ListToJson<T>(elements: seq<T>, f: T -> Json) returns (r: Json)
    ensures r == JList(AllJson(elements, f))
  {
    var result: seq<Json> := [];
    var i := 0;
    while i < |elements|
      invariant 0 <= i <= |elements| && result == AllJson(elements[..i], f)
    {
      result := result + [f(elements[i])];
      i := i + 1;
    }
    assert elements[..i] == elements;
    return JList(result);
  }

  // ---------------------------------------------------------------------
  // Maps

  /** `GameMap::FromJson`: a dictionary with lists "sites", "rivers" and "mines". */
  function GameMapOf(v: Json): (r: Result<GameMap, Fatal>)
    ensures r.Ok? ==> v.JDict? && GetList(v, ["sites"]).Some? && GetList(v, ["rivers"]).Some? &&
                      GetList(v, ["mines"]).Some?
    ensures r.Ok? ==> AllOf(GetList(v, ["sites"]).value, SiteOf) == Ok(r.value.sites) &&
                      AllOf(GetList(v, ["rivers"]).value, RiverOf) == Ok(r.value.rivers) &&
                      AllOf(GetList(v, ["mines"]).value, IntOf) == Ok(r.value.mines)
    ensures (v.JDict? && GetList(v, ["sites"]).Some? && GetList(v, ["rivers"]).Some? &&
             GetList(v, ["mines"]).Some? && AllOf(GetList(v, ["sites"]).value, SiteOf).Ok? &&
             AllOf(GetList(v, ["rivers"]).value, RiverOf).Ok? && AllOf(GetList(v, ["mines"]).value, IntOf).Ok?)
            ==> r.Ok?
  {
    if !v.JDict? then Err(Fatal)
    else match (GetList(v, ["sites"]), GetList(v, ["rivers"]), GetList(v, ["mines"]))
      case (Some(sites), Some(rivers), Some(mines)) =>
        (match (AllOf(sites, SiteOf), AllOf(rivers, RiverOf), AllOf(mines, IntOf))
         case (Ok(s), Ok(r), Ok(m)) => Ok(GameMap(s, r, m))
         case _ => Err(Fatal))
      case _ => Err(Fatal)
  }

  /** `GameMap::ToJson`. */
  function GameMapJson(m: GameMap): Json
  {
    JDict(map["sites" := JList(AllJson(m.sites, SiteJson)),
              "rivers" := JList(AllJson(m.rivers, RiverJson)),
              "mines" := JList(AllJson(m.mines, IntJson))])
  }

  lemma GameMapRoundTrip(m: GameMap)
    ensures GameMapOf(GameMapJson(m)) == Ok(m)
  {
    var v := GameMapJson(m);
    assert GetList(v, ["sites"]) == Some(AllJson(m.sites, SiteJson));
    assert GetList(v, ["rivers"]) == Some(AllJson(m.rivers, RiverJson));
    assert GetList(v, ["mines"]) == Some(AllJson(m.mines, IntJson));
    forall s: Site ensures SiteOf(SiteJson(s)) == Ok(s) {
      SiteRoundTrip(s);
    }
    forall r: River ensures RiverOf(RiverJson(r)) == Ok(r) {
      RiverRoundTrip(r);
    }
    ListRoundTrip(m.sites, SiteJson, SiteOf);
    ListRoundTrip(m.rivers, RiverJson, RiverOf);
    ListRoundTrip(m.mines, IntJson, IntOf);
  }

  method GameMapFromJson(v: Json) returns (r: Result<GameMap, Fatal>)
    ensures r == GameMapOf(v)
  {
    if !v.JDict? {
      return Err(Fatal);
    }
    var sites := GetList(v, ["sites"]);
    var rivers := GetList(v, ["rivers"]);
    var mines := GetList(v, ["mines"]);
    if sites.None? || rivers.None? || mines.None? {
      return Err(Fatal);
    }
    var s := ListFromJson(sites.value, SiteOf);
    var rs := ListFromJson(rivers.value, RiverOf);
    var ms := ListFromJson(mines.value, IntOf);
    if s.Err? || rs.Err? || ms.Err? {
      return Err(Fatal);
    }
    return Ok(GameMap(s.value, rs.value, ms.value));
  }

  method GameMapToJson(m: GameMap) returns (r: Json)
    ensures r == GameMapJson(m)
  {
    var sites := ListToJson(m.sites, SiteJson);
    var rivers := ListToJson(m.rivers, RiverJson);
    var mines := ListToJson(m.mines, IntJson);
    r := JDict(map["sites" := sites, "rivers" := rivers, "mines" := mines]);
  }

  // ---------------------------------------------------------------------
  // Moves

  /** `GameMove::Pass`. */
  function Pass(punter: int): (m: GameMove)
    ensures m.kind == PASS && m.punter == punter && m.route == []
  {
    GameMove(PASS, punter, 0, 0, [])
  }

  /** `GameMove::Claim`. */
  function Claim(punter: int, source: int, target: int): (m: GameMove)
    ensures m.kind == CLAIM && m.punter == punter && m.source == source && m.target == target && m.route == []
  {
    GameMove(CLAIM, punter, source, target, [])
  }

  /** `GameMove::Splurge`: takes the route over. */
  function Splurge(punter: int, route: seq<int>): (m: GameMove)
    ensures m.kind == SPLURGE && m.punter == punter && m.route == route
  {
    GameMove(SPLURGE, punter, 0, 0, route)
  }

  /**
   * `GameMove::FromJson`: the keys "claim", "pass" and "splurge" are tried
   * in that order and the first present one decides; any other dictionary
   * (an "option" move included) is fatal.
   */
  function MoveOf(v: Json): (r: Result<GameMove, Fatal>)
    ensures r.Ok? ==> HasKey(v, "claim") || HasKey(v, "pass") || HasKey(v, "splurge")
    ensures r.Ok? && HasKey(v, "claim") ==> r.value.kind == CLAIM
    ensures r.Ok? && !HasKey(v, "claim") && HasKey(v, "pass") ==> r.value.kind == PASS
    ensures r.Ok? && !HasKey(v, "claim") && !HasKey(v, "pass") ==> r.value.kind == SPLURGE
    ensures r.Ok? && r.value.kind == CLAIM ==>
              GetInteger(v, ["claim", "punter"]) == Some(r.value.punter) &&
              GetInteger(v, ["claim", "source"]) == Some(r.value.source) &&
              GetInteger(v, ["claim", "target"]) == Some(r.value.target) && r.value.route == []
    ensures r.Ok? && r.value.kind == PASS ==>
              GetInteger(v, ["pass", "punter"]) == Some(r.value.punter) && r.value.route == []
    ensures r.Ok? && r.value.kind == SPLURGE ==>
              GetInteger(v, ["splurge", "punter"]) == Some(r.value.punter) &&
              GetList(v, ["splurge", "route"]).Some? &&
              AllOf(GetList(v, ["splurge", "route"]).value, IntOf) == Ok(r.value.route)
    ensures (HasKey(v, "claim") && GetInteger(v, ["claim", "punter"]).Some? &&
             GetInteger(v, ["claim", "source"]).Some? && GetInteger(v, ["claim", "target"]).Some?) ==> r.Ok?
    ensures !HasKey(v, "claim") && HasKey(v, "pass") && GetInteger(v, ["pass", "punter"]).Some? ==> r.Ok?
    ensures (!HasKey(v, "claim") && !HasKey(v, "pass") && HasKey(v, "splurge") &&
             GetInteger(v, ["splurge", "punter"]).Some? && GetList(v, ["splurge", "route"]).Some? &&
             AllOf(GetList(v, ["splurge", "route"]).value, IntOf).Ok?) ==> r.Ok?
  {
    if !v.JDict? then Err(Fatal)
    else if HasKey(v, "claim") then
      match (GetInteger(v, ["claim", "punter"]), GetInteger(v, ["claim", "source"]),
             GetInteger(v, ["claim", "target"]))
      case (Some(p), Some(s), Some(t)) => Ok(Claim(p, s, t))
      case _ => Err(Fatal)
    else if HasKey(v, "pass") then
      match GetInteger(v, ["pass", "punter"])
      case Some(p) => Ok(Pass(p))
      case None => Err(Fatal)
    else if HasKey(v, "splurge") then
      match (GetInteger(v, ["splurge", "punter"]), GetList(v, ["splurge", "route"]))
      case (Some(p), Some(route)) =>
        (match AllOf(route, IntOf)
         case Ok(rt) => Ok(Splurge(p, rt))
         case Err(e) => Err(e))
      case _ => Err(Fatal)
    else Err(Fatal)
  }

  /**
   * `GameMove::ToJson`: one key naming the move's type around that type's
   * fields. OPTION has no case and is fatal.
   */
  function MoveJson(m: GameMove): (r: Result<Json, Fatal>)
    ensures r.Ok? <==> m.kind != OPTION
  {
    match m.kind
    case CLAIM => Ok(JDict(map["claim" := JDict(map["punter" := JInt(m.punter), "source" := JInt(m.source),
                                                    "target" := JInt(m.target)])]))
    case PASS => Ok(JDict(map["pass" := JDict(map["punter" := JInt(m.punter)])]))
    case SPLURGE => Ok(JDict(map["splurge" := JDict(map["punter" := JInt(m.punter),
                                                        "route" := JList(AllJson(m.route, IntJson))])]))
    case OPTION => Err(Fatal)
  }

  /** The JSON of a move has exactly one top-level key, the one its type names. */
  lemma MoveJsonKey(m: GameMove)
    requires m.kind != OPTION
    ensures var keys := MoveJson(m).value.fields.Keys;
      keys == {if m.kind == CLAIM then "claim" else if m.kind == PASS then "pass" else "splurge"}
  {
  }

  /** Every move the factories build survives `ToJson` then `FromJson` unchanged. */
  lemma MoveRoundTrip(punter: int, source: int, target: int, route: seq<int>)
    ensures MoveOf(MoveJson(Claim(punter, source, target)).value) == Ok(Claim(punter, source, target))
    ensures MoveOf(MoveJson(Pass(punter)).value) == Ok(Pass(punter))
    ensures MoveOf(MoveJson(Splurge(punter, route)).value) == Ok(Splurge(punter, route))
  {
    var c := MoveJson(Claim(punter, source, target)).value;
    assert HasKey(c, "claim");
    assert GetInteger(c, ["claim", "punter"]) == Some(punter);
    assert GetInteger(c, ["claim", "source"]) == Some(source);
    assert GetInteger(c, ["claim", "target"]) == Some(target);
    var p := MoveJson(Pass(punter)).value;
    assert !HasKey(p, "claim") && HasKey(p, "pass");
    assert GetInteger(p, ["pass", "punter"]) == Some(punter);
    SplurgeRoundTrip(punter, route);
  }

  lemma SplurgeRoundTrip(punter: int, route: seq<int>)
    ensures MoveOf(MoveJson(Splurge(punter, route)).value) == Ok(Splurge(punter, route))
  {
    var v := MoveJson(Splurge(punter, route)).value;
    assert !HasKey(v, "claim") && !HasKey(v, "pass") && HasKey(v, "splurge");
    assert GetInteger(v, ["splurge", "punter"]) == Some(punter);
    assert GetList(v, ["splurge", "route"]) == Some(AllJson(route, IntJson));
    ListRoundTrip(route, IntJson, IntOf);
  }

  /** A move read from JSON is never an OPTION, so writing it back never fails. */
  lemma ReadMoveWrites(v: Json)
    requires MoveOf(v).Ok?
    ensures MoveJson(MoveOf(v).value).Ok?
  {
  }

  /** An "option" move, which the protocol allows, is fatal to read. */
  lemma OptionMoveFatal(p: int, s: int, t: int)
    ensures MoveOf(JDict(map["option" := JDict(map["punter" := JInt(p), "source" := JInt(s),
                                                   "target" := JInt(t)])])).Err?
  {
    var v := JDict(map["option" := JDict(map["punter" := JInt(p), "source" := JInt(s), "target" := JInt(t)])]);
    assert !HasKey(v, "claim") && !HasKey(v, "pass") && !HasKey(v, "splurge");
  }

  method MoveFromJson(v: Json) returns (r: Result<GameMove, Fatal>)
    ensures r == MoveOf(v)
  {
    if !v.JDict? {
      return Err(Fatal);
    }
    if HasKey(v, "claim") {
      var p := GetInteger(v, ["claim", "punter"]);
      var s := GetInteger(v, ["claim", "source"]);
      var t := GetInteger(v, ["claim", "target"]);
      if p.None? || s.None? || t.None? {
        return Err(Fatal);
      }
      return Ok(Claim(p.value, s.value, t.value));
    }
    if HasKey(v, "pass") {
      var p := GetInteger(v, ["pass", "punter"]);
      if p.None? {
        return Err(Fatal);
      }
      return Ok(Pass(p.value));
    }
    if HasKey(v, "splurge") {
      var p := GetInteger(v, ["splurge", "punter"]);
      var route := GetList(v, ["splurge", "route"]);
      if p.None? || route.None? {
        return Err(Fatal);
      }
      var rt := ListFromJson(route.value, IntOf);
      if rt.Err? {
        return Err(rt.error);
      }
      return Ok(Splurge(p.value, rt.value));
    }
    return Err(Fatal);
  }

  method MoveToJson(m: GameMove) returns (r: Result<Json, Fatal>)
    ensures r == MoveJson(m)
  {
    match m.kind {
      case CLAIM =>
        r := Ok(JDict(map["claim" := JDict(map["punter" := JInt(m.punter), "source" := JInt(m.source),
                                               "target" := JInt(m.target)])]));
      case PASS =>
        r := Ok(JDict(map["pass" := JDict(map["punter" := JInt(m.punter)])]));
      case SPLURGE =>
        var route := ListToJson(m.route, IntJson);
        r := Ok(JDict(map["splurge" := JDict(map["punter" := JInt(m.punter), "route" := route])]));
      case OPTION =>
        r := Err(Fatal);
    }
  }

  /** `GameMoves::FromJson`: every move of a list, in order. */
  method MovesFromJson(values: seq<Json>) returns (r: Result<seq<GameMove>, Fatal>)
    ensures r == AllOf(values, MoveOf)
  {
    r := ListFromJson(values, MoveOf);
  }

  /** `Futures::ToJson`: futures written as rivers, in order. */
  method FuturesToJson(futures: seq<Future>) returns (r: Json)
    ensures r == JList(AllJson(futures, RiverJson))
  {
    r := ListToJson(futures, RiverJson);
  }
}
