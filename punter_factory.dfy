/**
 * The punter factory: a punter class by its name, the three rules that
 * pick a punter for a game from its set-up data, and `SwitchingPunter`,
 * which plays through the punter such a rule picked and files that
 * punter's name in its state under "core".
 */
module PunterFactory {
  import opened Wrappers
  import opened GameData

  /** The rules a `SwitchingPunter` picks its core by. */
  datatype Chooser = BenkeiOrJam | MiracOrJamOrFriendly | MiracOrJamOrFriendlyOrFuture

  /** The punter classes the factory builds. */
  datatype Core =
    | RandomPunter | PassPunter | QuickPunter | GreedyPunter | GreedyPunterChun
    | ExtensionExamplePunter | GreedyToJam | Jammer | GreedyPunterMirac | LazyPunter
    | Benkei | SimulatingPunter | MetaPunter | FriendlyPunter | FriendlyPunter2
    | FuturePunter | Switching(chooser: Chooser)

  /** The name each class is built under. */
  function NameOf(c: Core): string
  {
    match c
    case RandomPunter => "RandomPunter"
    case PassPunter => "PassPunter"
    case QuickPunter => "QuickPunter"
    case GreedyPunter => "GreedyPunter"
    case GreedyPunterChun => "GreedyPunterChun"
    case ExtensionExamplePunter => "ExtensionExamplePunter"
    case GreedyToJam => "GreedyToJam"
    case Jammer => "Jammer"
    case GreedyPunterMirac => "GreedyPunterMirac"
    case LazyPunter => "LazyPunter"
    case Benkei => "Benkei"
    case SimulatingPunter => "SimulatingPunter"
    case MetaPunter => "MetaPunter"
    case FriendlyPunter => "FriendlyPunter"
    case FriendlyPunter2 => "FriendlyPunter2"
    case FuturePunter => "FuturePunter"
    case Switching(BenkeiOrJam) => "BenkeiOrJam"
    case Switching(MiracOrJamOrFriendly) => "MiracOrJamOrFriendly"
    case Switching(MiracOrJamOrFriendlyOrFuture) => "MiracOrJamOrFriendlyOrFuture"
  }

  /** No two classes share a name. */
  lemma NamesDiffer(c: Core, d: Core)
    ensures NameOf(c) == NameOf(d) ==> c == d
  {
  }

  /** The classes in the order the factory tries their names. */
  const Registry: seq<Core> := [
    RandomPunter, PassPunter, QuickPunter, GreedyPunter, GreedyPunterChun,
    ExtensionExamplePunter, GreedyToJam, Jammer, GreedyPunterMirac, LazyPunter,
    Benkei, SimulatingPunter, MetaPunter, FriendlyPunter, FriendlyPunter2,
    Switching(BenkeiOrJam), FuturePunter, Switching(MiracOrJamOrFriendly),
    Switching(MiracOrJamOrFriendlyOrFuture)]

  /** The first class in `reg` built under `name`; a name none of them has is a fatal error. */
  function Find(reg: seq<Core>, name: string): (r: Result<Core, Fatal>)
    ensures r.Ok? ==> r.value in reg && NameOf(r.value) == name
    ensures r.Err? <==> forall c :: c in reg ==> NameOf(c) != name
  {
    if reg == [] then Err(Fatal)
    else if NameOf(reg[0]) == name then Ok(reg[0])
    else Find(reg[1..], name)
  }

  /**
   * `PunterByName`: the names are tried one after the other; the class of
   * that name, and any other name is a fatal error.
   */
  function PunterByName(name: string): (r: Result<Core, Fatal>)
    ensures r.Ok? ==> NameOf(r.value) == name
  {
    Find(Registry, name)
  }

  /** A class in `reg` whose name no other class in `reg` has is found by that name. */
  lemma {:induction false} FindsOwnName(reg: seq<Core>, c: Core)
    requires c in reg
    requires forall d :: d in reg && NameOf(d) == NameOf(c) ==> d == c
    ensures Find(reg, NameOf(c)) == Ok(c)
  {
    if reg[0] != c {
      FindsOwnName(reg[1..], c);
    }
  }

  /** Every class is in the registry. */
  lemma Registered(c: Core)
    ensures c in Registry
  {
    var i := match c
      case RandomPunter => 0
      case PassPunter => 1
      case QuickPunter => 2
      case GreedyPunter => 3
      case GreedyPunterChun => 4
      case ExtensionExamplePunter => 5
      case GreedyToJam => 6
      case Jammer => 7
      case GreedyPunterMirac => 8
      case LazyPunter => 9
      case Benkei => 10
      case SimulatingPunter => 11
      case MetaPunter => 12
      case FriendlyPunter => 13
      case FriendlyPunter2 => 14
      case Switching(BenkeiOrJam) => 15
      case FuturePunter => 16
      case Switching(MiracOrJamOrFriendly) => 17
      case Switching(MiracOrJamOrFriendlyOrFuture) => 18;
    assert Registry[i] == c;
  }

  /** Every class is built from its name: the factory accepts exactly the classes' names. */
  lemma NamesBuild(c: Core)
    ensures PunterByName(NameOf(c)) == Ok(c)
  {
    Registered(c);
    forall d | d in Registry && NameOf(d) == NameOf(c)
      ensures d == c
    {
      NamesDiffer(c, d);
    }
    FindsOwnName(Registry, c);
  }

  /** The parts of the set-up data the choosers read. */
  datatype SetUpData = SetUpData(numPunters: int, gameMap: GameMap, futures: bool)

  /** Two punters on a map of fewer than 100 sites. */
  predicate SmallDuel(args: SetUpData)
  {
    args.numPunters == 2 && |args.gameMap.sites| < 100
  }

  /** At least 800 sites and at least 8 mines. */
  predicate BigMap(args: SetUpData)
  {
    |args.gameMap.sites| >= 800 && |args.gameMap.mines| >= 8
  }

  /** `BenkeiOrJam`: the jammer in a small duel, Benkei otherwise. */
  function ChooseBenkeiOrJam(args: SetUpData): (name: string)
    ensures name == "Jammer" <==> SmallDuel(args)
    ensures name == "Benkei" <==> !SmallDuel(args)
  {
    if args.numPunters == 2 && |args.gameMap.sites| < 100 then "Jammer" else "Benkei"
  }

  /** `MiracOrJamOrFriendly`: a big map first, then a small duel, then the default. */
  function ChooseMiracOrJamOrFriendly(args: SetUpData): (name: string)
    ensures name == "FriendlyPunter" <==> BigMap(args)
    ensures name == "Jammer" <==> !BigMap(args) && SmallDuel(args)
    ensures name == "GreedyPunterMirac" <==> !BigMap(args) && !SmallDuel(args)
  {
    if |args.gameMap.sites| >= 800 && |args.gameMap.mines| >= 8 then "FriendlyPunter"
    else if args.numPunters == 2 && |args.gameMap.sites| < 100 then "Jammer"
    else "GreedyPunterMirac"
  }

  /** `MiracOrJamOrFriendlyOrFuture`: as above, with the future player in a small duel that has futures. */
  function ChooseMiracOrJamOrFriendlyOrFuture(args: SetUpData): (name: string)
    ensures name == "FriendlyPunter" <==> BigMap(args)
    ensures name == "FuturePunter" <==> !BigMap(args) && SmallDuel(args) && args.futures
    ensures name == "Jammer" <==> !BigMap(args) && SmallDuel(args) && !args.futures
    ensures name == "GreedyPunterMirac" <==> !BigMap(args) && !SmallDuel(args)
  {
    if |args.gameMap.sites| >= 800 && |args.gameMap.mines| >= 8 then "FriendlyPunter"
    else if args.numPunters == 2 && |args.gameMap.sites| < 100 then
      if args.futures then "FuturePunter" else "Jammer"
    else "GreedyPunterMirac"
  }

  /** The future variant differs only where the other picks the jammer and futures are on. */
  lemma FutureVariant(args: SetUpData)
    ensures ChooseMiracOrJamOrFriendlyOrFuture(args) ==
      if args.futures && ChooseMiracOrJamOrFriendly(args) == "Jammer" then "FuturePunter"
      else ChooseMiracOrJamOrFriendly(args)
  {
  }

  function Choose(f: Chooser, args: SetUpData): string
  {
    match f
    case BenkeiOrJam => ChooseBenkeiOrJam(args)
    case MiracOrJamOrFriendly => ChooseMiracOrJamOrFriendly(args)
    case MiracOrJamOrFriendlyOrFuture => ChooseMiracOrJamOrFriendlyOrFuture(args)
  }

  /** Every rule picks a name the factory builds, and never another switching punter. */
  lemma ChoicesBuild(f: Chooser, args: SetUpData)
    ensures PunterByName(Choose(f, args)).Ok? && !PunterByName(Choose(f, args)).value.Switching?
  {
    var name := Choose(f, args);
    var c :=
      if name == "Benkei" then Benkei
      else if name == "Jammer" then Jammer
      else if name == "FriendlyPunter" then FriendlyPunter
      else if name == "FuturePunter" then FuturePunter
      else GreedyPunterMirac;
    assert NameOf(c) == name;
    NamesBuild(c);
  }

  // ---------------------------------------------------------------------
  // State

  /**
   * `GetState` on a core named `name` whose own state is `coreState`: that
   * state with "core" set to the name. A state that is not a dictionary
   * leaves a null dictionary to write into, which crashes.
   */
  function StateOut(name: string, coreState: Json): (r: Result<Json, Fatal>)
    ensures r.Ok? <==> coreState.JDict?
    ensures r.Ok? ==> r.value.JDict? && "core" in r.value.fields && r.value.fields["core"] == JString(name)
    ensures r.Ok? ==> forall k :: k in coreState.fields && k != "core" ==> k in r.value.fields && r.value.fields[k] == coreState.fields[k]
  {
    if coreState.JDict? then Ok(JDict(coreState.fields["core" := JString(name)])) else Err(Fatal)
  }

  /**
   * `SetState`: a dictionary with a string "core" naming a class; the core
   * is rebuilt by that name and handed the whole dictionary. A core that
   * is itself a switching punter reads the same "core" again and again
   * without end, until the stack runs out.
   */
  function StateIn(v: Json): (r: Result<(string, Core), Fatal>)
    ensures r.Ok? ==> v.JDict? && "core" in v.fields && v.fields["core"] == JString(r.value.0)
    ensures r.Ok? ==> PunterByName(r.value.0) == Ok(r.value.1) && !r.value.1.Switching?
  {
    if !v.JDict? || "core" !in v.fields || !v.fields["core"].JString? then Err(Fatal)
    else
      var name := v.fields["core"].s;
      match PunterByName(name)
      case Err(e) => Err(e)
      case Ok(c) => if c.Switching? then Err(Fatal) else Ok((name, c))
  }

  /** A state written out is read back: the same name and class, the dictionary handed on whole. */
  lemma StateRoundTrip(name: string, c: Core, coreState: Json)
    requires PunterByName(name) == Ok(c) && !c.Switching? && coreState.JDict?
    ensures StateOut(name, coreState).Ok? && StateIn(StateOut(name, coreState).value) == Ok((name, c))
  {
  }

  /**
   * A punter that plays through a core picked at set-up. The core is seen
   * only as its class and its state; what the core does with moves and
   * set-up data is its own class's code.
   */
  class SwitchingPunter {
    const chooser: Chooser
    var name: string
    var core: Option<Core>
    /** The state the core would report. */
    var coreState: Json

    /** The core, once there is one, is the class its name builds, and not another switching punter. */
    ghost predicate Valid()
      reads this
    {
      core.Some? ==> PunterByName(name) == Ok(core.value) && !core.value.Switching?
    }

    constructor (f: Chooser)
      ensures chooser == f && core == None && Valid()
    {
      chooser := f;
      name := "";
      core := None;
      coreState := JNull;
    }

    /**
     * `SetUp`: the name the rule picks, and the core built by it. The
     * core's own set-up is not modelled; `setUpState` is the state it leaves.
     */
    method SetUp(args: SetUpData, setUpState: Json)
      modifies this
      ensures name == Choose(chooser, args) && PunterByName(name).Ok? && core == Some(PunterByName(name).value)
      ensures Valid()
      ensures coreState == setUpState
    {
      name := Choose(chooser, args);
      ChoicesBuild(chooser, args);
      core := Some(PunterByName(name).value);
      coreState := setUpState;
    }

    /** `GetState`; without a core the call goes through a null pointer. */
    method GetState() returns (r: Result<Json, Fatal>)
      ensures core.None? ==> r.Err?
      ensures core.Some? ==> r == StateOut(name, coreState)
    {
      if core.None? {
        return Err(Fatal);
      }
      if !coreState.JDict? {
        return Err(Fatal);
      }
      r := Ok(JDict(coreState.fields["core" := JString(name)]));
    }

    /** `SetState`: on success the name, the class and the core's state are those read. */
    method SetState(v: Json) returns (r: Result<(), Fatal>)
      requires Valid()
      modifies this
      ensures Valid()
      ensures r.Ok? <==> StateIn(v).Ok?
      ensures r.Ok? ==> name == StateIn(v).value.0 && core == Some(StateIn(v).value.1) && coreState == v
      ensures r.Err? ==> name == old(name) && core == old(core) && coreState == old(coreState)
    {
      match StateIn(v)
      case Err(e) =>
        r := Err(e);
      case Ok(read) =>
        name := read.0;
        core := Some(read.1);
        coreState := v;
        r := Ok(());
    }
  }
}
