/**
 * The cheapest-path search that `GreedyPunterMirac` and `FuturePunter`
 * run from every mine: a table of costs per site, relaxed from a priority
 * queue that pops the cheapest candidate, with a back-pointer per site.
 * The two punters differ only in which rivers they may cross and what a
 * crossing costs (`Rule`). A cost is a pair (options, rivers) compared
 * lexicographically; `FuturePunter` uses options 0 throughout.
 */
module CostSearch {
  import opened Wrappers
  import opened GameData

  datatype Cost = Cost(options: int, rivers: int)

  /** The order the queue and the table use: fewer options, then fewer rivers. */
  predicate Le(a: Cost, b: Cost)
  {
    a.options < b.options || (a.options == b.options && a.rivers <= b.rivers)
  }

  /** A river as the punter's game state holds it: its ends, its owner, its option holder (-1: none). */
  datatype RiverProto = RiverProto(source: int, target: int, punter: int, optionPunter: int)

  /** An entry of a site's adjacency list: the site across, and the river's index. */
  datatype Edge = Edge(site: nat, river: nat)

  /**
   * `Mirac`: rivers of other punters may be crossed with an option while
   * options are left and the river has no option holder; every river not
   * our own costs one. `Future`: rivers of other punters are never
   * crossed; free rivers cost one, our own nothing.
   */
  datatype Rule = Mirac(me: int, optionsLeft: nat) | Future(me: int)

  /** Crossing the river takes an option. */
  function NeedsOption(rule: Rule, r: RiverProto): bool
  {
    rule.Mirac? && r.punter != -1 && r.punter != rule.me
  }

  /** The costs a rule can produce. */
  predicate InRange(rule: Rule, c: Cost)
  {
    c.options >= 0 && c.rivers >= 0 &&
    (match rule
     case Mirac(_, left) => c.options <= left
     case Future(_) => c.options == 0)
  }

  /** The cost of reaching the site across `r` from a site reached at cost `c`; None: not crossable. */
  function Step(rule: Rule, c: Cost, r: RiverProto): (d: Option<Cost>)
    ensures d.Some? && InRange(rule, c) ==> InRange(rule, d.value) && Le(c, d.value)
  {
    match rule
    case Mirac(me, left) =>
      var need := r.punter != -1 && r.punter != me;
      if need && left - c.options == 0 then None
      else if need && r.optionPunter != -1 then None
      else Some(Cost(c.options + (if need then 1 else 0), c.rivers + (if r.punter != me then 1 else 0)))
    case Future(me) =>
      if r.punter != -1 && r.punter != me then None
      else Some(Cost(c.options, c.rivers + (if r.punter == -1 then 1 else 0)))
  }

  /** A cheaper start crosses whatever a dearer one crosses, and arrives no dearer. */
  lemma StepMonotone(rule: Rule, c: Cost, c': Cost, r: RiverProto)
    requires InRange(rule, c) && InRange(rule, c') && Le(c', c) && Step(rule, c, r).Some?
    ensures Step(rule, c', r).Some? && Le(Step(rule, c', r).value, Step(rule, c, r).value)
  {
  }

  /** A table entry: the cost, the site it was reached from, whether that crossing takes an option. */
  datatype Entry = Entry(options: int, rivers: int, prev: int, useOption: bool)

  const Unreached := Entry(-1, -1, -1, false)
  const Start := Entry(0, 0, -1, false)

  predicate Reached(e: Entry)
  {
    e.rivers != -1
  }

  function Label(e: Entry): Cost
  {
    Cost(e.options, e.rivers)
  }

  datatype Candidate = Candidate(cost: Cost, site: nat)

  /** The adjacency lists name sites and rivers that exist. */
  predicate Graph(n: nat, edges: seq<seq<Edge>>, rivers: seq<RiverProto>)
  {
    |edges| == n &&
    forall s, j :: 0 <= s < n && 0 <= j < |edges[s]| ==> edges[s][j].site < n && edges[s][j].river < |rivers|
  }

  /** Edge `j` of site `u`, left at cost `c`, arrives no cheaper than the table says. */
  ghost predicate RelaxedWith(rule: Rule, edges: seq<seq<Edge>>, rivers: seq<RiverProto>, col: seq<Entry>,
                              c: Cost, u: nat, j: nat)
    requires Graph(|col|, edges, rivers) && u < |col| && j < |edges[u]|
  {
    var e := edges[u][j];
    var d := Step(rule, c, rivers[e.river]);
    d.Some? ==> Reached(col[e.site]) && Le(Label(col[e.site]), d.value)
  }

  /** Every edge out of a done site is relaxed at that site's cost. */
  ghost predicate Relaxed(rule: Rule, edges: seq<seq<Edge>>, rivers: seq<RiverProto>, col: seq<Entry>, done: set<nat>)
    requires Graph(|col|, edges, rivers)
  {
    forall u, j :: u in done && u < |col| && 0 <= j < |edges[u]| ==>
      RelaxedWith(rule, edges, rivers, col, Label(col[u]), u, j)
  }

  /**
   * The final table is a fixpoint: no crossable river out of a reached
   * site leads anywhere more cheaply than the table says.
   */
  ghost predicate Settled(rule: Rule, edges: seq<seq<Edge>>, rivers: seq<RiverProto>, col: seq<Entry>)
    requires Graph(|col|, edges, rivers)
  {
    forall u, j :: 0 <= u < |col| && Reached(col[u]) && 0 <= j < |edges[u]| ==>
      RelaxedWith(rule, edges, rivers, col, Label(col[u]), u, j)
  }

  /** The mine starts at cost 0; every other reached site holds a cost the rule can produce; the rest are unreached. */
  ghost predicate Shape(rule: Rule, mine: nat, col: seq<Entry>)
  {
    mine < |col| && col[mine] == Start &&
    forall v :: 0 <= v < |col| ==>
      (Reached(col[v]) ==> InRange(rule, Label(col[v]))) && (!Reached(col[v]) ==> col[v] == Unreached)
  }

  /**
   * Site `v`'s back-pointer: a fixed site, earlier in `order` when `v`
   * is fixed too, with an edge `via[v]` to `v` whose crossing costs
   * exactly `v`'s cost, and the option flag of that crossing.
   */
  ghost predicate PointerOk(rule: Rule, edges: seq<seq<Edge>>, rivers: seq<RiverProto>, col: seq<Entry>,
                            fixed: set<nat>, order: seq<nat>, via: seq<nat>, v: nat)
    requires Graph(|col|, edges, rivers) && |order| == |col| && |via| == |col| && v < |col|
  {
    var p := col[v].prev;
    0 <= p < |col| && p in fixed && (v in fixed ==> order[p] < order[v]) &&
    via[v] < |edges[p]| && edges[p][via[v]].site == v &&
    Step(rule, Label(col[p]), rivers[edges[p][via[v]].river]) == Some(Label(col[v])) &&
    col[v].useOption == NeedsOption(rule, rivers[edges[p][via[v]].river])
  }

  ghost predicate Pointers(rule: Rule, edges: seq<seq<Edge>>, rivers: seq<RiverProto>, mine: nat, col: seq<Entry>,
                           fixed: set<nat>, order: seq<nat>, via: seq<nat>)
    requires Graph(|col|, edges, rivers) && |order| == |col| && |via| == |col|
  {
    forall v :: 0 <= v < |col| && Reached(col[v]) && v != mine ==> PointerOk(rule, edges, rivers, col, fixed, order, via, v)
  }

  /** The sites reached. */
  ghost function ReachedSet(col: seq<Entry>): set<nat>
  {
    set v | 0 <= v < |col| && Reached(col[v])
  }

  /** The back-pointers of the final table: every reached site but the mine points to an earlier reached site. */
  ghost predicate Tree(rule: Rule, edges: seq<seq<Edge>>, rivers: seq<RiverProto>, mine: nat, col: seq<Entry>,
                       order: seq<nat>, via: seq<nat>)
    requires Graph(|col|, edges, rivers)
  {
    |order| == |col| && |via| == |col| && Pointers(rule, edges, rivers, mine, col, ReachedSet(col), order, via)
  }

  // ---------------------------------------------------------------------
  // The search

  /** Every candidate names a reached site, no cheaper than the site's entry. */
  ghost predicate QueueOk(rule: Rule, col: seq<Entry>, queue: seq<Candidate>)
  {
    forall q :: q in queue ==>
      q.site < |col| && Reached(col[q.site]) && Le(Label(col[q.site]), q.cost) && InRange(rule, q.cost)
  }

  /** A reached site not yet done has its current cost waiting in the queue. */
  ghost predicate Pending(col: seq<Entry>, queue: seq<Candidate>, done: set<nat>)
  {
    forall v :: 0 <= v < |col| && Reached(col[v]) && v !in done ==> Candidate(Label(col[v]), v) in queue
  }

  /** Done sites cost no more than anything in the queue. */
  ghost predicate DoneBelow(col: seq<Entry>, queue: seq<Candidate>, done: set<nat>)
  {
    forall u, q :: u in done && u < |col| && q in queue ==> Le(Label(col[u]), q.cost)
  }

  /** What the loop of `Search` keeps. */
  ghost predicate SearchInv(rule: Rule, edges: seq<seq<Edge>>, rivers: seq<RiverProto>, mine: nat, col: seq<Entry>,
                            queue: seq<Candidate>, done: set<nat>, order: seq<nat>, via: seq<nat>, time: nat)
    requires Graph(|col|, edges, rivers)
  {
    Shape(rule, mine, col) && |order| == |col| && |via| == |col| &&
    (forall u :: u in done ==> u < |col| && Reached(col[u]) && order[u] < time) &&
    QueueOk(rule, col, queue) && Pending(col, queue, done) && DoneBelow(col, queue, done) &&
    Relaxed(rule, edges, rivers, col, done) && Pointers(rule, edges, rivers, mine, col, done, order, via)
  }

  ghost function NotDone(n: nat, done: set<nat>): set<nat>
  {
    set s | 0 <= s < n && s !in done
  }

  /** `Candidate::operator<` turned around: the top of the queue is the cheapest, the larger site on a tie. */
  predicate Before(a: Candidate, b: Candidate)
  {
    a.cost.options < b.cost.options ||
    (a.cost.options == b.cost.options && (a.cost.rivers < b.cost.rivers || (a.cost.rivers == b.cost.rivers && a.site >= b.site)))
  }

  /** `top` and `pop`: the first candidate that comes before all others, and the rest. */
  method PopTop(queue: seq<Candidate>) returns (c: Candidate, rest: seq<Candidate>)
    requires |queue| > 0
    ensures c in queue && |rest| == |queue| - 1
    ensures forall q :: q in queue ==> Before(c, q)
    ensures forall q :: q in rest ==> q in queue
    ensures forall q :: q in queue && q != c ==> q in rest
  {
    var best := 0;
    for i := 1 to |queue|
      invariant 0 <= best < |queue| && forall j :: 0 <= j < i ==> Before(queue[best], queue[j])
    {
      if !Before(queue[best], queue[i]) {
        best := i;
      }
    }
    c := queue[best];
    rest := queue[..best] + queue[best + 1..];
    forall q | q in queue && q != c ensures q in rest {
      var j :| 0 <= j < |queue| && queue[j] == q;
      if j < best {
        assert rest[j] == q;
      } else {
        assert rest[j - 1] == q;
      }
    }
  }

  /** Edges `0..k` of `u`, taken at cost `c`, are relaxed. */
  ghost predicate RelaxedUpTo(rule: Rule, edges: seq<seq<Edge>>, rivers: seq<RiverProto>, col: seq<Entry>,
                              c: Cost, u: nat, k: nat)
    requires Graph(|col|, edges, rivers) && u < |col| && k <= |edges[u]|
  {
    forall j :: 0 <= j < k ==> RelaxedWith(rule, edges, rivers, col, c, u, j)
  }

  /** What `Relax` may assume: the loop state of `Search` with candidate `c` just popped. */
  ghost predicate RelaxPre(rule: Rule, edges: seq<seq<Edge>>, rivers: seq<RiverProto>, mine: nat, col0: seq<Entry>,
                           queue0: seq<Candidate>, c: Candidate, done: set<nat>, order: seq<nat>, via0: seq<nat>)
  {
    Graph(|col0|, edges, rivers) && Shape(rule, mine, col0) && |order| == |col0| && |via0| == |col0| &&
    c.site < |col0| && Reached(col0[c.site]) && Le(Label(col0[c.site]), c.cost) && InRange(rule, c.cost) &&
    (forall u :: u in done ==> u < |col0| && Reached(col0[u]) && Le(Label(col0[u]), c.cost)) &&
    (c.site !in done ==> Label(col0[c.site]) == c.cost && forall u :: u in done ==> order[u] < order[c.site]) &&
    (forall q :: q in queue0 ==> Le(c.cost, q.cost)) &&
    QueueOk(rule, col0, queue0) && DoneBelow(col0, queue0, done) && Relaxed(rule, edges, rivers, col0, done) &&
    Pending(col0, queue0, done + {c.site}) && Pointers(rule, edges, rivers, mine, col0, done, order, via0)
  }

  /** What the loop of `Relax` keeps, after `k` edges. */
  ghost predicate RelaxInv(rule: Rule, edges: seq<seq<Edge>>, rivers: seq<RiverProto>, mine: nat, col0: seq<Entry>,
                           queue0: seq<Candidate>, c: Candidate, done: set<nat>, order: seq<nat>, via0: seq<nat>,
                           col: seq<Entry>, queue: seq<Candidate>, via: seq<nat>, k: nat)
    requires RelaxPre(rule, edges, rivers, mine, col0, queue0, c, done, order, via0)
  {
    |col| == |col0| && |via| == |col0| && k <= |edges[c.site]| && Shape(rule, mine, col) &&
    (c.site in done ==> col == col0 && queue == queue0 && via == via0) &&
    (forall u :: u in done + {c.site} ==> col[u] == col0[u]) &&
    (forall v :: 0 <= v < |col| && Reached(col0[v]) ==> Reached(col[v]) && Le(Label(col[v]), Label(col0[v]))) &&
    QueueOk(rule, col, queue) && DoneBelow(col, queue, done) && Relaxed(rule, edges, rivers, col, done) &&
    (forall q :: q in queue ==> Le(c.cost, q.cost)) &&
    Pending(col, queue, done + {c.site}) && Pointers(rule, edges, rivers, mine, col, done + {c.site}, order, via) &&
    RelaxedUpTo(rule, edges, rivers, col, c.cost, c.site, k)
  }

  lemma RelaxStart(rule: Rule, edges: seq<seq<Edge>>, rivers: seq<RiverProto>, mine: nat, col0: seq<Entry>,
                   queue0: seq<Candidate>, c: Candidate, done: set<nat>, order: seq<nat>, via0: seq<nat>)
    requires RelaxPre(rule, edges, rivers, mine, col0, queue0, c, done, order, via0)
    ensures RelaxInv(rule, edges, rivers, mine, col0, queue0, c, done, order, via0, col0, queue0, via0, 0)
  {
    var fixed := done + {c.site};
    forall v | 0 <= v < |col0| && Reached(col0[v]) && v != mine
      ensures PointerOk(rule, edges, rivers, col0, fixed, order, via0, v)
    {
      assert PointerOk(rule, edges, rivers, col0, done, order, via0, v);
    }
  }

  /** A river that improves nothing leaves the loop state as it was. */
  lemma RelaxSkip(rule: Rule, edges: seq<seq<Edge>>, rivers: seq<RiverProto>, mine: nat, col0: seq<Entry>,
                  queue0: seq<Candidate>, c: Candidate, done: set<nat>, order: seq<nat>, via0: seq<nat>,
                  col: seq<Entry>, queue: seq<Candidate>, via: seq<nat>, k: nat)
    requires RelaxPre(rule, edges, rivers, mine, col0, queue0, c, done, order, via0)
    requires RelaxInv(rule, edges, rivers, mine, col0, queue0, c, done, order, via0, col, queue, via, k)
    requires k < |edges[c.site]| && RelaxedWith(rule, edges, rivers, col, c.cost, c.site, k)
    ensures RelaxInv(rule, edges, rivers, mine, col0, queue0, c, done, order, via0, col, queue, via, k + 1)
  {
  }

  /** A river that improves its far end: the entry is rewritten and a candidate pushed, keeping the loop state. */
  lemma RelaxUpdate(rule: Rule, edges: seq<seq<Edge>>, rivers: seq<RiverProto>, mine: nat, col0: seq<Entry>,
                    queue0: seq<Candidate>, c: Candidate, done: set<nat>, order: seq<nat>, via0: seq<nat>,
                    col: seq<Entry>, queue: seq<Candidate>, via: seq<nat>, k: nat)
    requires RelaxPre(rule, edges, rivers, mine, col0, queue0, c, done, order, via0)
    requires RelaxInv(rule, edges, rivers, mine, col0, queue0, c, done, order, via0, col, queue, via, k)
    requires k < |edges[c.site]| && !RelaxedWith(rule, edges, rivers, col, c.cost, c.site, k)
    ensures var e := edges[c.site][k];
      var d := Step(rule, c.cost, rivers[e.river]).value;
      var col' := col[e.site := Entry(d.options, d.rivers, c.site, NeedsOption(rule, rivers[e.river]))];
      RelaxInv(rule, edges, rivers, mine, col0, queue0, c, done, order, via0,
               col', queue + [Candidate(d, e.site)], via[e.site := k], k + 1)
  {
    var s := c.site;
    var e := edges[s][k];
    var r := rivers[e.river];
    var d := Step(rule, c.cost, r).value;
    var t := e.site;
    var fixed := done + {s};
    var entry := Entry(d.options, d.rivers, s, NeedsOption(rule, r));
    var col' := col[t := entry];
    var queue' := queue + [Candidate(d, t)];
    var via' := via[t := k];
    assert forall u :: u in done ==> col[u] == col0[u];
    UpdateFacts(rule, edges, rivers, mine, col, c, done, k);
    UpdateQueueOk(rule, col, queue, t, entry);
    UpdateRelaxed(rule, edges, rivers, col, done, t, entry);
    UpdateUpTo(rule, edges, rivers, col, c.cost, s, k, t, entry);
    UpdatePointers(rule, edges, rivers, mine, col, fixed, order, via, s, k, entry);
    UpdatePending(col, queue, fixed, t, entry);
    UpdateRest(rule, edges, rivers, mine, col0, queue0, c, done, order, via0, col, queue, via, t, entry);
  }

  /** The far end of an improving river is neither done, nor the popped site, nor the mine. */
  lemma UpdateFacts(rule: Rule, edges: seq<seq<Edge>>, rivers: seq<RiverProto>, mine: nat, col: seq<Entry>,
                    c: Candidate, done: set<nat>, k: nat)
    requires Graph(|col|, edges, rivers) && Shape(rule, mine, col) && c.site < |col| && k < |edges[c.site]|
    requires Reached(col[c.site]) && Le(Label(col[c.site]), c.cost) && InRange(rule, c.cost)
    requires c.site !in done ==> Label(col[c.site]) == c.cost
    requires forall u :: u in done ==> u < |col| && Reached(col[u]) && Le(Label(col[u]), c.cost)
    requires Relaxed(rule, edges, rivers, col, done)
    requires !RelaxedWith(rule, edges, rivers, col, c.cost, c.site, k)
    ensures var e := edges[c.site][k];
      var d := Step(rule, c.cost, rivers[e.river]);
      d.Some? && c.site !in done && Label(col[c.site]) == c.cost && e.site !in done + {c.site} && e.site != mine &&
      InRange(rule, d.value) && Le(c.cost, d.value) && (Reached(col[e.site]) ==> Le(d.value, Label(col[e.site]))) &&
      Shape(rule, mine, col[e.site := Entry(d.value.options, d.value.rivers, c.site, NeedsOption(rule, rivers[e.river]))])
  {
    var s := c.site;
    var e := edges[s][k];
    var d := Step(rule, c.cost, rivers[e.river]).value;
    var t := e.site;
    if s in done {
      NoUpdateFromDone(rule, edges, rivers, col, c, k, done);
      assert false;
    }
    assert Label(col[s]) == c.cost;
    assert t !in done;
    assert t != mine by {
      assert Label(col[mine]) == Cost(0, 0);
    }
  }

  /** The conjuncts of the loop state `RelaxUpdate` does not get from the other update lemmas. */
  lemma UpdateRest(rule: Rule, edges: seq<seq<Edge>>, rivers: seq<RiverProto>, mine: nat, col0: seq<Entry>,
                   queue0: seq<Candidate>, c: Candidate, done: set<nat>, order: seq<nat>, via0: seq<nat>,
                   col: seq<Entry>, queue: seq<Candidate>, via: seq<nat>, t: nat, entry: Entry)
    requires RelaxPre(rule, edges, rivers, mine, col0, queue0, c, done, order, via0)
    requires |col| == |col0| && t < |col| && t !in done + {c.site}
    requires forall u :: u in done + {c.site} ==> col[u] == col0[u]
    requires forall v :: 0 <= v < |col| && Reached(col0[v]) ==> Reached(col[v]) && Le(Label(col[v]), Label(col0[v]))
    requires DoneBelow(col, queue, done) && (forall q :: q in queue ==> Le(c.cost, q.cost))
    requires Reached(entry) && Le(c.cost, Label(entry)) && (Reached(col[t]) ==> Le(Label(entry), Label(col[t])))
    ensures forall u :: u in done + {c.site} ==> col[t := entry][u] == col0[u]
    ensures forall v :: 0 <= v < |col| && Reached(col0[v]) ==> Reached(col[t := entry][v]) && Le(Label(col[t := entry][v]), Label(col0[v]))
    ensures DoneBelow(col[t := entry], queue + [Candidate(Label(entry), t)], done)
    ensures forall q :: q in queue + [Candidate(Label(entry), t)] ==> Le(c.cost, q.cost)
  {
    var col' := col[t := entry];
    var queue' := queue + [Candidate(Label(entry), t)];
    forall u, q | u in done && u < |col'| && q in queue' ensures Le(Label(col'[u]), q.cost) {
      if q in queue {
        assert Le(Label(col[u]), q.cost);
      } else {
        assert Le(Label(col0[u]), c.cost);
      }
    }
  }

  lemma UpdateQueueOk(rule: Rule, col: seq<Entry>, queue: seq<Candidate>, t: nat, entry: Entry)
    requires QueueOk(rule, col, queue) && t < |col| && Reached(entry) && InRange(rule, Label(entry))
    requires Reached(col[t]) ==> Le(Label(entry), Label(col[t]))
    ensures QueueOk(rule, col[t := entry], queue + [Candidate(Label(entry), t)])
  {
    var col' := col[t := entry];
    forall q | q in queue + [Candidate(Label(entry), t)]
      ensures q.site < |col'| && Reached(col'[q.site]) && Le(Label(col'[q.site]), q.cost) && InRange(rule, q.cost)
    {
      if q in queue {
        assert Le(Label(col[q.site]), q.cost);
      }
    }
  }

  lemma UpdateRelaxed(rule: Rule, edges: seq<seq<Edge>>, rivers: seq<RiverProto>, col: seq<Entry>, done: set<nat>,
                      t: nat, entry: Entry)
    requires Graph(|col|, edges, rivers) && Relaxed(rule, edges, rivers, col, done) && t < |col| && t !in done
    requires Reached(entry) && (Reached(col[t]) ==> Le(Label(entry), Label(col[t])))
    ensures Relaxed(rule, edges, rivers, col[t := entry], done)
  {
    var col' := col[t := entry];
    forall u, j | u in done && u < |col'| && 0 <= j < |edges[u]|
      ensures RelaxedWith(rule, edges, rivers, col', Label(col'[u]), u, j)
    {
      assert RelaxedWith(rule, edges, rivers, col, Label(col[u]), u, j);
    }
  }

  lemma UpdateUpTo(rule: Rule, edges: seq<seq<Edge>>, rivers: seq<RiverProto>, col: seq<Entry>, c: Cost,
                   s: nat, k: nat, t: nat, entry: Entry)
    requires Graph(|col|, edges, rivers) && s < |col| && k < |edges[s]| && t == edges[s][k].site
    requires RelaxedUpTo(rule, edges, rivers, col, c, s, k)
    requires Step(rule, c, rivers[edges[s][k].river]) == Some(Label(entry)) && Reached(entry)
    requires Reached(col[t]) ==> Le(Label(entry), Label(col[t]))
    ensures RelaxedUpTo(rule, edges, rivers, col[t := entry], c, s, k + 1)
  {
    var col' := col[t := entry];
    forall j | 0 <= j < k + 1 ensures RelaxedWith(rule, edges, rivers, col', c, s, j) {
      if j < k {
        assert RelaxedWith(rule, edges, rivers, col, c, s, j);
      }
    }
  }

  lemma UpdatePointers(rule: Rule, edges: seq<seq<Edge>>, rivers: seq<RiverProto>, mine: nat, col: seq<Entry>,
                       fixed: set<nat>, order: seq<nat>, via: seq<nat>, s: nat, k: nat, entry: Entry)
    requires Graph(|col|, edges, rivers) && |order| == |col| && |via| == |col| && s < |col| && k < |edges[s]|
    requires Pointers(rule, edges, rivers, mine, col, fixed, order, via)
    requires s in fixed && edges[s][k].site !in fixed
    requires entry.prev == s && Step(rule, Label(col[s]), rivers[edges[s][k].river]) == Some(Label(entry))
    requires entry.useOption == NeedsOption(rule, rivers[edges[s][k].river])
    ensures Pointers(rule, edges, rivers, mine, col[edges[s][k].site := entry], fixed, order, via[edges[s][k].site := k])
  {
    var t := edges[s][k].site;
    var col' := col[t := entry];
    var via' := via[t := k];
    forall v | 0 <= v < |col'| && Reached(col'[v]) && v != mine
      ensures PointerOk(rule, edges, rivers, col', fixed, order, via', v)
    {
      if v != t {
        assert PointerOk(rule, edges, rivers, col, fixed, order, via, v);
        assert col'[col[v].prev] == col[col[v].prev];
      }
    }
  }

  lemma UpdatePending(col: seq<Entry>, queue: seq<Candidate>, fixed: set<nat>, t: nat, entry: Entry)
    requires Pending(col, queue, fixed) && t < |col|
    ensures Pending(col[t := entry], queue + [Candidate(Label(entry), t)], fixed)
  {
    var col' := col[t := entry];
    forall v | 0 <= v < |col'| && Reached(col'[v]) && v !in fixed
      ensures Candidate(Label(col'[v]), v) in queue + [Candidate(Label(entry), t)]
    {
      if v != t {
        assert Candidate(Label(col[v]), v) in queue;
      }
    }
  }

  /**
   * The relaxation loop over the popped site's edges. A candidate of a
   * done site changes nothing; otherwise its cost is the site's own, the
   * site becomes done, and every edge out of it is relaxed.
   */
  method Relax(rule: Rule, edges: seq<seq<Edge>>, rivers: seq<RiverProto>, mine: nat, col0: seq<Entry>,
               queue0: seq<Candidate>, c: Candidate, ghost done: set<nat>, ghost order: seq<nat>, ghost via0: seq<nat>)
    returns (col: seq<Entry>, queue: seq<Candidate>, ghost via: seq<nat>)
    requires RelaxPre(rule, edges, rivers, mine, col0, queue0, c, done, order, via0)
    ensures RelaxInv(rule, edges, rivers, mine, col0, queue0, c, done, order, via0, col, queue, via, |edges[c.site]|)
  {
    var s := c.site;
    col, queue, via := col0, queue0, via0;
    RelaxStart(rule, edges, rivers, mine, col0, queue0, c, done, order, via0);
    for k := 0 to |edges[s]|
      invariant RelaxInv(rule, edges, rivers, mine, col0, queue0, c, done, order, via0, col, queue, via, k)
    {
      var e := edges[s][k];
      var d := Step(rule, c.cost, rivers[e.river]);
      if d.None? {
        RelaxSkip(rule, edges, rivers, mine, col0, queue0, c, done, order, via0, col, queue, via, k);
        continue;
      }
      var t := e.site;
      if Reached(col[t]) && Le(Label(col[t]), d.value) {
        RelaxSkip(rule, edges, rivers, mine, col0, queue0, c, done, order, via0, col, queue, via, k);
        continue;
      }
      RelaxUpdate(rule, edges, rivers, mine, col0, queue0, c, done, order, via0, col, queue, via, k);
      col := col[t := Entry(d.value.options, d.value.rivers, s, NeedsOption(rule, rivers[e.river]))];
      queue := queue + [Candidate(d.value, t)];
      via := via[t := k];
    }
  }

  /** An edge of a done site, taken at any cost no cheaper than the site's, improves nothing. */
  lemma NoUpdateFromDone(rule: Rule, edges: seq<seq<Edge>>, rivers: seq<RiverProto>, col: seq<Entry>,
                         c: Candidate, k: nat, done: set<nat>)
    requires Graph(|col|, edges, rivers) && c.site < |col| && k < |edges[c.site]|
    requires c.site in done && Relaxed(rule, edges, rivers, col, done)
    requires Reached(col[c.site]) && InRange(rule, Label(col[c.site])) && Le(Label(col[c.site]), c.cost) && InRange(rule, c.cost)
    ensures RelaxedWith(rule, edges, rivers, col, c.cost, c.site, k)
  {
    var r := rivers[edges[c.site][k].river];
    if Step(rule, c.cost, r).Some? {
      StepMonotone(rule, c.cost, Label(col[c.site]), r);
      assert RelaxedWith(rule, edges, rivers, col, Label(col[c.site]), c.site, k);
    }
  }

  /** The state after a pop, with the popped site numbered next, is what `Relax` assumes. */
  lemma PopKeeps(rule: Rule, edges: seq<seq<Edge>>, rivers: seq<RiverProto>, mine: nat, col: seq<Entry>,
                 queue: seq<Candidate>, done: set<nat>, order: seq<nat>, via: seq<nat>, time: nat,
                 c: Candidate, rest: seq<Candidate>)
    requires Graph(|col|, edges, rivers) && SearchInv(rule, edges, rivers, mine, col, queue, done, order, via, time)
    requires c in queue && (forall q :: q in queue ==> Before(c, q))
    requires (forall q :: q in rest ==> q in queue) && (forall q :: q in queue && q != c ==> q in rest)
    ensures var order' := if c.site in done then order else order[c.site := time];
      RelaxPre(rule, edges, rivers, mine, col, rest, c, done, order', via)
  {
    var s := c.site;
    var order' := if s in done then order else order[s := time];
    forall v | 0 <= v < |col| && Reached(col[v]) && v != mine
      ensures PointerOk(rule, edges, rivers, col, done, order', via, v)
    {
      assert PointerOk(rule, edges, rivers, col, done, order, via, v);
    }
    forall v | 0 <= v < |col| && Reached(col[v]) && v !in done + {s}
      ensures Candidate(Label(col[v]), v) in rest
    {
      assert Candidate(Label(col[v]), v) in queue;
    }
  }

  /** After `Relax`, the popped site is done and the loop state of `Search` holds again. */
  lemma RelaxKeeps(rule: Rule, edges: seq<seq<Edge>>, rivers: seq<RiverProto>, mine: nat, col0: seq<Entry>,
                   queue0: seq<Candidate>, c: Candidate, done: set<nat>, order: seq<nat>, via0: seq<nat>,
                   col: seq<Entry>, queue: seq<Candidate>, via: seq<nat>, time: nat)
    requires RelaxPre(rule, edges, rivers, mine, col0, queue0, c, done, order, via0)
    requires RelaxInv(rule, edges, rivers, mine, col0, queue0, c, done, order, via0, col, queue, via, |edges[c.site]|)
    requires forall u :: u in done + {c.site} ==> order[u] < time
    ensures Graph(|col|, edges, rivers) && SearchInv(rule, edges, rivers, mine, col, queue, done + {c.site}, order, via, time)
  {
    var s := c.site;
    forall u, q | u in done + {s} && u < |col| && q in queue ensures Le(Label(col[u]), q.cost) {
      if u == s {
        assert Le(c.cost, q.cost);
      }
    }
    forall u, j | u in done + {s} && u < |col| && 0 <= j < |edges[u]|
      ensures RelaxedWith(rule, edges, rivers, col, Label(col[u]), u, j)
    {
      if u !in done {
        assert RelaxedWith(rule, edges, rivers, col, c.cost, s, j);
      }
    }
  }

  /** With the queue empty, the done sites are the reached ones: the table is settled and its pointers form a tree. */
  lemma SearchEnds(rule: Rule, edges: seq<seq<Edge>>, rivers: seq<RiverProto>, mine: nat, col: seq<Entry>,
                   done: set<nat>, order: seq<nat>, via: seq<nat>, time: nat)
    requires Graph(|col|, edges, rivers) && SearchInv(rule, edges, rivers, mine, col, [], done, order, via, time)
    ensures Settled(rule, edges, rivers, col) && Tree(rule, edges, rivers, mine, col, order, via)
  {
    assert done == ReachedSet(col);
  }

  lemma NotDoneShrinks(n: nat, done: set<nat>, s: nat)
    requires s < n && s !in done
    ensures NotDone(n, done + {s}) < NotDone(n, done)
  {
    assert s in NotDone(n, done);
  }

  /** One turn of the loop of `Search`: pop the top candidate and relax its site's edges. */
  method SearchStep(rule: Rule, n: nat, edges: seq<seq<Edge>>, rivers: seq<RiverProto>, mine: nat,
                    col: seq<Entry>, queue: seq<Candidate>, ghost done: set<nat>, ghost order: seq<nat>,
                    ghost via: seq<nat>, ghost time: nat)
    returns (col': seq<Entry>, queue': seq<Candidate>, ghost done': set<nat>, ghost order': seq<nat>,
             ghost via': seq<nat>, ghost time': nat)
    requires Graph(n, edges, rivers) && |col| == n && |queue| > 0
    requires SearchInv(rule, edges, rivers, mine, col, queue, done, order, via, time)
    ensures |col'| == n && SearchInv(rule, edges, rivers, mine, col', queue', done', order', via', time')
    ensures NotDone(n, done') < NotDone(n, done) || (done' == done && |queue'| < |queue|)
  {
    var c, rest := PopTop(queue);
    PopKeeps(rule, edges, rivers, mine, col, queue, done, order, via, time, c, rest);
    order', time' := order, time;
    if c.site !in done {
      order', time' := order[c.site := time], time + 1;
    }
    ghost var via0 := via;
    col', queue', via' := Relax(rule, edges, rivers, mine, col, rest, c, done, order', via);
    RelaxKeeps(rule, edges, rivers, mine, col, rest, c, done, order', via0, col', queue', via', time');
    done' := done + {c.site};
    if c.site !in done {
      NotDoneShrinks(n, done, c.site);
    } else {
      assert done' == done;
    }
  }

  /** The column before the loop: every site unreached but the mine. */
  function StartColumn(n: nat, mine: nat): (col: seq<Entry>)
    requires mine < n
    ensures |col| == n && col[mine] == Start && forall v :: 0 <= v < n && v != mine ==> col[v] == Unreached
  {
    seq(n, _ => Unreached)[mine := Start]
  }

  lemma SearchStarts(rule: Rule, n: nat, edges: seq<seq<Edge>>, rivers: seq<RiverProto>, mine: nat)
    requires Graph(n, edges, rivers) && mine < n
    ensures SearchInv(rule, edges, rivers, mine, StartColumn(n, mine), [Candidate(Cost(0, 0), mine)], {},
                      seq(n, _ => 0), seq(n, _ => 0), 0)
  {
    var col := StartColumn(n, mine);
    assert forall v :: 0 <= v < n && Reached(col[v]) ==> v == mine;
  }

  /**
   * One mine's column of the cost table: the priority-queue loop from
   * the mine. It ends, and leaves a settled table whose back-pointers
   * lead every reached site to the mine.
   */
  method Search(rule: Rule, n: nat, edges: seq<seq<Edge>>, rivers: seq<RiverProto>, mine: nat)
    returns (col: seq<Entry>, ghost order: seq<nat>, ghost via: seq<nat>)
    requires Graph(n, edges, rivers) && mine < n
    ensures |col| == n && Shape(rule, mine, col)
    ensures Settled(rule, edges, rivers, col) && Tree(rule, edges, rivers, mine, col, order, via)
  {
    col := StartColumn(n, mine);
    var queue := [Candidate(Cost(0, 0), mine)];
    ghost var done: set<nat> := {};
    order, via := seq(n, _ => 0), seq(n, _ => 0);
    ghost var time: nat := 0;
    SearchStarts(rule, n, edges, rivers, mine);
    while |queue| > 0
      invariant |col| == n && SearchInv(rule, edges, rivers, mine, col, queue, done, order, via, time)
      decreases NotDone(n, done), |queue|
    {
      ghost var done0, queue0 := done, queue;
      col, queue, done, order, via, time := SearchStep(rule, n, edges, rivers, mine, col, queue, done, order, via, time);
      if done == done0 {
        assert |queue| < |queue0|;
      }
    }
    SearchEnds(rule, edges, rivers, mine, col, done, order, via, time);
  }

  // ---------------------------------------------------------------------
  // What the table means

  /**
   * Crossing the edges numbered `steps`, one per site, from site `u`
   * reached at cost `c`: the cost and the site it ends at, or None when
   * an edge does not exist or its river cannot be crossed.
   */
  function Follow(rule: Rule, edges: seq<seq<Edge>>, rivers: seq<RiverProto>, c: Cost, u: nat, steps: seq<nat>)
    : (r: Option<(Cost, nat)>)
    requires Graph(|edges|, edges, rivers) && u < |edges|
    ensures r.Some? ==> r.value.1 < |edges|
    ensures r.Some? && InRange(rule, c) ==> InRange(rule, r.value.0)
    decreases |steps|
  {
    if steps == [] then Some((c, u))
    else if steps[0] >= |edges[u]| then None
    else
      var e := edges[u][steps[0]];
      var d := Step(rule, c, rivers[e.river]);
      if d.None? then None else Follow(rule, edges, rivers, d.value, e.site, steps[1..])
  }

  /** One more edge at the end of a path is one more step from where the path ends. */
  lemma {:induction false} FollowAppend(rule: Rule, edges: seq<seq<Edge>>, rivers: seq<RiverProto>, c: Cost, u: nat,
                                        steps: seq<nat>, j: nat)
    requires Graph(|edges|, edges, rivers) && u < |edges|
    requires Follow(rule, edges, rivers, c, u, steps).Some?
    requires j < |edges[Follow(rule, edges, rivers, c, u, steps).value.1]|
    ensures var (d, w) := Follow(rule, edges, rivers, c, u, steps).value;
      var d' := Step(rule, d, rivers[edges[w][j].river]);
      d'.Some? ==> Follow(rule, edges, rivers, c, u, steps + [j]) == Some((d'.value, edges[w][j].site))
    decreases |steps|
  {
    if steps != [] {
      var e := edges[u][steps[0]];
      var d := Step(rule, c, rivers[e.river]).value;
      assert (steps + [j])[1..] == steps[1..] + [j];
      FollowAppend(rule, edges, rivers, d, e.site, steps[1..], j);
    }
  }

  /** The back-pointers give every reached site a path from the mine that costs exactly its entry. */
  lemma {:induction false} TreePath(rule: Rule, edges: seq<seq<Edge>>, rivers: seq<RiverProto>, mine: nat, col: seq<Entry>,
                                    order: seq<nat>, via: seq<nat>, v: nat) returns (steps: seq<nat>)
    requires Graph(|col|, edges, rivers) && Shape(rule, mine, col) && Tree(rule, edges, rivers, mine, col, order, via)
    requires v < |col| && Reached(col[v])
    ensures Follow(rule, edges, rivers, Cost(0, 0), mine, steps) == Some((Label(col[v]), v))
    decreases order[v]
  {
    if v == mine {
      steps := [];
    } else {
      assert v in ReachedSet(col);
      assert PointerOk(rule, edges, rivers, col, ReachedSet(col), order, via, v);
      var p := col[v].prev;
      var ps := TreePath(rule, edges, rivers, mine, col, order, via, p);
      FollowAppend(rule, edges, rivers, Cost(0, 0), mine, ps, via[v]);
      steps := ps + [via[v]];
    }
  }

  /** In a settled table, no path from a reached site, started no cheaper than its entry, arrives cheaper than the table says. */
  lemma {:induction false} SettledBound(rule: Rule, edges: seq<seq<Edge>>, rivers: seq<RiverProto>, mine: nat, col: seq<Entry>,
                                        u: nat, c: Cost, steps: seq<nat>)
    requires Graph(|col|, edges, rivers) && Shape(rule, mine, col) && Settled(rule, edges, rivers, col)
    requires u < |col| && Reached(col[u]) && Le(Label(col[u]), c) && InRange(rule, c)
    requires Follow(rule, edges, rivers, c, u, steps).Some?
    ensures var (d, v) := Follow(rule, edges, rivers, c, u, steps).value;
      Reached(col[v]) && Le(Label(col[v]), d)
    decreases |steps|
  {
    if steps != [] {
      var e := edges[u][steps[0]];
      var r := rivers[e.river];
      var d := Step(rule, c, r).value;
      StepMonotone(rule, c, Label(col[u]), r);
      assert RelaxedWith(rule, edges, rivers, col, Label(col[u]), u, steps[0]);
      SettledBound(rule, edges, rivers, mine, col, e.site, d, steps[1..]);
    }
  }

  /**
   * What `Search` computes: a site is reached exactly when some path from
   * the mine can cross to it, and its entry is the least cost of such a
   * path, attained by the path the back-pointers trace.
   */
  lemma Cheapest(rule: Rule, edges: seq<seq<Edge>>, rivers: seq<RiverProto>, mine: nat, col: seq<Entry>,
                 order: seq<nat>, via: seq<nat>, v: nat, steps: seq<nat>)
    requires Graph(|col|, edges, rivers) && Shape(rule, mine, col)
    requires Settled(rule, edges, rivers, col) && Tree(rule, edges, rivers, mine, col, order, via)
    requires v < |col|
    ensures var r := Follow(rule, edges, rivers, Cost(0, 0), mine, steps);
      r.Some? && r.value.1 == v ==> Reached(col[v]) && Le(Label(col[v]), r.value.0)
    ensures Reached(col[v]) ==> exists path :: Follow(rule, edges, rivers, Cost(0, 0), mine, path) == Some((Label(col[v]), v))
  {
    if Follow(rule, edges, rivers, Cost(0, 0), mine, steps).Some? {
      SettledBound(rule, edges, rivers, mine, col, mine, Cost(0, 0), steps);
    }
    if Reached(col[v]) {
      var path := TreePath(rule, edges, rivers, mine, col, order, via, v);
    }
  }

  // ---------------------------------------------------------------------
  // The move

  /** The river of edge `j` of site `pos` leads to `next` and may be taken as the move says. */
  ghost predicate Crosses(rule: Rule, edges: seq<seq<Edge>>, rivers: seq<RiverProto>, pos: nat, j: nat, next: nat,
                          useOption: bool)
    requires Graph(|edges|, edges, rivers) && pos < |edges| && j < |edges[pos]|
  {
    var r := rivers[edges[pos][j].river];
    edges[pos][j].site == next &&
    (useOption ==> rule.Mirac? && r.punter != -1 && r.punter != rule.me && r.optionPunter == -1) &&
    (!useOption ==> r.punter == -1)
  }

  /** A crossing from a site with no rivers to claim to one with some is a free river, or an option on another's. */
  lemma FirstStepCrosses(rule: Rule, edges: seq<seq<Edge>>, rivers: seq<RiverProto>, mine: nat, col: seq<Entry>,
                         order: seq<nat>, via: seq<nat>, v: nat)
    requires Graph(|col|, edges, rivers) && Shape(rule, mine, col) && Tree(rule, edges, rivers, mine, col, order, via)
    requires v < |col| && Reached(col[v]) && col[v].rivers != 0 && 0 <= col[v].prev < |col| && col[col[v].prev].rivers == 0
    ensures col[v].rivers == 1 && via[v] < |edges[col[v].prev]|
    ensures Crosses(rule, edges, rivers, col[v].prev, via[v], v, col[v].useOption)
    ensures col[v].useOption ==> rule.Mirac? && col[col[v].prev].options < rule.optionsLeft
  {
    assert v != mine;
    assert PointerOk(rule, edges, rivers, col, ReachedSet(col), order, via, v);
  }

  /** Each site of `path` but the last still counts rivers to claim, and points to the next. */
  ghost predicate Chain(col: seq<Entry>, path: seq<nat>)
  {
    forall i :: 0 <= i < |path| - 1 ==> path[i] < |col| && col[path[i]].prev == path[i + 1] && col[path[i]].rivers != 0
  }

  /** The loop state of `Walk`: at `pos`, having stepped back from `prev` (-1: not yet). */
  ghost predicate WalkInv(col: seq<Entry>, start: nat, pos: nat, prev: int, useOption: bool, path: seq<nat>)
  {
    pos < |col| && Reached(col[pos]) && Chain(col, path) &&
    (prev == -1 ==> pos == start && path == []) &&
    (prev != -1 ==>
      0 <= prev < |col| && col[prev].rivers != 0 && col[prev].prev == pos && useOption == col[prev].useOption &&
      |path| > 0 && path[0] == start && path[|path| - 1] == prev)
  }

  /** One step back from a site that still counts rivers lands on a reached site earlier in `order`. */
  lemma WalkStep(rule: Rule, edges: seq<seq<Edge>>, rivers: seq<RiverProto>, mine: nat, col: seq<Entry>,
                 order: seq<nat>, via: seq<nat>, start: nat, pos: nat, prev: int, useOption: bool, path: seq<nat>)
    requires Graph(|col|, edges, rivers) && Shape(rule, mine, col) && Tree(rule, edges, rivers, mine, col, order, via)
    requires WalkInv(col, start, pos, prev, useOption, path) && col[pos].rivers != 0
    ensures 0 <= col[pos].prev < |col| && order[col[pos].prev] < order[pos]
    ensures WalkInv(col, start, col[pos].prev, pos, col[pos].useOption, path + [pos])
  {
    assert pos != mine && pos in ReachedSet(col);
    assert PointerOk(rule, edges, rivers, col, ReachedSet(col), order, via, pos);
    assert col[pos].prev in ReachedSet(col);
    var path' := path + [pos];
    forall i | 0 <= i < |path'| - 1
      ensures path'[i] < |col| && col[path'[i]].prev == path'[i + 1] && col[path'[i]].rivers != 0
    {
      if i < |path| - 1 {
        assert path'[i] == path[i] && path'[i + 1] == path[i + 1];
      }
    }
  }

  /**
   * The back-walk: from `start`, follow back-pointers while the entry
   * still counts rivers to claim. It ends at the first site on the way
   * whose count is 0, with the site it stepped back from; `path` is the
   * walk, `start` first.
   */
  method Walk(rule: Rule, edges: seq<seq<Edge>>, rivers: seq<RiverProto>, mine: nat, col: seq<Entry>,
              ghost order: seq<nat>, ghost via: seq<nat>, start: nat)
    returns (pos: nat, prevPos: nat, useOption: bool, ghost path: seq<nat>)
    requires Graph(|col|, edges, rivers) && Shape(rule, mine, col) && Tree(rule, edges, rivers, mine, col, order, via)
    requires start < |col| && Reached(col[start]) && col[start].rivers != 0
    ensures pos < |col| && prevPos < |col| && Reached(col[pos]) && col[pos].rivers == 0
    ensures col[prevPos].rivers == 1 && col[prevPos].prev == pos && useOption == col[prevPos].useOption
    ensures via[prevPos] < |edges[pos]| && Crosses(rule, edges, rivers, pos, via[prevPos], prevPos, useOption)
    ensures useOption ==> rule.Mirac? && col[pos].options < rule.optionsLeft
    ensures |path| > 0 && path[0] == start && path[|path| - 1] == prevPos && Chain(col, path)
  {
    var prev: int := -1;
    pos, useOption, path := start, false, [];
    while col[pos].rivers != 0
      invariant WalkInv(col, start, pos, prev, useOption, path)
      decreases order[pos]
    {
      WalkStep(rule, edges, rivers, mine, col, order, via, start, pos, prev, useOption, path);
      prev, useOption, path := pos, col[pos].useOption, path + [pos];
      pos := col[pos].prev;
    }
    prevPos := prev;
    FirstStepCrosses(rule, edges, rivers, mine, col, order, via, prevPos);
  }

  // ---------------------------------------------------------------------
  // The punters' view of the game

  /**
   * What both punters read from their base class: their own id, the
   * number of sites, the mines (sites are numbered by index), each site's
   * adjacency list, and the rivers with owner and option holder.
   */
  datatype Board = Board(me: int, n: nat, mines: seq<nat>, edges: seq<seq<Edge>>, rivers: seq<RiverProto>)

  predicate Ends(r: RiverProto, a: int, b: int)
  {
    (r.source == a && r.target == b) || (r.source == b && r.target == a)
  }

  /** The adjacency lists hold every mine's site, and each entry names a river between the two sites. */
  predicate BoardOk(b: Board)
  {
    Graph(b.n, b.edges, b.rivers) &&
    (forall k :: 0 <= k < |b.mines| ==> b.mines[k] < b.n) &&
    forall s, j :: 0 <= s < b.n && 0 <= j < |b.edges[s]| ==> Ends(b.rivers[b.edges[s][j].river], s, b.edges[s][j].site)
  }

  /** A move the game accepts from `me`: a claim of a free river, or an option on another punter's river that has none. */
  ghost predicate Legal(me: int, rivers: seq<RiverProto>, m: GameMove)
  {
    m.punter == me && m.route == [] &&
    exists i :: 0 <= i < |rivers| && Ends(rivers[i], m.source, m.target) &&
      (m.kind == CLAIM ==> rivers[i].punter == -1) &&
      (m.kind == OPTION ==> rivers[i].punter != -1 && rivers[i].punter != me && rivers[i].optionPunter == -1)
  }

  /** A crossing the back-walk ends with, taken as a move, is legal. */
  lemma CrossesLegal(rule: Rule, b: Board, pos: nat, j: nat, next: nat, useOption: bool)
    requires BoardOk(b) && rule.me == b.me && pos < b.n && j < |b.edges[pos]|
    requires Crosses(rule, b.edges, b.rivers, pos, j, next, useOption)
    ensures Legal(b.me, b.rivers, GameMove(if useOption then OPTION else CLAIM, b.me, pos, next, []))
  {
    var i := b.edges[pos][j].river;
    assert Ends(b.rivers[i], pos, next);
  }

  /** Column `k` of the table: the search's result from mine `k`. */
  ghost predicate ColumnOk(rule: Rule, b: Board, k: nat, col: seq<Entry>)
    requires BoardOk(b) && k < |b.mines|
  {
    |col| == b.n && Shape(rule, b.mines[k], col) && Settled(rule, b.edges, b.rivers, col) &&
    exists order, via :: Tree(rule, b.edges, b.rivers, b.mines[k], col, order, via)
  }

  /** The table, one column per mine (the source indexes it site first). */
  method Columns(rule: Rule, b: Board) returns (cols: seq<seq<Entry>>)
    requires BoardOk(b)
    ensures |cols| == |b.mines| && forall k :: 0 <= k < |cols| ==> ColumnOk(rule, b, k, cols[k])
  {
    cols := [];
    for k := 0 to |b.mines|
      invariant |cols| == k && forall k' :: 0 <= k' < k ==> ColumnOk(rule, b, k', cols[k'])
    {
      var col, order, via := Search(rule, b.n, b.edges, b.rivers, b.mines[k]);
      cols := cols + [col];
    }
  }

  /**
   * The back-walk on a column of the table, as a move: the first river of
   * the table's cheapest route from the column's mine to `start`, as an
   * option when that river needs one, a claim otherwise. It is legal, it
   * leaves a site with no rivers to claim, and `path` walks back to it
   * from `start`.
   */
  method Connect(rule: Rule, b: Board, k: nat, col: seq<Entry>, start: nat) returns (m: GameMove, ghost path: seq<nat>)
    requires BoardOk(b) && rule.me == b.me && k < |b.mines| && ColumnOk(rule, b, k, col)
    requires start < b.n && Reached(col[start]) && col[start].rivers != 0
    ensures Legal(b.me, b.rivers, m) && (m.kind == CLAIM || m.kind == OPTION)
    ensures 0 <= m.source < b.n && 0 <= m.target < b.n && col[m.source].rivers == 0 && col[m.target].prev == m.source
    ensures m.kind == OPTION ==> rule.Mirac? && col[m.source].options < rule.optionsLeft
    ensures |path| > 0 && path[0] == start && path[|path| - 1] == m.target && Chain(col, path)
  {
    ghost var order, via :| Tree(rule, b.edges, b.rivers, b.mines[k], col, order, via);
    var pos, prevPos, useOption;
    pos, prevPos, useOption, path := Walk(rule, b.edges, b.rivers, b.mines[k], col, order, via, start);
    m := GameMove(if useOption then OPTION else CLAIM, b.me, pos, prevPos, []);
    CrossesLegal(rule, b, pos, via[prevPos], prevPos, useOption);
  }

  /** The move of a punter with no site worth aiming for. */
  ghost predicate IsFallback(me: int, rivers: seq<RiverProto>, m: GameMove)
  {
    m.punter == me && (m.kind == PASS || m.kind == CLAIM) &&
    (m.kind == PASS <==> forall i :: 0 <= i < |rivers| ==> rivers[i].punter != -1) &&
    (m.kind == PASS ==> m == Pass(me)) &&
    (m.kind == CLAIM ==>
      exists i :: 0 <= i < |rivers| && rivers[i].punter == -1 &&
        m == Claim(me, rivers[i].source, rivers[i].target) && forall j :: 0 <= j < i ==> rivers[j].punter != -1)
  }

  /** No site is worth aiming for: claim the first free river, or pass when none is free. */
  method Fallback(me: int, rivers: seq<RiverProto>) returns (m: GameMove)
    ensures IsFallback(me, rivers, m)
  {
    for i := 0 to |rivers|
      invariant forall j :: 0 <= j < i ==> rivers[j].punter != -1
    {
      if rivers[i].punter == -1 {
        return Claim(me, rivers[i].source, rivers[i].target);
      }
    }
    return Pass(me);
  }
}
