/**
 * `GreedyPunterMirac`: from every mine, the cheapest way to reach every
 * site (fewest options, then fewest rivers not our own), then the target
 * worth most points; the move is the first river of the route to it,
 * claimed, or optioned when another punter owns it.
 */
module GreedyPunterMirac {
  import opened Wrappers
  import opened GameData
  import opened CostSearch

  /** The best target so far: its score, the options and rivers its route takes, its site and mine index. */
  datatype Best = Best(score: int, options: int, rivers: int, site: int, mine: int)

  /** Before any site is looked at, every field is -1. */
  const NoBest := Best(-1, -1, -1, -1, -1)

  /**
   * The selection's comparison: a higher score wins; on equal score the
   * route with MORE options wins; on equal options, fewer rivers.
   */
  predicate Beats(score: int, options: int, rivers: int, b: Best)
  {
    b.score < score ||
    (b.score == score && b.options < options) ||
    (b.score == score && b.options == options && rivers < b.rivers)
  }

  /** A site worth aiming at: reached, with at least one river still to claim. */
  predicate Eligible(e: Entry)
  {
    e.rivers != -1 && e.rivers != 0
  }

  predicate Square(cols: seq<seq<Entry>>, n: nat)
  {
    forall k :: 0 <= k < |cols| ==> |cols[k]| == n
  }

  /** Site `i` from mine `k` beats `b` as a target. */
  predicate BeatsAt(cols: seq<seq<Entry>>, dist: (int, nat) -> int, i: nat, k: nat, b: Best)
    requires k < |cols| && i < |cols[k]|
  {
    Eligible(cols[k][i]) && Beats(dist(i, k), cols[k][i].options, cols[k][i].rivers, b)
  }

  /** One turn of the inner loop: site `i`, mine `k`. */
  function Consider(cols: seq<seq<Entry>>, dist: (int, nat) -> int, i: nat, k: nat, b: Best): Best
    requires k < |cols| && i < |cols[k]|
  {
    if BeatsAt(cols, dist, i, k, b) then Best(dist(i, k), cols[k][i].options, cols[k][i].rivers, i, k) else b
  }

  /** The inner loop from mine `k` on. */
  function Row(cols: seq<seq<Entry>>, dist: (int, nat) -> int, n: nat, i: nat, k: nat, b: Best): Best
    requires Square(cols, n) && i < n
    decreases |cols| - k
  {
    if k >= |cols| then b else Row(cols, dist, n, i, k + 1, Consider(cols, dist, i, k, b))
  }

  /** The outer loop from site `i` on. */
  function Sites(cols: seq<seq<Entry>>, dist: (int, nat) -> int, n: nat, i: nat, b: Best): Best
    requires Square(cols, n)
    decreases n - i
  {
    if i >= n then b else Sites(cols, dist, n, i + 1, Row(cols, dist, n, i, 0, b))
  }

  /** The target the selection ends with. */
  function Target(cols: seq<seq<Entry>>, dist: (int, nat) -> int, n: nat): Best
    requires Square(cols, n)
  {
    Sites(cols, dist, n, 0, NoBest)
  }

  /** `Beats` is a strict order on (score, options, -rivers). */
  lemma BeatsTrans(s: int, o: int, r: int, b: Best, c: Best)
    requires Beats(s, o, r, b) && Beats(b.score, b.options, b.rivers, c)
    ensures Beats(s, o, r, c)
  {
  }

  /** Whatever beats a later best beats an earlier one. */
  lemma {:induction false} RowKeeps(cols: seq<seq<Entry>>, dist: (int, nat) -> int, n: nat, i: nat, k: nat, b: Best,
                                    s: int, o: int, r: int)
    requires Square(cols, n) && i < n
    requires Beats(s, o, r, Row(cols, dist, n, i, k, b))
    ensures Beats(s, o, r, b)
    decreases |cols| - k
  {
    if k < |cols| {
      var b' := Consider(cols, dist, i, k, b);
      RowKeeps(cols, dist, n, i, k + 1, b', s, o, r);
      if b' != b {
        BeatsTrans(s, o, r, b', b);
      }
    }
  }

  lemma {:induction false} SitesKeeps(cols: seq<seq<Entry>>, dist: (int, nat) -> int, n: nat, i: nat, b: Best,
                                      s: int, o: int, r: int)
    requires Square(cols, n)
    requires Beats(s, o, r, Sites(cols, dist, n, i, b))
    ensures Beats(s, o, r, b)
    decreases n - i
  {
    if i < n {
      SitesKeeps(cols, dist, n, i + 1, Row(cols, dist, n, i, 0, b), s, o, r);
      RowKeeps(cols, dist, n, i, 0, b, s, o, r);
    }
  }

  /** After the inner loop, no mine from `k` on beats the best for site `i`. */
  lemma {:induction false} RowCovers(cols: seq<seq<Entry>>, dist: (int, nat) -> int, n: nat, i: nat, k: nat, b: Best, k': nat)
    requires Square(cols, n) && i < n && k <= k' < |cols|
    ensures !BeatsAt(cols, dist, i, k', Row(cols, dist, n, i, k, b))
    decreases |cols| - k
  {
    var b' := Consider(cols, dist, i, k, b);
    if k' == k {
      if BeatsAt(cols, dist, i, k, Row(cols, dist, n, i, k + 1, b')) {
        var e := cols[k][i];
        RowKeeps(cols, dist, n, i, k + 1, b', dist(i, k), e.options, e.rivers);
      }
    } else {
      RowCovers(cols, dist, n, i, k + 1, b', k');
    }
  }

  /** After the outer loop, no eligible site from `i` on, from any mine, beats the best. */
  lemma {:induction false} SitesCovers(cols: seq<seq<Entry>>, dist: (int, nat) -> int, n: nat, i: nat, b: Best,
                                       i': nat, k': nat)
    requires Square(cols, n) && i <= i' < n && k' < |cols|
    ensures !BeatsAt(cols, dist, i', k', Sites(cols, dist, n, i, b))
    decreases n - i
  {
    var b' := Row(cols, dist, n, i, 0, b);
    if i' == i {
      RowCovers(cols, dist, n, i, 0, b, k');
      if BeatsAt(cols, dist, i, k', Sites(cols, dist, n, i + 1, b')) {
        var e := cols[k'][i];
        SitesKeeps(cols, dist, n, i + 1, b', dist(i, k'), e.options, e.rivers);
      }
    } else {
      SitesCovers(cols, dist, n, i + 1, b', i', k');
    }
  }

  /** The best is where it started, or an eligible site and mine whose fields it carries. */
  predicate Carries(cols: seq<seq<Entry>>, dist: (int, nat) -> int, n: nat, b: Best)
    requires Square(cols, n)
  {
    0 <= b.mine < |cols| && 0 <= b.site < n &&
    Eligible(cols[b.mine][b.site]) && b.score == dist(b.site, b.mine) &&
    b.options == cols[b.mine][b.site].options && b.rivers == cols[b.mine][b.site].rivers
  }

  lemma {:induction false} RowPicks(cols: seq<seq<Entry>>, dist: (int, nat) -> int, n: nat, i: nat, k: nat, b: Best)
    requires Square(cols, n) && i < n
    ensures var r := Row(cols, dist, n, i, k, b); r == b || Carries(cols, dist, n, r)
    decreases |cols| - k
  {
    if k < |cols| {
      RowPicks(cols, dist, n, i, k + 1, Consider(cols, dist, i, k, b));
    }
  }

  lemma {:induction false} SitesPicks(cols: seq<seq<Entry>>, dist: (int, nat) -> int, n: nat, i: nat, b: Best)
    requires Square(cols, n)
    ensures var r := Sites(cols, dist, n, i, b); r == b || Carries(cols, dist, n, r)
    decreases n - i
  {
    if i < n {
      RowPicks(cols, dist, n, i, 0, b);
      SitesPicks(cols, dist, n, i + 1, Row(cols, dist, n, i, 0, b));
    }
  }

  /**
   * What the selection promises: no eligible site from any mine beats
   * the target, and unless the selection found nothing the target is an
   * eligible site whose score and route it records.
   */
  lemma TargetIsBest(cols: seq<seq<Entry>>, dist: (int, nat) -> int, n: nat)
    requires Square(cols, n)
    ensures var t := Target(cols, dist, n);
      (forall i, k :: 0 <= i < n && 0 <= k < |cols| ==> !BeatsAt(cols, dist, i, k, t)) &&
      (t == NoBest || Carries(cols, dist, n, t))
  {
    forall i, k | 0 <= i < n && 0 <= k < |cols| ensures !BeatsAt(cols, dist, i, k, Target(cols, dist, n)) {
      SitesCovers(cols, dist, n, 0, NoBest, i, k);
    }
    SitesPicks(cols, dist, n, 0, NoBest);
  }

  /** A best with a score other than -1 is an eligible site. */
  lemma ScoredIsEligible(cols: seq<seq<Entry>>, dist: (int, nat) -> int, n: nat)
    requires Square(cols, n) && Target(cols, dist, n).score != -1
    ensures Carries(cols, dist, n, Target(cols, dist, n))
  {
    SitesPicks(cols, dist, n, 0, NoBest);
  }

  /** The two selection loops over sites and mines. */
  method SelectTarget(cols: seq<seq<Entry>>, dist: (int, nat) -> int, n: nat) returns (best: Best)
    requires Square(cols, n)
    ensures best == Target(cols, dist, n)
  {
    best := NoBest;
    for i := 0 to n
      invariant Sites(cols, dist, n, i, best) == Target(cols, dist, n)
    {
      for k := 0 to |cols|
        invariant Sites(cols, dist, n, i + 1, Row(cols, dist, n, i, k, best)) == Target(cols, dist, n)
      {
        var e := cols[k][i];
        if e.rivers == -1 {
          continue;
        }
        if e.rivers == 0 {
          continue;
        }
        var score := dist(i, k);
        if best.score < score ||
           (best.score == score && best.options < e.options) ||
           (best.score == score && best.options == e.options && e.rivers < best.rivers) {
          best := Best(score, e.options, e.rivers, i, k);
        }
      }
    }
  }

  /**
   * `Run`: the table from every mine, with `optionsLeft` the options the
   * punter may still buy (0 unless options are switched on); the target;
   * then the first river of the table's route to the target, or the
   * fallback move when the target's score is -1.
   */
  method Run(b: Board, dist: (int, nat) -> int, optionsLeft: nat) returns (m: GameMove, cols: seq<seq<Entry>>,
                                                                          ghost path: seq<nat>)
    requires BoardOk(b)
    ensures |cols| == |b.mines| && forall k :: 0 <= k < |cols| ==> ColumnOk(Mirac(b.me, optionsLeft), b, k, cols[k])
    ensures Square(cols, b.n)
    ensures Target(cols, dist, b.n).score == -1 ==> IsFallback(b.me, b.rivers, m)
    ensures var t := Target(cols, dist, b.n);
      t.score != -1 ==>
        Carries(cols, dist, b.n, t) &&
        Legal(b.me, b.rivers, m) && (m.kind == CLAIM || m.kind == OPTION) &&
        0 <= m.source < b.n && 0 <= m.target < b.n &&
        cols[t.mine][m.source].rivers == 0 && cols[t.mine][m.target].prev == m.source &&
        (m.kind == OPTION ==> cols[t.mine][m.source].options < optionsLeft) &&
        |path| > 0 && path[0] == t.site && path[|path| - 1] == m.target && Chain(cols[t.mine], path)
  {
    var rule := Mirac(b.me, optionsLeft);
    cols := Columns(rule, b);
    var best := SelectTarget(cols, dist, b.n);
    if best.score == -1 {
      m := Fallback(b.me, b.rivers);
      path := [];
      return;
    }
    ScoredIsEligible(cols, dist, b.n);
    m, path := Connect(rule, b, best.mine, cols[best.mine], best.site);
  }
}
