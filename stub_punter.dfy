/**
 * The referee's stand-in player (`stadium::StubPunter`): it keeps the set
 * of rivers nobody has claimed, each as an ordered pair, and claims the
 * smallest one left.
 */
module StubPunter {
  import opened GameData

  /** A river as the set stores it: smaller endpoint first. */
  function Normal(a: int, b: int): (p: (int, int))
    ensures p.0 <= p.1 && {p.0, p.1} == {a, b}
  {
    if a <= b then (a, b) else (b, a)
  }

  /** The set's order on pairs. */
  predicate LexLe(p: (int, int), q: (int, int))
  {
    p.0 < q.0 || (p.0 == q.0 && p.1 <= q.1)
  }

  /** Every pair has its smaller endpoint first. */
  predicate Ordered(s: set<(int, int)>)
  {
    forall p :: p in s ==> p.0 <= p.1
  }

  /** The pairs after the claims of a batch are erased, whichever way round they were claimed. */
  function Remaining(s: set<(int, int)>, moves: seq<GameMove>): set<(int, int)>
  {
    if moves == [] then s
    else
      var m := moves[|moves| - 1];
      Remaining(s, moves[..|moves| - 1]) - (if m.kind == CLAIM then {Normal(m.source, m.target)} else {})
  }

  /** Erasing only removes: what is left is a subset, and a claimed river is gone. */
  lemma {:induction false} RemainingShrinks(s: set<(int, int)>, moves: seq<GameMove>)
    ensures Remaining(s, moves) <= s
    ensures forall k :: 0 <= k < |moves| && moves[k].kind == CLAIM ==>
      Normal(moves[k].source, moves[k].target) !in Remaining(s, moves)
    decreases |moves|
  {
    if moves != [] {
      var init := moves[..|moves| - 1];
      RemainingShrinks(s, init);
      forall k | 0 <= k < |init| ensures init[k] == moves[k] {
      }
    }
  }

  /** A non-empty finite set of pairs has a least element. */
  lemma {:induction false} LeastExists(s: set<(int, int)>)
    requires s != {}
    ensures exists p :: p in s && forall q :: q in s ==> LexLe(p, q)
    decreases |s|
  {
    var x :| x in s;
    if s - {x} == {} {
      assert s == {x};
      assert forall q :: q in s ==> LexLe(x, q);
    } else {
      LeastExists(s - {x});
      var p :| p in s - {x} && forall q :: q in s - {x} ==> LexLe(p, q);
      if LexLe(p, x) {
        assert forall q :: q in s ==> LexLe(p, q);
      } else {
        assert LexLe(x, p);
        forall q | q in s ensures LexLe(x, q) {
          if q != x {
            assert LexLe(p, q);
          }
        }
      }
    }
  }

  class StubPunter {
    var punterId: int
    var unclaimed: set<(int, int)>

    constructor ()
      ensures unclaimed == {}
    {
      punterId, unclaimed := 0, {};
    }

    /** `SetUp`: every river goes into the set as an ordered pair; the name is "STUB". */
    method SetUp(id: int, gameMap: GameMap) returns (name: string)
      modifies this
      ensures punterId == id && name == "STUB"
      ensures forall p :: p in unclaimed <==>
        p in old(unclaimed) || exists i :: 0 <= i < |gameMap.rivers| && p == Normal(gameMap.rivers[i].source, gameMap.rivers[i].target)
      ensures Ordered(old(unclaimed)) ==> Ordered(unclaimed)
    {
      punterId := id;
      ghost var before := unclaimed;
      var rivers := gameMap.rivers;
      for i := 0 to |rivers|
        invariant punterId == id
        invariant forall p :: p in unclaimed <==>
          p in before || exists j :: 0 <= j < i && p == Normal(rivers[j].source, rivers[j].target)
        invariant Ordered(before) ==> Ordered(unclaimed)
      {
        unclaimed := unclaimed + {Normal(rivers[i].source, rivers[i].target)};
      }
      name := "STUB";
    }

    /**
     * `OnTurn`: the batch's claims are erased, then the smallest pair left
     * is claimed and erased. Taking the first element of an empty set is
     * undefined, so some pair must be left.
     */
    method OnTurn(moves: seq<GameMove>) returns (m: GameMove)
      requires Remaining(unclaimed, moves) != {}
      modifies this
      ensures m == Claim(punterId, m.source, m.target)
      ensures (m.source, m.target) in Remaining(old(unclaimed), moves)
      ensures forall q :: q in Remaining(old(unclaimed), moves) ==> LexLe((m.source, m.target), q)
      ensures unclaimed == Remaining(old(unclaimed), moves) - {(m.source, m.target)}
      ensures punterId == old(punterId)
    {
      ghost var before := unclaimed;
      for k := 0 to |moves|
        invariant unclaimed == Remaining(before, moves[..k]) && punterId == old(punterId)
      {
        assert moves[..k + 1][..k] == moves[..k];
        if moves[k].kind == CLAIM {
          unclaimed := unclaimed - {Normal(moves[k].source, moves[k].target)};
        }
      }
      assert moves[..|moves|] == moves;
      LeastExists(unclaimed);
      var first :| first in unclaimed && forall q :: q in unclaimed ==> LexLe(first, q);
      m := Claim(punterId, first.0, first.1);
      unclaimed := unclaimed - {first};
    }
  }

  /** With ordered pairs, the claim names its smaller endpoint first, and the set loses it. */
  lemma OnTurnClaimsOrdered(s: set<(int, int)>, moves: seq<GameMove>, p: (int, int))
    requires Ordered(s) && p in Remaining(s, moves)
    ensures p.0 <= p.1 && |Remaining(s, moves) - {p}| < |s|
  {
    RemainingShrinks(s, moves);
    assert |Remaining(s, moves) - {p}| < |Remaining(s, moves)|;
    assert |Remaining(s, moves)| <= |s| by {
      SubsetCard(Remaining(s, moves), s);
    }
  }

  lemma {:induction false} SubsetCard(a: set<(int, int)>, b: set<(int, int)>)
    requires a <= b
    ensures |a| <= |b|
    decreases |b|
  {
    if b != {} {
      var x :| x in b;
      SubsetCard(a - {x}, b - {x});
    }
  }
}
