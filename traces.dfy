/**
 * Facts about traces of calls: whether a call occurs, how often, where, and
 * whether the calls follow the order of their call sites in the program text.
 */
module Traces {
  import opened DispatchTypes

  /** The trace records a call of kind `k`. */
  predicate Occurs(t: seq<Event>, k: Kind) {
    exists e :: e in t && KindOf(e) == k
  }

  /** The number of calls of kind `k` in the trace. */
  function Count(t: seq<Event>, k: Kind): (n: nat) {
    if t == [] then 0
    else Count(t[..|t| - 1], k) + (if KindOf(t[|t| - 1]) == k then 1 else 0)
  }

  /** Every call in the trace comes from a call site later in the text than the calls before it. */
  predicate InProgramOrder(t: seq<Event>) {
    forall i, j :: 0 <= i < j < |t| ==> Rank(KindOf(t[i])) < Rank(KindOf(t[j]))
  }

  /** The position of the first call of kind `k`. */
  function IndexOf(t: seq<Event>, k: Kind): (i: nat)
    requires Occurs(t, k)
    ensures i < |t| && KindOf(t[i]) == k
    ensures forall j :: 0 <= j < i ==> KindOf(t[j]) != k
  {
    if KindOf(t[0]) == k then 0
    else
      assert Occurs(t[1..], k) by {
        var e :| e in t && KindOf(e) == k;
        assert e in t[1..];
      }
      1 + IndexOf(t[1..], k)
  }

  /** In a trace that follows the program order, each call site is called at most once. */
  lemma {:induction false} CountInProgramOrder(t: seq<Event>, k: Kind)
    requires InProgramOrder(t)
    ensures Count(t, k) == if Occurs(t, k) then 1 else 0
  {
    if t != [] {
      var init := t[..|t| - 1];
      assert InProgramOrder(init);
      CountInProgramOrder(init, k);
      if KindOf(t[|t| - 1]) == k {
        forall e | e in init ensures KindOf(e) != k {
          var i :| 0 <= i < |init| && init[i] == e;
          assert Rank(KindOf(t[i])) < Rank(KindOf(t[|t| - 1]));
        }
      } else {
        if Occurs(t, k) {
          var e :| e in t && KindOf(e) == k;
          var i :| 0 <= i < |t| && t[i] == e;
          assert e in init;
        }
      }
    }
  }

  /** Two calls in a trace that follows the program order appear in the order of their call sites. */
  lemma OrderOfCalls(t: seq<Event>, k1: Kind, k2: Kind)
    requires InProgramOrder(t) && Occurs(t, k1) && Occurs(t, k2)
    ensures Rank(k1) < Rank(k2) <==> IndexOf(t, k1) < IndexOf(t, k2)
  {
    var i1, i2 := IndexOf(t, k1), IndexOf(t, k2);
    if i1 < i2 {
      assert Rank(KindOf(t[i1])) < Rank(KindOf(t[i2]));
    } else if i2 < i1 {
      assert Rank(KindOf(t[i2])) < Rank(KindOf(t[i1]));
    }
  }

  /** Joining two traces that follow the program order, the second after the first. */
  lemma InProgramOrderAppend(a: seq<Event>, b: seq<Event>)
    requires InProgramOrder(a) && InProgramOrder(b)
    requires forall i, j :: 0 <= i < |a| && 0 <= j < |b| ==> Rank(KindOf(a[i])) < Rank(KindOf(b[j]))
    ensures InProgramOrder(a + b)
  {
    var t := a + b;
    forall i, j | 0 <= i < j < |t| ensures Rank(KindOf(t[i])) < Rank(KindOf(t[j])) {
      if j < |a| {
        assert t[i] == a[i] && t[j] == a[j];
      } else if i < |a| {
        assert t[i] == a[i] && t[j] == b[j - |a|];
      } else {
        assert t[i] == b[i - |a|] && t[j] == b[j - |a|];
      }
    }
  }

  /** Every call in the trace comes from a call site before position `r` in the text. */
  predicate RanksBelow(t: seq<Event>, r: nat) {
    forall i :: 0 <= i < |t| ==> Rank(KindOf(t[i])) < r
  }

  /**
   * Appending at most one call, from the call site at position `r`, to a
   * trace of calls from earlier call sites keeps the trace in program order.
   */
  lemma ExtendInProgramOrder(t: seq<Event>, s: seq<Event>, r: nat)
    requires InProgramOrder(t) && RanksBelow(t, r)
    requires |s| <= 1 && forall i :: 0 <= i < |s| ==> Rank(KindOf(s[i])) == r
    ensures InProgramOrder(t + s) && RanksBelow(t + s, r + 1)
  {
    InProgramOrderAppend(t, s);
  }

  /** A call occurs in a joined trace exactly when it occurs in one of the parts. */
  lemma OccursAppend(a: seq<Event>, b: seq<Event>, k: Kind)
    ensures Occurs(a + b, k) <==> Occurs(a, k) || Occurs(b, k)
  {
  }
}
