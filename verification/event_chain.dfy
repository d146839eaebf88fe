/** Ordered handler lists of a window and the short-circuiting dispatch over
    them (the CALL macro of al_Window.hpp), independent of the handler kind. */
module EventChain {

  /** Every entry of `hs` answers true to event `e`. */
  ghost predicate AllPass<H, E>(hs: seq<H>, answer: (H, E) -> bool, e: E)
  {
    forall j :: 0 <= j < |hs| ==> answer(hs[j], e)
  }

  /** The handlers one dispatch of `e` calls, in calling order: the list is
      walked from the front and the walk stops right after the first handler
      that answers false. */
  function Trace<H, E>(hs: seq<H>, answer: (H, E) -> bool, e: E): (t: seq<H>)
    ensures |t| <= |hs|
    ensures t == hs[..|t|]
    ensures hs != [] ==> t != []
  {
    if hs == [] then []
    else if answer(hs[0], e) then [hs[0]] + Trace(hs[1..], answer, e)
    else [hs[0]]
  }

  /** The dispatch loop: walks the list from the front while every handler so
      far answered true, and returns the handlers it called. */
  method Dispatch<H, E>(hs: seq<H>, answer: (H, E) -> bool, e: E) returns (called: seq<H>)
    ensures called == Trace(hs, answer, e)
  {
    var i := 0;
    var active := true;
    called := [];
    while active && i < |hs|
      invariant 0 <= i <= |hs|
      invariant active ==> Trace(hs, answer, e) == called + Trace(hs[i..], answer, e)
      invariant !active ==> called == Trace(hs, answer, e)
    {
      TraceStep(hs, answer, e, i);
      active := answer(hs[i], e);
      called := called + [hs[i]];
      i := i + 1;
    }
    assert active ==> hs[i..] == [];
  }

  /** One step of the walk: dispatching the list from position i calls hs[i],
      then goes on from i + 1 iff hs[i] answered true. */
  lemma TraceStep<H, E>(hs: seq<H>, answer: (H, E) -> bool, e: E, i: nat)
    requires i < |hs|
    ensures Trace(hs[i..], answer, e) ==
      if answer(hs[i], e) then [hs[i]] + Trace(hs[i + 1..], answer, e) else [hs[i]]
  {
    assert hs[i..][0] == hs[i] && hs[i..][1..] == hs[i + 1..];
  }

  /** Every called handler except the last answered true; if the walk ended
      before the end of the list, the last called handler answered false. */
  lemma {:induction false} TraceShortCircuits<H, E>(hs: seq<H>, answer: (H, E) -> bool, e: E)
    ensures var t := Trace(hs, answer, e);
      (forall i :: 0 <= i < |t| - 1 ==> answer(t[i], e)) &&
      (|t| < |hs| ==> 0 < |t| && !answer(t[|t| - 1], e))
  {
    if hs != [] && answer(hs[0], e) {
      TraceShortCircuits(hs[1..], answer, e);
    }
  }

  /** If handler k is the first to answer false, exactly handlers 0..k are called. */
  lemma {:induction false} TraceStopsAtFirstFalse<H, E>(hs: seq<H>, answer: (H, E) -> bool, e: E, k: nat)
    requires k < |hs| && !answer(hs[k], e)
    requires forall j :: 0 <= j < k ==> answer(hs[j], e)
    ensures Trace(hs, answer, e) == hs[..k + 1]
  {
    if k > 0 {
      TraceStopsAtFirstFalse(hs[1..], answer, e, k - 1);
      assert hs[1..][..k] == hs[1..k + 1];
      assert hs[..k + 1] == [hs[0]] + hs[1..k + 1];
    }
  }

  /** No handler after one that answers false is ever called. */
  lemma TraceNeverPassesFalse<H, E>(hs: seq<H>, answer: (H, E) -> bool, e: E, k: nat)
    requires k < |hs| && !answer(hs[k], e)
    ensures |Trace(hs, answer, e)| <= k + 1
  {
    var t := Trace(hs, answer, e);
    if |t| > k + 1 {
      TraceShortCircuits(hs, answer, e);
      assert t[k] == hs[k];
    }
  }

  /** When no handler answers false, every handler is called exactly once, in list order. */
  lemma {:induction false} TraceCallsAll<H, E>(hs: seq<H>, answer: (H, E) -> bool, e: E)
    requires AllPass(hs, answer, e)
    ensures Trace(hs, answer, e) == hs
  {
    if hs != [] {
      TraceCallsAll(hs[1..], answer, e);
    }
  }

  /** Conversely, a dispatch that called the whole list saw true from all but
      possibly the last handler. */
  lemma FullTraceMeansPassing<H, E>(hs: seq<H>, answer: (H, E) -> bool, e: E)
    requires Trace(hs, answer, e) == hs && hs != []
    ensures AllPass(hs[..|hs| - 1], answer, e)
  {
    TraceShortCircuits(hs, answer, e);
  }

  /** A handler that answers true never ends a dispatch early: the handler
      after it, if any, is called too. */
  lemma TrueAnswerNeverStops<H, E>(hs: seq<H>, answer: (H, E) -> bool, e: E, k: nat)
    requires k < |Trace(hs, answer, e)| && answer(hs[k], e)
    ensures k + 1 < |Trace(hs, answer, e)| || k + 1 == |hs|
  {
    TraceShortCircuits(hs, answer, e);
  }

  /** A handler appended at the tail is called iff every earlier handler answers true. */
  lemma {:induction false} TraceOfAppended<H, E>(hs: seq<H>, h: H, answer: (H, E) -> bool, e: E)
    ensures Trace(hs + [h], answer, e) ==
      if AllPass(hs, answer, e) then hs + [h] else Trace(hs, answer, e)
  {
    if hs != [] {
      assert (hs + [h])[1..] == hs[1..] + [h];
      TraceOfAppended(hs[1..], h, answer, e);
    }
  }

  /** A handler prepended at the head is always called first, and when it
      answers false no other handler is called. */
  lemma TraceOfPrepended<H, E>(h: H, hs: seq<H>, answer: (H, E) -> bool, e: E)
    ensures var t := Trace([h] + hs, answer, e);
      t[0] == h &&
      (answer(h, e) ==> t[1..] == Trace(hs, answer, e)) &&
      (!answer(h, e) ==> t == [h])
  {
    assert ([h] + hs)[1..] == hs;
  }

  /** The list with every entry equal to `x` deleted, the others kept in their order. */
  function Without<H(==)>(hs: seq<H>, x: H): (r: seq<H>)
    ensures x !in r
    ensures |r| <= |hs|
    ensures multiset(r) == multiset(hs)[x := 0]
  {
    if hs == [] then []
    else
      assert hs == [hs[0]] + hs[1..];
      if hs[0] == x then Without(hs[1..], x)
      else [hs[0]] + Without(hs[1..], x)
  }

  /** Removal distributes over concatenation, so the survivors keep their relative order. */
  lemma {:induction false} WithoutConcat<H>(a: seq<H>, b: seq<H>, x: H)
    ensures Without(a + b, x) == Without(a, x) + Without(b, x)
  {
    if a != [] {
      assert (a + b)[0] == a[0] && (a + b)[1..] == a[1..] + b;
      WithoutConcat(a[1..], b, x);
    } else {
      assert a + b == b;
    }
  }

  /** Removing an absent handler changes nothing. */
  lemma {:induction false} WithoutAbsent<H>(hs: seq<H>, x: H)
    requires x !in hs
    ensures Without(hs, x) == hs
  {
    if hs != [] {
      WithoutAbsent(hs[1..], x);
    }
  }

  /** Removing twice is removing once. */
  lemma WithoutIdempotent<H>(hs: seq<H>, x: H)
    ensures Without(Without(hs, x), x) == Without(hs, x)
  {
    WithoutAbsent(Without(hs, x), x);
  }

  /** Removal undoes a prepend or an append of a handler that was not registered. */
  lemma RemoveUndoesAdd<H>(hs: seq<H>, x: H)
    requires x !in hs
    ensures Without([x] + hs, x) == hs
    ensures Without(hs + [x], x) == hs
  {
    WithoutConcat([x], hs, x);
    WithoutConcat(hs, [x], x);
    WithoutAbsent(hs, x);
  }
}
