/**
 * Acquire/release logs.
 *
 * Both the q8 touchscreen probe and the HDMI bind routine acquire a chain of
 * resources and give them back through a goto ladder. Their behaviour is
 * recorded as a log of steps: `Take(r)` when resource `r` is acquired or
 * switched on, `Put(r)` when it is released or switched off, and `Do(a)` for
 * any other action. A log is well nested when replaying it against a stack of
 * held resources never releases anything but the most recently acquired
 * resource still held, and ends with nothing held: no leak, no double
 * release, reverse order.
 */
module Nesting {
  import opened Wrappers

  datatype Step<R, A> = Take(res: R) | Put(res: R) | Do(act: A)

  /** The stack of resources held after replaying `log` on top of `held`,
      or None when some `Put` does not release the top of the stack. */
  function Unwind<R(==), A>(log: seq<Step<R, A>>, held: seq<R>): Option<seq<R>>
    decreases |log|
  {
    if log == [] then Some(held)
    else match log[0]
      case Take(r) => Unwind(log[1..], held + [r])
      case Put(r) =>
        if held != [] && held[|held| - 1] == r then Unwind(log[1..], held[..|held| - 1]) else None
      case Do(_) => Unwind(log[1..], held)
  }

  predicate WellNested<R(==), A>(log: seq<Step<R, A>>) {
    Unwind(log, []) == Some([])
  }

  /** Continue an unwinding that may already have failed. */
  function Then<R(==), A>(o: Option<seq<R>>, rest: seq<Step<R, A>>): Option<seq<R>> {
    match o
    case None => None
    case Some(h) => Unwind(rest, h)
  }

  lemma {:induction false} UnwindConcat<R, A>(a: seq<Step<R, A>>, b: seq<Step<R, A>>, held: seq<R>)
    ensures Unwind(a + b, held) == Then(Unwind(a, held), b)
    decreases |a|
  {
    if a == [] {
      assert a + b == b;
    } else {
      assert (a + b)[0] == a[0];
      assert (a + b)[1..] == a[1..] + b;
      match a[0]
      case Take(r) => UnwindConcat(a[1..], b, held + [r]);
      case Put(r) =>
        if held != [] && held[|held| - 1] == r {
          UnwindConcat(a[1..], b, held[..|held| - 1]);
        }
      case Do(_) => UnwindConcat(a[1..], b, held);
    }
  }

  /** Appending an acquisition pushes it on the held stack. */
  lemma TakeStep<R, A>(log: seq<Step<R, A>>, held: seq<R>, r: R)
    requires Unwind(log, []) == Some(held)
    ensures Unwind(log + [Take(r)], []) == Some(held + [r])
  {
    var step: seq<Step<R, A>> := [Take(r)];
    UnwindConcat(log, step, []);
    assert Unwind(log + step, []) == Unwind(step, held);
    assert step[1..] == [];
    assert Unwind(step, held) == Unwind(step[1..], held + [r]);
  }

  /** Appending the release of the top of the held stack pops it. */
  lemma PutStep<R, A>(log: seq<Step<R, A>>, held: seq<R>, r: R)
    requires Unwind(log, []) == Some(held + [r])
    ensures Unwind(log + [Put(r)], []) == Some(held)
  {
    var step: seq<Step<R, A>> := [Put(r)];
    UnwindConcat(log, step, []);
    assert Unwind(log + step, []) == Unwind(step, held + [r]);
    assert (held + [r])[..|held + [r]| - 1] == held;
    assert step[1..] == [];
    assert Unwind(step, held + [r]) == Unwind(step[1..], held);
  }

  /** Appending any other action leaves the held stack alone. */
  lemma DoStep<R, A>(log: seq<Step<R, A>>, held: seq<R>, a: A)
    requires Unwind(log, []) == Some(held)
    ensures Unwind(log + [Do(a)], []) == Some(held)
  {
    var step: seq<Step<R, A>> := [Do(a)];
    UnwindConcat(log, step, []);
    assert Unwind(log + step, []) == Unwind(step, held);
    assert step[1..] == [];
    assert Unwind(step, held) == Unwind(step[1..], held);
  }

  /** Replaying a log does not look below the part of the stack it started with. */
  lemma {:induction false} UnwindShift<R, A>(log: seq<Step<R, A>>, below: seq<R>, held: seq<R>, after: seq<R>)
    requires Unwind(log, held) == Some(after)
    ensures Unwind(log, below + held) == Some(below + after)
    decreases |log|
  {
    if log != [] {
      match log[0]
      case Take(r) =>
        assert (below + held) + [r] == below + (held + [r]);
        UnwindShift(log[1..], below, held + [r], after);
      case Put(r) =>
        assert (below + held)[..|below + held| - 1] == below + held[..|held| - 1];
        UnwindShift(log[1..], below, held[..|held| - 1], after);
      case Do(_) =>
        UnwindShift(log[1..], below, held, after);
    }
  }

  /** A well-nested stretch of steps leaves whatever was held before it held. */
  lemma NestedInside<R, A>(log: seq<Step<R, A>>, held: seq<R>, inner: seq<Step<R, A>>)
    requires Unwind(log, []) == Some(held)
    requires WellNested(inner)
    ensures Unwind(log + inner, []) == Some(held)
  {
    var none: seq<R> := [];
    UnwindConcat(log, inner, []);
    UnwindShift(inner, held, none, none);
    assert held + none == held;
  }

  /** Taking a resource and giving it straight back is well nested. */
  lemma PairNested<R, A>(r: R)
    ensures WellNested<R, A>([Take(r), Put(r)])
  {
    var none: seq<R> := [];
    var empty: seq<Step<R, A>> := [];
    var taken: seq<Step<R, A>> := [Take(r)];
    TakeStep(empty, none, r);
    assert empty + [Take(r)] == taken;
    PutStep(taken, none, r);
    assert taken + [Put(r)] == [Take(r), Put(r)];
  }

  /** `inner` run while holding `r`: take it first, give it back last. */
  function Bracket<R, A>(r: R, inner: seq<Step<R, A>>): seq<Step<R, A>> {
    [Take(r)] + inner + [Put(r)]
  }

  /** Holding a resource around a well-nested log keeps it well nested. */
  lemma BracketNested<R, A>(r: R, inner: seq<Step<R, A>>)
    requires WellNested(inner)
    ensures WellNested(Bracket(r, inner))
  {
    var none: seq<R> := [];
    var empty: seq<Step<R, A>> := [];
    var first: seq<Step<R, A>> := [Take(r)];
    TakeStep(empty, none, r);
    assert empty + [Take(r)] == first;
    assert none + [r] == [r];
    NestedInside(first, [r], inner);
    PutStep(first + inner, none, r);
    assert first + inner + [Put(r)] == Bracket(r, inner);
  }

  /** The resources a log acquires and the resources it releases. */
  function Taken<R, A>(log: seq<Step<R, A>>): multiset<R> {
    if log == [] then multiset{}
    else (if log[0].Take? then multiset{log[0].res} else multiset{}) + Taken(log[1..])
  }

  function Released<R, A>(log: seq<Step<R, A>>): multiset<R> {
    if log == [] then multiset{}
    else (if log[0].Put? then multiset{log[0].res} else multiset{}) + Released(log[1..])
  }

  /** The multiset step of UnwindConserves for a release. */
  lemma PutConserves<R, A>(log: seq<Step<R, A>>, held: seq<R>, after: seq<R>)
    requires log != [] && log[0].Put? && held != [] && held[|held| - 1] == log[0].res
    requires multiset(held[..|held| - 1]) + Taken(log[1..]) == multiset(after) + Released(log[1..])
    ensures multiset(held) + Taken(log) == multiset(after) + Released(log)
  {
    var rest, r := held[..|held| - 1], log[0].res;
    assert held == rest + [r];
    assert multiset(held) == multiset(rest) + multiset{r};
    assert Taken(log) == Taken(log[1..]);
    assert Released(log) == multiset{r} + Released(log[1..]);
    calc {
      multiset(held) + Taken(log);
      (multiset(rest) + multiset{r}) + Taken(log[1..]);
      (multiset(rest) + Taken(log[1..])) + multiset{r};
      (multiset(after) + Released(log[1..])) + multiset{r};
      multiset(after) + Released(log);
    }
  }

  /** Replaying a log conserves resources: what was held plus what was taken
      equals what is still held plus what was released. */
  lemma {:induction false} UnwindConserves<R, A>(log: seq<Step<R, A>>, held: seq<R>, after: seq<R>)
    requires Unwind(log, held) == Some(after)
    ensures multiset(held) + Taken(log) == multiset(after) + Released(log)
    decreases |log|
  {
    if log != [] {
      match log[0]
      case Take(r) =>
        UnwindConserves(log[1..], held + [r], after);
        assert multiset(held + [r]) == multiset(held) + multiset{r};
        assert Taken(log) == multiset{r} + Taken(log[1..]);
        assert Released(log) == Released(log[1..]);
      case Put(r) =>
        var rest := held[..|held| - 1];
        assert Unwind(log[1..], rest) == Some(after);
        UnwindConserves(log[1..], rest, after);
        PutConserves(log, held, after);
      case Do(_) =>
        UnwindConserves(log[1..], held, after);
        assert Taken(log) == Taken(log[1..]);
        assert Released(log) == Released(log[1..]);
    }
  }

  /** In a well-nested log every resource is released exactly as often as it
      is acquired: nothing leaks and nothing is released twice. */
  lemma WellNestedBalanced<R, A>(log: seq<Step<R, A>>)
    requires WellNested(log)
    ensures Taken(log) == Released(log)
  {
    var none: seq<R> := [];
    UnwindConserves(log, none, none);
    assert multiset(none) == multiset{};
    assert Taken(log) == multiset(none) + Taken(log);
  }

  lemma {:induction false} InTaken<R, A>(log: seq<Step<R, A>>, r: R)
    ensures Take(r) in log <==> r in Taken(log)
    decreases |log|
  {
    if log != [] {
      InTaken(log[1..], r);
      assert log == [log[0]] + log[1..];
    }
  }

  lemma {:induction false} InReleased<R, A>(log: seq<Step<R, A>>, r: R)
    ensures Put(r) in log <==> r in Released(log)
    decreases |log|
  {
    if log != [] {
      InReleased(log[1..], r);
      assert log == [log[0]] + log[1..];
    }
  }

  /** A well-nested log releases a resource iff it acquires it. */
  lemma WellNestedTakeIffPut<R, A>(log: seq<Step<R, A>>, r: R)
    requires WellNested(log)
    ensures Take(r) in log <==> Put(r) in log
  {
    WellNestedBalanced(log);
    InTaken(log, r);
    InReleased(log, r);
  }

  /** Switching on each of `rs` in order, and switching off each of `rs` in
      the order given. */
  function Takes<R, A>(rs: seq<R>): (log: seq<Step<R, A>>)
    ensures |log| == |rs|
  {
    seq(|rs|, i requires 0 <= i < |rs| => Take(rs[i]))
  }

  function Puts<R, A>(rs: seq<R>): (log: seq<Step<R, A>>)
    ensures |log| == |rs|
  {
    seq(|rs|, i requires 0 <= i < |rs| => Put(rs[i]))
  }

  function Reversed<T>(s: seq<T>): (r: seq<T>)
    ensures |r| == |s|
  {
    seq(|s|, i requires 0 <= i < |s| => s[|s| - 1 - i])
  }

  /** Acquiring `rs` in order stacks them up in that order. */
  lemma {:induction false} TakesUnwind<R, A>(rs: seq<R>, held: seq<R>)
    ensures Unwind(Takes<R, A>(rs), held) == Some(held + rs)
    decreases |rs|
  {
    if rs == [] {
      assert held + rs == held;
    } else {
      assert Takes<R, A>(rs)[1..] == Takes<R, A>(rs[1..]);
      TakesUnwind<R, A>(rs[1..], held + [rs[0]]);
      assert held + [rs[0]] + rs[1..] == held + rs;
    }
  }

  /** Releasing `rs` last first pops exactly them off the stack. */
  lemma {:induction false} PutsUnwind<R, A>(rs: seq<R>, held: seq<R>)
    ensures Unwind(Puts<R, A>(Reversed(rs)), held + rs) == Some(held)
    decreases |rs|
  {
    if rs != [] {
      var n := |rs|;
      var front := rs[..n - 1];
      assert Puts<R, A>(Reversed(rs))[0] == Put(rs[n - 1]);
      assert (held + rs)[..|held + rs| - 1] == held + front;
      assert Puts<R, A>(Reversed(rs))[1..] == Puts<R, A>(Reversed(front));
      assert Unwind(Puts<R, A>(Reversed(rs)), held + rs) == Unwind(Puts<R, A>(Reversed(front)), held + front);
      PutsUnwind<R, A>(front, held);
    } else {
      assert held + rs == held;
    }
  }

  /** Acquiring a list of resources and releasing them in reverse order is
      well nested. */
  lemma TakesPutsNested<R, A>(rs: seq<R>)
    ensures WellNested(Takes<R, A>(rs) + Puts<R, A>(Reversed(rs)))
  {
    var none: seq<R> := [];
    UnwindConcat(Takes<R, A>(rs), Puts<R, A>(Reversed(rs)), none);
    TakesUnwind<R, A>(rs, none);
    assert none + rs == rs;
    PutsUnwind<R, A>(rs, none);
  }
}
