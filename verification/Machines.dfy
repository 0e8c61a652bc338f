/**
 Runs of a deterministic step function. A strategy, as its engines see it, is a state and a step
 that may emit a signal; every claim about "any run" in this project is about `Fold`.
 */
module Machines {
  import opened Wrappers

  function Emitted<O>(out: Option<O>): seq<O> {
    match out
    case None => []
    case Some(o) => [o]
  }

  /** The final state and everything emitted, in order. */
  function Fold<S, I, O>(step: (S, I) -> (S, Option<O>), s: S, inputs: seq<I>): (S, seq<O>) {
    if inputs == [] then (s, [])
    else
      var next := step(s, inputs[0]);
      var later := Fold(step, next.0, inputs[1..]);
      (later.0, Emitted(next.1) + later.1)
  }

  function MapSeq<A, B>(f: A -> B, xs: seq<A>): seq<B> {
    seq(|xs|, i requires 0 <= i < |xs| => f(xs[i]))
  }

  lemma MapSnoc<A, B>(f: A -> B, xs: seq<A>, x: A)
    ensures MapSeq(f, xs + [x]) == MapSeq(f, xs) + [f(x)]
  {
  }

  function MapOption<A, B>(f: A -> B, x: Option<A>): Option<B> {
    match x
    case None => None
    case Some(a) => Some(f(a))
  }

  /** One step of the renamed machine is the renaming of one step. */
  ghost predicate CommutesAt<S, I, O>(
    step: (S, I) -> (S, Option<O>), onState: S -> S, onInput: I -> I, onOutput: O -> O, s: S, i: I)
  {
    step(onState(s), onInput(i)) == (onState(step(s, i).0), MapOption(onOutput, step(s, i).1))
  }

  /** `step` commutes with renaming its states, inputs and outputs. */
  ghost predicate Equivariant<S(!new), I(!new), O(!new)>(
    step: (S, I) -> (S, Option<O>), onState: S -> S, onInput: I -> I, onOutput: O -> O)
  {
    forall s, i :: CommutesAt(step, onState, onInput, onOutput, s, i)
  }

  lemma {:induction false} FoldEquivariant<S(!new), I(!new), O(!new)>(
    step: (S, I) -> (S, Option<O>), onState: S -> S, onInput: I -> I, onOutput: O -> O, s: S, inputs: seq<I>)
    requires Equivariant(step, onState, onInput, onOutput)
    ensures Fold(step, onState(s), MapSeq(onInput, inputs))
            == (onState(Fold(step, s, inputs).0), MapSeq(onOutput, Fold(step, s, inputs).1))
  {
    if inputs == [] {
      assert MapSeq(onInput, inputs) == [];
      assert MapSeq(onOutput, Fold(step, s, inputs).1) == [];
    } else {
      var next := step(s, inputs[0]);
      assert CommutesAt(step, onState, onInput, onOutput, s, inputs[0]);
      FoldEquivariant(step, onState, onInput, onOutput, next.0, inputs[1..]);
      var mapped := MapSeq(onInput, inputs);
      assert mapped[0] == onInput(inputs[0]) && mapped[1..] == MapSeq(onInput, inputs[1..]);
      var later := Fold(step, next.0, inputs[1..]);
      assert Emitted(MapOption(onOutput, next.1)) == MapSeq(onOutput, Emitted(next.1));
      assert MapSeq(onOutput, Emitted(next.1) + later.1)
          == MapSeq(onOutput, Emitted(next.1)) + MapSeq(onOutput, later.1);
    }
  }

  /** The first step of a run. */
  lemma FoldCons<S, I, O>(step: (S, I) -> (S, Option<O>), s: S, x: I, xs: seq<I>)
    ensures var next := step(s, x);
            Fold(step, s, [x] + xs) == (Fold(step, next.0, xs).0, Emitted(next.1) + Fold(step, next.0, xs).1)
  {
    assert ([x] + xs)[1..] == xs;
  }

  lemma {:induction false} FoldConcat<S, I, O>(step: (S, I) -> (S, Option<O>), s: S, xs: seq<I>, ys: seq<I>)
    ensures var middle := Fold(step, s, xs);
            Fold(step, s, xs + ys)
            == (Fold(step, middle.0, ys).0, middle.1 + Fold(step, middle.0, ys).1)
  {
    if xs == [] {
      assert xs + ys == ys;
      assert Fold(step, s, ys).1 == [] + Fold(step, s, ys).1;
    } else {
      var next := step(s, xs[0]);
      FoldConcat(step, next.0, xs[1..], ys);
      FoldCons(step, s, xs[0], xs[1..] + ys);
      assert xs + ys == [xs[0]] + (xs[1..] + ys);
      var middle := Fold(step, next.0, xs[1..]);
      var last := Fold(step, middle.0, ys);
      assert Emitted(next.1) + (middle.1 + last.1) == (Emitted(next.1) + middle.1) + last.1;
    }
  }

  /** The last step of a run. */
  lemma FoldSnoc<S, I, O>(step: (S, I) -> (S, Option<O>), s: S, xs: seq<I>, x: I)
    ensures var before := Fold(step, s, xs);
            Fold(step, s, xs + [x]) == (step(before.0, x).0, before.1 + Emitted(step(before.0, x).1))
  {
    FoldConcat(step, s, xs, [x]);
    var before := Fold(step, s, xs);
    var next := step(before.0, x);
    assert Fold(step, next.0, []) == (next.0, []);
    assert [x][1..] == [];
    assert Emitted(next.1) + [] == Emitted(next.1);
  }

  ghost predicate StepKeeps<S, I, O>(step: (S, I) -> (S, Option<O>), inv: S -> bool, s: S, i: I) {
    inv(s) ==> inv(step(s, i).0)
  }

  /** What every step keeps, every run keeps. */
  lemma {:induction false} FoldKeeps<S(!new), I(!new), O>(
    step: (S, I) -> (S, Option<O>), inv: S -> bool, s: S, inputs: seq<I>)
    requires inv(s) && forall s, i :: StepKeeps(step, inv, s, i)
    ensures inv(Fold(step, s, inputs).0)
  {
    if inputs == [] {
    } else {
      assert StepKeeps(step, inv, s, inputs[0]);
      FoldKeeps(step, inv, step(s, inputs[0]).0, inputs[1..]);
    }
  }

  /** Every state of one kind is taken to a state of another by this input. */
  ghost predicate Leads<S(!new), I, O>(step: (S, I) -> (S, Option<O>), from: S -> bool, i: I, to: S -> bool) {
    forall s :: from(s) ==> to(step(s, i).0)
  }

  lemma {:induction false} StaysIn<S(!new), I(!new), O>(
    step: (S, I) -> (S, Option<O>), s: S, inputs: seq<I>, held: S -> bool)
    requires held(s) && forall n :: 0 <= n < |inputs| ==> Leads(step, held, inputs[n], held)
    ensures held(Fold(step, s, inputs).0)
  {
    if inputs == [] {
    } else {
      assert Leads(step, held, inputs[0], held);
      StaysIn(step, step(s, inputs[0]).0, inputs[1..], held);
    }
  }

  lemma FoldAt<S, I, O>(step: (S, I) -> (S, Option<O>), s: S, inputs: seq<I>, n: nat)
    requires n < |inputs|
    ensures var before := Fold(step, s, inputs[..n]);
            Fold(step, s, inputs[..n + 1])
            == (step(before.0, inputs[n]).0, before.1 + Emitted(step(before.0, inputs[n]).1))
  {
    assert inputs[..n + 1] == inputs[..n] + [inputs[n]];
    FoldSnoc(step, s, inputs[..n], inputs[n]);
  }

  /** The first input opens, the next ones keep, the last but one warns and the last ends: the run has ended. */
  lemma EndsIn<S(!new), I(!new), O>(
    step: (S, I) -> (S, Option<O>), s: S, inputs: seq<I>, held: S -> bool, warned: S -> bool, ended: S -> bool)
    requires |inputs| >= 3 && held(step(s, inputs[0]).0)
    requires forall n :: 1 <= n < |inputs| - 2 ==> Leads(step, held, inputs[n], held)
    requires Leads(step, held, inputs[|inputs| - 2], warned) && Leads(step, warned, inputs[|inputs| - 1], ended)
    ensures ended(Fold(step, s, inputs).0)
  {
    var n := |inputs| - 2;
    StaysIn(step, step(s, inputs[0]).0, inputs[1..n], held);
    assert inputs[..n][1..] == inputs[1..n];
    assert held(Fold(step, s, inputs[..n]).0);
    FoldAt(step, s, inputs, n);
    FoldAt(step, s, inputs, n + 1);
    assert inputs[..n + 2] == inputs;
  }
}
