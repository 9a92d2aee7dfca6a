/**
 * Separated runs of items, as the parser's loops read them: an item, then
 * either the end of the run or a separator and the next item. A run is
 * stated over three predicates so that its structure can be reasoned about
 * apart from any particular grammar.
 */
module Runs {
  import opened Wrappers

  /**
   * From `p`: the items `xs`, the i-th of which `step` reads ending at
   * `ends[i]`; after each item but the last `more` holds at its end and the
   * next item starts one token later; after the last item `close` relates
   * its end to the end `q` of the whole run.
   */
  predicate Run<T>(step: (nat, T, nat) -> bool, more: nat -> bool, close: (nat, nat) -> bool,
                   p: nat, xs: seq<T>, ends: seq<nat>, q: nat)
    ensures Run(step, more, close, p, xs, ends, q) ==> |xs| > 0 && |ends| == |xs|
    decreases |xs|
  {
    |xs| > 0 && |ends| == |xs| && step(p, xs[0], ends[0]) &&
    if |xs| == 1 then close(ends[0], q)
    else (more(ends[0]) && Run(step, more, close, ends[0] + 1, xs[1..], ends[1..], q))
  }

  /** One item that closes the run. */
  lemma One<T>(step: (nat, T, nat) -> bool, more: nat -> bool, close: (nat, nat) -> bool,
               p: nat, x: T, m: nat, q: nat)
    requires step(p, x, m) && close(m, q)
    ensures Run(step, more, close, p, [x], [m], q)
  {
  }

  /** An item, a separator and a run. */
  lemma Cons<T>(step: (nat, T, nat) -> bool, more: nat -> bool, close: (nat, nat) -> bool,
                p: nat, x: T, m: nat, xs: seq<T>, ends: seq<nat>, q: nat)
    requires step(p, x, m) && more(m) && Run(step, more, close, m + 1, xs, ends, q)
    ensures Run(step, more, close, p, [x] + xs, [m] + ends, q)
  {
    var all, allEnds := [x] + xs, [m] + ends;
    assert all[0] == x && all[1..] == xs;
    assert allEnds[0] == m && allEnds[1..] == ends;
  }

  /** A run split after its first item, into named parts. */
  lemma Split<T>(step: (nat, T, nat) -> bool, more: nat -> bool, close: (nat, nat) -> bool,
                 p: nat, xs: seq<T>, ends: seq<nat>, q: nat)
      returns (x: T, m: nat, rest: seq<T>, restEnds: seq<nat>)
    requires Run(step, more, close, p, xs, ends, q)
    ensures xs == [x] + rest && ends == [m] + restEnds && step(p, x, m)
    ensures rest == [] ==> close(m, q) && xs == [x] && ends == [m]
    ensures rest != [] ==> more(m) && Run(step, more, close, m + 1, rest, restEnds, q)
  {
    x, m, rest, restEnds := xs[0], ends[0], xs[1..], ends[1..];
    assert xs == [x] + rest && ends == [m] + restEnds;
  }

  /**
   * A loop that reads one item per pass: `loop(done, p)` is what the loop
   * returns when the items `done` have been read and the next pass starts
   * at `p`. A pass whose item is followed by the closing `close(m, q)`
   * returns `ret(done + [x], q)`.
   */
  ghost predicate ClosingPass<T(!new), R>(step: (nat, T, nat) -> bool, close: (nat, nat) -> bool,
                                          loop: (seq<T>, nat) -> R, ret: (seq<T>, nat) -> R)
  {
    forall done: seq<T>, p: nat, x: T, m: nat, q: nat {:trigger loop(done, p), step(p, x, m), close(m, q)} ::
      step(p, x, m) && close(m, q) ==> loop(done, p) == ret(done + [x], q)
  }

  /** A pass whose item is followed by a separator hands over to the next pass. */
  ghost predicate ContinuingPass<T(!new), R>(step: (nat, T, nat) -> bool, more: nat -> bool, loop: (seq<T>, nat) -> R)
  {
    forall done: seq<T>, p: nat, x: T, m: nat {:trigger loop(done, p), step(p, x, m)} ::
      step(p, x, m) && more(m) ==> loop(done, p) == loop(done + [x], m + 1)
  }

  /**
   * Every pass that succeeds (`ok`) reads an item and then either closes the
   * loop or continues it nearer the end of the input (`measure`).
   */
  ghost predicate PassesProgress<T(!new), R>(step: (nat, T, nat) -> bool, more: nat -> bool, close: (nat, nat) -> bool,
                                       loop: (seq<T>, nat) -> R, ok: R -> bool, measure: nat -> nat)
  {
    forall done: seq<T>, p: nat {:trigger loop(done, p)} :: ok(loop(done, p)) ==>
      exists x: T, m: nat, q: nat {:trigger step(p, x, m), close(m, q)} ::
        step(p, x, m) && (close(m, q) || (more(m) && measure(m + 1) < measure(p)))
  }

  /** A loop over a run returns the items of the run, after those already read. */
  lemma {:induction false} LoopOfRun<T(!new), R>(step: (nat, T, nat) -> bool, more: nat -> bool, close: (nat, nat) -> bool,
                                           loop: (seq<T>, nat) -> R, ret: (seq<T>, nat) -> R,
                                           done: seq<T>, p: nat, xs: seq<T>, ends: seq<nat>, q: nat)
    requires ClosingPass(step, close, loop, ret) && ContinuingPass(step, more, loop)
    requires Run(step, more, close, p, xs, ends, q)
    ensures loop(done, p) == ret(done + xs, q)
    decreases |xs|
  {
    var x, m, rest, restEnds := Split(step, more, close, p, xs, ends, q);
    if rest == [] {
      assert loop(done, p) == ret(done + [x], q);
    } else {
      assert loop(done, p) == loop(done + [x], m + 1);
      LoopOfRun(step, more, close, loop, ret, done + [x], m + 1, rest, restEnds, q);
      ConcatAssoc(done, [x], rest);
    }
  }

  /** A loop that succeeds has read a run, and returns its items. */
  lemma {:induction false} RunOfLoop<T(!new), R>(step: (nat, T, nat) -> bool, more: nat -> bool, close: (nat, nat) -> bool,
                                           loop: (seq<T>, nat) -> R, ret: (seq<T>, nat) -> R, ok: R -> bool,
                                           measure: nat -> nat, done: seq<T>, p: nat)
      returns (xs: seq<T>, ends: seq<nat>, q: nat)
    requires ClosingPass(step, close, loop, ret) && ContinuingPass(step, more, loop)
    requires PassesProgress(step, more, close, loop, ok, measure) && ok(loop(done, p))
    ensures loop(done, p) == ret(done + xs, q)
    ensures Run(step, more, close, p, xs, ends, q)
    decreases measure(p)
  {
    var x, m, last :| step(p, x, m) && (close(m, last) || (more(m) && measure(m + 1) < measure(p)));
    if close(m, last) {
      xs, ends, q := [x], [m], last;
      assert loop(done, p) == ret(done + [x], q);
      One(step, more, close, p, x, m, q);
    } else {
      assert loop(done, p) == loop(done + [x], m + 1);
      var rest, restEnds;
      rest, restEnds, q := RunOfLoop(step, more, close, loop, ret, ok, measure, done + [x], m + 1);
      xs, ends := [x] + rest, [m] + restEnds;
      ConcatAssoc(done, [x], rest);
      Cons(step, more, close, p, x, m, rest, restEnds, q);
    }
  }
}
