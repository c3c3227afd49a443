/** Recorded histories: every state a sequence of changes passes through. */
module History {

  /** `h` lists the states after each change: each follows from the one before, beginning at `from`, and the
      last one is `to`; without a change nothing is different. */
  ghost predicate Chain<S(!new)>(step: (S, S) -> bool, from: S, h: seq<S>, to: S) {
    if h == [] then from == to
    else
      var n := |h| - 1;
      var before := if n == 0 then from else h[n - 1];
      h[n] == to && step(before, to) && Chain(step, from, h[..n], before)
  }

  lemma ChainGrows<S(!new)>(step: (S, S) -> bool, from: S, h: seq<S>, to: S, next: S)
    requires Chain(step, from, h, to) && step(to, next)
    ensures Chain(step, from, h + [next], next)
  {
    assert (h + [next])[..|h|] == h;
  }
}
