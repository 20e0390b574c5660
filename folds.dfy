/** A left fold whose step may raise: the shape of every line-by-line scan in
    the log code, where an exception in one step ends the whole scan. */
module Folds {
  import opened Wrappers

  /** Threads the state `s` through `xs`; the first step that raises ends the fold. */
  function Fold<S, X>(step: (S, X) -> Result<S>, s: S, xs: seq<X>): Result<S>
    decreases |xs|
  {
    if xs == [] then Ok(s)
    else
      match step(s, xs[0])
      case Raised(e) => Raised(e)
      case Ok(t) => Fold(step, t, xs[1..])
  }

  /** Folding over `a + b` is folding over `a` and then over `b`. */
  lemma {:induction false} FoldAppend<S, X>(step: (S, X) -> Result<S>, s: S, a: seq<X>, b: seq<X>)
    ensures Fold(step, s, a + b) ==
      match Fold(step, s, a)
      case Raised(e) => Raised(e)
      case Ok(t) => Fold(step, t, b)
    decreases |a|
  {
    if a == [] {
      assert a + b == b;
    } else {
      assert (a + b)[0] == a[0];
      assert (a + b)[1..] == a[1..] + b;
      match step(s, a[0])
      case Raised(e) =>
      case Ok(t) => FoldAppend(step, t, a[1..], b);
    }
  }

  /** A step that leaves the state unchanged can be dropped. */
  lemma {:induction false} FoldSkip<S, X>(step: (S, X) -> Result<S>, s: S, a: seq<X>, x: X, b: seq<X>)
    requires forall t :: step(t, x) == Ok(t)
    ensures Fold(step, s, a + [x] + b) == Fold(step, s, a + b)
  {
    FoldAppend(step, s, a + [x], b);
    FoldAppend(step, s, a, [x]);
    FoldAppend(step, s, a, b);
    match Fold(step, s, a)
    case Raised(e) =>
    case Ok(t) =>
      assert Fold(step, t, [x]) == Ok(t) by {
        assert [x][1..] == [];
      }
  }

  /** Three successful steps in a row. */
  lemma FoldThree<S, X>(step: (S, X) -> Result<S>, s0: S, a: X, b: X, c: X, s1: S, s2: S, s3: S)
    requires step(s0, a) == Ok(s1) && step(s1, b) == Ok(s2) && step(s2, c) == Ok(s3)
    ensures Fold(step, s0, [a, b, c]) == Ok(s3)
  {
    assert Fold(step, s2, [c]) == Ok(s3) by {
      assert [c][1..] == [];
    }
    assert Fold(step, s1, [b, c]) == Ok(s3) by {
      assert [b, c][1..] == [c];
    }
    assert [a, b, c][1..] == [b, c];
  }

  /** Concatenation regroups freely; a hint the solver needs inside larger proofs. */
  lemma AppendAssociative<T>(a: seq<T>, b: seq<T>, c: seq<T>)
    ensures (a + b) + c == a + (b + c)
  {
  }

  /** A property every successful step preserves holds of a successful fold. */
  lemma {:induction false} FoldInvariant<S, X>(step: (S, X) -> Result<S>, p: S -> bool, s: S, xs: seq<X>)
    requires forall t, x :: p(t) && step(t, x).Ok? ==> p(step(t, x).value)
    requires p(s)
    ensures Fold(step, s, xs).Ok? ==> p(Fold(step, s, xs).value)
    decreases |xs|
  {
    if xs != [] && step(s, xs[0]).Ok? {
      FoldInvariant(step, p, step(s, xs[0]).value, xs[1..]);
    }
  }

  /** A fold succeeds exactly when every element passes `q`, if a step
      succeeds exactly on the elements that pass `q`. */
  lemma {:induction false} FoldSucceeds<S, X>(step: (S, X) -> Result<S>, q: X -> bool, s: S, xs: seq<X>)
    requires forall t, x :: step(t, x).Ok? <==> q(x)
    ensures Fold(step, s, xs).Ok? <==> forall i :: 0 <= i < |xs| ==> q(xs[i])
    decreases |xs|
  {
    if xs != [] && step(s, xs[0]).Ok? {
      FoldSucceeds(step, q, step(s, xs[0]).value, xs[1..]);
      assert forall i :: 1 <= i < |xs| ==> xs[i] == xs[1..][i - 1];
    }
  }

  /** If a step keeps `p` exactly when its element passes `q`, a successful
      fold ends in `p` exactly when it starts in `p` and every element
      passes `q`. */
  lemma {:induction false} FoldAll<S, X>(step: (S, X) -> Result<S>, p: S -> bool, q: X -> bool, s: S, xs: seq<X>)
    requires forall t, x :: step(t, x).Ok? ==> (p(step(t, x).value) <==> p(t) && q(x))
    requires Fold(step, s, xs).Ok?
    ensures p(Fold(step, s, xs).value) <==> p(s) && forall i :: 0 <= i < |xs| ==> q(xs[i])
    decreases |xs|
  {
    if xs != [] {
      FoldAll(step, p, q, step(s, xs[0]).value, xs[1..]);
      assert forall i :: 1 <= i < |xs| ==> xs[i] == xs[1..][i - 1];
    }
  }

  /** If every step records its element in the state and keeps what was
      recorded, a successful fold has recorded every element. */
  lemma {:induction false} FoldCollects<S, X>(step: (S, X) -> Result<S>, keeps: (X, S) -> bool, s: S, xs: seq<X>, i: nat)
    requires forall t, x, y :: step(t, x).Ok? && keeps(y, t) ==> keeps(y, step(t, x).value)
    requires forall t, x :: step(t, x).Ok? ==> keeps(x, step(t, x).value)
    requires Fold(step, s, xs).Ok? && i < |xs|
    ensures keeps(xs[i], Fold(step, s, xs).value)
    decreases |xs|
  {
    var t := step(s, xs[0]).value;
    if i == 0 {
      FoldInvariant(step, (u: S) => keeps(xs[0], u), t, xs[1..]);
    } else {
      FoldCollects(step, keeps, t, xs[1..], i - 1);
    }
  }

  /** A relation that is reflexive, transitive and holds across every
      successful step holds between the start and the end of a successful
      fold. */
  lemma {:induction false} FoldPreorder<S, X>(step: (S, X) -> Result<S>, rel: (S, S) -> bool, s: S, xs: seq<X>)
    requires forall a :: rel(a, a)
    requires forall a, b, c :: rel(a, b) && rel(b, c) ==> rel(a, c)
    requires forall t, x :: step(t, x).Ok? ==> rel(t, step(t, x).value)
    ensures Fold(step, s, xs).Ok? ==> rel(s, Fold(step, s, xs).value)
    decreases |xs|
  {
    if xs != [] && step(s, xs[0]).Ok? {
      var t := step(s, xs[0]).value;
      FoldPreorder(step, rel, t, xs[1..]);
      if Fold(step, t, xs[1..]).Ok? {
        assert rel(s, t) && rel(t, Fold(step, t, xs[1..]).value);
      }
    }
  }

  /** A fold that succeeds is tracked by a second fold whose step succeeds
      wherever the first one does, keeping `rel` between their states. */
  lemma {:induction false} FoldSimulates<S, T, X>(step: (S, X) -> Result<S>, other: (T, X) -> Result<T>,
                                                  rel: (S, T) -> bool, s: S, u: T, xs: seq<X>)
    requires forall a, b, x :: rel(a, b) && step(a, x).Ok? ==> other(b, x).Ok? && rel(step(a, x).value, other(b, x).value)
    requires rel(s, u) && Fold(step, s, xs).Ok?
    ensures Fold(other, u, xs).Ok? && rel(Fold(step, s, xs).value, Fold(other, u, xs).value)
    decreases |xs|
  {
    if xs != [] {
      FoldSimulates(step, other, rel, step(s, xs[0]).value, other(u, xs[0]).value, xs[1..]);
    }
  }
}
