/** Laws of the Option combinators, each relating an operation to a partner:
    its dual, its inverse, the operation it specialises, or its truth table. */
module OptionLaws {
  import opened Enums

  /** Tag predicates: an Option is `Some` of some value, or `None`, and never both. */
  lemma TagsPartition<T>(o: Option<T>)
    ensures o.IsSome() <==> exists v :: o == Some(v)
    ensures o.IsNone() <==> !exists v :: o == Some(v)
  {
  }

  /** IsSomeAnd holds exactly when the receiver is `Some` of a value satisfying the predicate. */
  lemma IsSomeAndMeaning<T>(o: Option<T>, f: T -> bool)
    ensures o.IsSomeAnd(f) <==> exists v :: o == Some(v) && f(v)
  {
  }

  /** IsNoneOr holds exactly when every value the receiver holds satisfies the predicate;
      it is true on `None` and equals `f(v)` on `Some(v)`. */
  lemma IsNoneOrMeaning<T>(o: Option<T>, f: T -> bool)
    ensures o.IsNoneOr(f) <==> forall v :: o == Some(v) ==> f(v)
    ensures o.IsNone() ==> o.IsNoneOr(f)
    ensures o.IsSome() ==> o.IsNoneOr(f) == f(o.value)
  {
  }

  /** On `Some`, every fallback is ignored. */
  lemma SomeIgnoresFallback<T, U, E>(x: T, optb: Option<T>, fo: () -> Option<T>, d: T, fd: () -> T,
                                     du: U, fu: () -> U, g: T -> U, e: E, fe: () -> E)
    ensures Some(x).Or(optb) == Some(x)
    ensures Some(x).OrElse(fo) == Some(x)
    ensures Some(x).UnwrapOr(d) == x
    ensures Some(x).UnwrapOrElse(fd) == x
    ensures Some(x).MapOr(du, g) == g(x)
    ensures Some(x).MapOrElse(fu, g) == g(x)
    ensures Some(x).OkOr(e) == Ok(x)
    ensures Some(x).OkOrElse(fe) == Ok(x)
  {
  }

  /** OrElse is Or applied to the fallback's result. */
  lemma OrElseIsOr<T>(o: Option<T>, f: () -> Option<T>)
    ensures o.OrElse(f) == o.Or(f())
  {
  }

  /** Or keeps the first `Some`: it is associative with `None` as identity on both sides. */
  lemma OrMonoid<T>(a: Option<T>, b: Option<T>, c: Option<T>)
    ensures a.Or(b).Or(c) == a.Or(b.Or(c))
    ensures None.Or(a) == a && a.Or(None) == a
  {
  }

  /** The truth table of Xor. */
  lemma XorTruthTable<T>(a: T, b: T)
    ensures Some(a).Xor(None) == Some(a)
    ensures None.Xor(Some(b)) == Some(b)
    ensures Some(a).Xor(Some(b)) == None
    ensures Option<T>.None.Xor(None) == None
  {
  }

  /** Xor is symmetric, and agrees with Or when at most one operand is `Some`. */
  lemma XorSymmetric<T>(a: Option<T>, b: Option<T>)
    ensures a.Xor(b) == b.Xor(a)
    ensures !(a.IsSome() && b.IsSome()) ==> a.Xor(b) == a.Or(b)
  {
  }

  /** The truth table of And: `optb` when both are `Some`, `None` otherwise. */
  lemma AndTruthTable<T, U>(x: T, y: U)
    ensures Some(x).And(Some(y)) == Some(y)
    ensures Some(x).And(Option<U>.None) == None
    ensures Option<T>.None.And(Some(y)) == None
    ensures Option<T>.None.And(Option<U>.None) == None
  {
  }

  /** And is Zip followed by keeping the second component. */
  lemma AndIsZipSecond<T, U>(o: Option<T>, p: Option<U>)
    ensures o.And(p) == o.Zip(p).Map((t: (T, U)) => t.1)
  {
  }

  /** Zip is `Some((a, b))` exactly when the operands are `Some(a)` and `Some(b)`. */
  lemma ZipMeaning<T, U>(o: Option<T>, p: Option<U>, a: T, b: U)
    ensures o.Zip(p) == Some((a, b)) <==> o == Some(a) && p == Some(b)
    ensures o.Zip(p).IsNone() <==> o.IsNone() || p.IsNone()
  {
  }

  /** Unzipping a zip gives back both operands when both are `Some`. */
  lemma ZipProjections<T, U>(o: Option<T>, p: Option<U>)
    ensures o.Zip(p).Map((t: (T, U)) => t.0) == (if p.IsSome() then o else None)
    ensures o.Zip(p).Map((t: (T, U)) => t.1) == (if o.IsSome() then p else None)
  {
  }

  /** Functor laws: mapping the identity changes nothing, and maps compose. */
  lemma MapFunctor<T, U, V>(o: Option<T>, f: T -> U, g: U -> V)
    ensures o.Map(x => x) == o
    ensures o.Map(f).Map(g) == o.Map(x => g(f(x)))
  {
  }

  /** Map is AndThen with a function that always succeeds. */
  lemma MapIsAndThen<T, U>(o: Option<T>, f: T -> U)
    ensures o.Map(f) == o.AndThen(x => Some(f(x)))
  {
  }

  /** Monad laws for AndThen: `Some` is a left and right identity, `None` absorbs
      every continuation, and chaining is associative. */
  lemma AndThenMonad<T, U, V>(o: Option<T>, x: T, f: T -> Option<U>, g: U -> Option<V>)
    ensures Some(x).AndThen(f) == f(x)
    ensures o.AndThen(y => Some(y)) == o
    ensures Option<T>.None.AndThen(f) == None
    ensures o.AndThen(f).AndThen(g) == o.AndThen(y => f(y).AndThen(g))
  {
  }

  /** And is AndThen with a constant continuation: `Some(x).And(None)` is `None` because
      the continuation itself returns `None`. */
  lemma AndIsAndThenConst<T, U>(o: Option<T>, p: Option<U>)
    ensures o.And(p) == o.AndThen(_ => p)
  {
  }

  /** Expect and Unwrap agree, whatever the message. */
  lemma ExpectIsUnwrap<T>(o: Option<T>, msg: string)
    requires o.IsSome()
    ensures o.Expect(msg) == o.Unwrap()
    ensures forall d :: o.Unwrap() == o.UnwrapOr(d)
  {
  }

  /** UnwrapOr is MapOr with the identity; UnwrapOrElse is MapOrElse with the identity. */
  lemma UnwrapOrIsMapOrIdentity<T>(o: Option<T>, d: T, f: () -> T)
    ensures o.UnwrapOr(d) == o.MapOr(d, x => x)
    ensures o.UnwrapOrElse(f) == o.MapOrElse(f, x => x)
  {
  }

  /** Round trip: converting to a Result with any error and projecting back gives the
      original Option, so defaults are unaffected by the detour. */
  lemma OkOrRoundTrip<T, E>(o: Option<T>, e: E, fe: () -> E, d: T)
    ensures o.OkOr(e).OptionOk() == o
    ensures o.OkOrElse(fe).OptionOk() == o
    ensures o.OkOr(e).OptionOk().UnwrapOr(d) == o.UnwrapOr(d)
    ensures o.OkOr(e).OptionErr() == (if o.IsSome() then None else Some(e))
  {
  }

  /** The Option reached by feeding `o` through the continuations `fs` with AndThen,
      left to right: `o.AndThen(fs[0]).AndThen(fs[1])...`.  A `None` anywhere in the
      chain stays `None` to the end. */
  function AndThenChain<T>(o: Option<T>, fs: seq<T -> Option<T>>): (r: Option<T>)
    ensures o.IsNone() ==> r.IsNone()
    decreases |fs|
  {
    if fs == [] then o else AndThenChain(o.AndThen(fs[0]), fs[1..])
  }

  /** A continuation that gives `None` stops the chain: if the first `k` steps lead to
      `Some(w)` and step `k` maps `w` to `None`, everything after it is skipped. */
  lemma AndThenChainStops<T>(o: Option<T>, w: T, fs: seq<T -> Option<T>>, k: nat)
    requires k < |fs| && AndThenChain(o, fs[..k]) == Some(w) && fs[k](w).IsNone()
    ensures AndThenChain(o, fs).IsNone()
  {
    assert fs == fs[..k] + fs[k..];
    AndThenChainSplit(o, fs[..k], fs[k..]);
    assert fs[k..][0] == fs[k];
  }

  /** A chain that ends in `Some` had `Some` after every one of its steps. */
  lemma AndThenChainSomeEveryStep<T>(o: Option<T>, fs: seq<T -> Option<T>>, k: nat)
    requires k <= |fs| && AndThenChain(o, fs).IsSome()
    ensures AndThenChain(o, fs[..k]).IsSome()
  {
    assert fs == fs[..k] + fs[k..];
    AndThenChainSplit(o, fs[..k], fs[k..]);
  }

  /** A chain can be cut anywhere: running `fs + gs` is running `fs`, then `gs` on what
      `fs` produced. */
  lemma {:induction false} AndThenChainSplit<T>(o: Option<T>, fs: seq<T -> Option<T>>, gs: seq<T -> Option<T>>)
    ensures AndThenChain(o, fs + gs) == AndThenChain(AndThenChain(o, fs), gs)
    decreases |fs|
  {
    if fs == [] {
      assert fs + gs == gs;
    } else {
      assert (fs + gs)[0] == fs[0];
      assert (fs + gs)[1..] == fs[1..] + gs;
      AndThenChainSplit(o.AndThen(fs[0]), fs[1..], gs);
    }
  }
}
