/** Laws of the Result combinators, each relating an operation to a partner:
    its dual, the combinator it specialises, or the Option projections. */
module ResultLaws {
  import opened Enums

  /** Tag predicates: a Result is `Ok` of some value or `Err` of some error, never both. */
  lemma TagsPartition<T, E>(r: Result<T, E>)
    ensures r.IsOk() <==> exists v :: r == Ok(v)
    ensures r.IsErr() <==> exists e :: r == Err(e)
    ensures r.IsOk() != r.IsErr()
  {
  }

  /** IsOkAnd / IsErrAnd hold exactly when the matching payload satisfies the predicate. */
  lemma IsOkAndIsErrAndMeaning<T, E>(r: Result<T, E>, f: T -> bool, g: E -> bool)
    ensures r.IsOkAnd(f) <==> exists v :: r == Ok(v) && f(v)
    ensures r.IsErrAnd(g) <==> exists e :: r == Err(e) && g(e)
    ensures r.IsOkAnd(f) == r.OptionOk().IsSomeAnd(f)
    ensures r.IsErrAnd(g) == r.OptionErr().IsSomeAnd(g)
  {
  }

  /** Checked unwrapping: Unwrap and Expect give back the payload of an `Ok`,
      UnwrapErr and ExpectErr that of an `Err`. */
  lemma UnwrapInverts<T, E>(v: T, e: E, msg: string)
    ensures Result<T, E>.Ok(v).Unwrap() == v && Result<T, E>.Ok(v).Expect(msg) == v
    ensures Result<T, E>.Err(e).UnwrapErr() == e && Result<T, E>.Err(e).ExpectErr(msg) == e
  {
  }

  /** Unwrap reads the same value as the projection to Option. */
  lemma UnwrapIsOptionOkUnwrap<T, E>(r: Result<T, E>)
    requires r.IsOk()
    ensures r.OptionOk().IsSome() && r.OptionOk().Unwrap() == r.Unwrap()
  {
  }

  /** And is AndThen with a constant continuation; an `Err` keeps its payload. */
  lemma AndIsAndThenConst<T, U, E>(r: Result<T, E>, s: Result<U, E>, e: E)
    ensures r.And(s) == r.AndThen(_ => s)
    ensures Result<T, E>.Err(e).And(s) == Err(e)
  {
  }

  /** Monad laws for AndThen: `Ok` is a left and right identity, an `Err` short-circuits
      every continuation, and chaining is associative. */
  lemma AndThenMonad<T, U, V, E>(r: Result<T, E>, x: T, e: E, f: T -> Result<U, E>, g: U -> Result<V, E>)
    ensures Result<T, E>.Ok(x).AndThen(f) == f(x)
    ensures r.AndThen(y => Ok(y)) == r
    ensures Result<T, E>.Err(e).AndThen(f) == Err(e)
    ensures r.AndThen(f).AndThen(g) == r.AndThen(y => f(y).AndThen(g))
  {
  }

  /** Functor laws for Map and MapErr: identities change nothing, maps compose, and
      mapping the value commutes with mapping the error. */
  lemma MapFunctor<T, U, V, E, F, G>(r: Result<T, E>, f: T -> U, g: U -> V, h: E -> F, k: F -> G)
    ensures r.Map(x => x) == r
    ensures r.MapErr(x => x) == r
    ensures r.Map(f).Map(g) == r.Map(x => g(f(x)))
    ensures r.MapErr(h).MapErr(k) == r.MapErr(x => k(h(x)))
    ensures r.Map(f).MapErr(h) == r.MapErr(h).Map(f)
  {
  }

  /** Map is AndThen with a function that always succeeds. */
  lemma MapIsAndThen<T, U, E>(r: Result<T, E>, f: T -> U)
    ensures r.Map(f) == r.AndThen(x => Ok(f(x)))
  {
  }

  /** Or is OrElse with a constant fallback; on `Ok` the fallback is ignored. */
  lemma OrIsOrElseConst<T, E, F>(r: Result<T, E>, s: Result<T, F>, x: T, f: E -> Result<T, F>)
    ensures r.Or(s) == r.OrElse(_ => s)
    ensures Result<T, E>.Ok(x).Or(s) == Ok(x)
    ensures Result<T, E>.Ok(x).OrElse(f) == Ok(x)
  {
  }

  /** OrElse chains on the error side: `Err` is a left and right identity and chaining
      is associative. */
  lemma OrElseMonad<T, E, F, G>(r: Result<T, E>, e: E, f: E -> Result<T, F>, g: F -> Result<T, G>)
    ensures Result<T, E>.Err(e).OrElse(f) == f(e)
    ensures r.OrElse(y => Err(y)) == r
    ensures r.OrElse(f).OrElse(g) == r.OrElse(y => f(y).OrElse(g))
  {
  }

  /** UnwrapOr is MapOr with the identity; UnwrapOrElse is MapOrElse with the identity. */
  lemma UnwrapOrIsMapOrIdentity<T, E>(r: Result<T, E>, d: T, f: E -> T)
    ensures r.UnwrapOr(d) == r.MapOr(d, x => x)
    ensures r.UnwrapOrElse(f) == r.MapOrElse(f, x => x)
  {
  }

  /** MapOrElse is the general eliminator: MapOr is MapOrElse with a constant error arm. */
  lemma MapOrIsMapOrElseConst<T, E, U>(r: Result<T, E>, d: U, f: T -> U)
    ensures r.MapOr(d, f) == r.MapOrElse(_ => d, f)
  {
  }

  /** Exactly one projection is `Some`, and it is OptionOk exactly on `Ok`. */
  lemma ProjectionsPartition<T, E>(r: Result<T, E>)
    ensures r.OptionOk().IsSome() != r.OptionErr().IsSome()
    ensures r.IsOk() == r.OptionOk().IsSome()
    ensures r.IsErr() == r.OptionErr().IsSome()
  {
  }

  /** Round trip: projecting to Option and converting back with error `d` is `Or(Err(d))`,
      which gives `r` back on `Ok`; on `Err`, the error projection recovers the error. */
  lemma OptionOkRoundTrip<T, E>(r: Result<T, E>, d: E)
    ensures r.OptionOk().OkOr(d) == r.Or(Err(d))
    ensures r.IsOk() ==> r.OptionOk().OkOr(d) == r
    ensures r.IsErr() ==> r.OptionOk().OkOr(r.OptionErr().Unwrap()) == r
  {
  }

  /** The Result reached by feeding `r` through the continuations `fs` with AndThen,
      left to right.  An `Err` anywhere in the chain is the final result, unchanged. */
  function AndThenChain<T, E>(r: Result<T, E>, fs: seq<T -> Result<T, E>>): (res: Result<T, E>)
    ensures r.IsErr() ==> res == r
    decreases |fs|
  {
    if fs == [] then r else AndThenChain(r.AndThen(fs[0]), fs[1..])
  }

  /** The first failing continuation decides the result: if the first `k` steps lead to
      `Ok(w)` and step `k` maps `w` to `Err(e)`, later steps are skipped. */
  lemma AndThenChainFirstErr<T, E>(r: Result<T, E>, w: T, e: E, fs: seq<T -> Result<T, E>>, k: nat)
    requires k < |fs| && AndThenChain(r, fs[..k]) == Ok(w) && fs[k](w) == Err(e)
    ensures AndThenChain(r, fs) == Err(e)
  {
    assert fs == fs[..k] + fs[k..];
    AndThenChainSplit(r, fs[..k], fs[k..]);
    assert fs[k..][0] == fs[k];
  }

  /** A chain that ends in `Ok` had `Ok` after every one of its steps. */
  lemma AndThenChainOkEveryStep<T, E>(r: Result<T, E>, fs: seq<T -> Result<T, E>>, k: nat)
    requires k <= |fs| && AndThenChain(r, fs).IsOk()
    ensures AndThenChain(r, fs[..k]).IsOk()
  {
    assert fs == fs[..k] + fs[k..];
    AndThenChainSplit(r, fs[..k], fs[k..]);
  }

  /** An AndThen chain can be cut anywhere: running `fs + gs` is running `fs`, then `gs`
      on what `fs` produced. */
  lemma {:induction false} AndThenChainSplit<T, E>(r: Result<T, E>, fs: seq<T -> Result<T, E>>, gs: seq<T -> Result<T, E>>)
    ensures AndThenChain(r, fs + gs) == AndThenChain(AndThenChain(r, fs), gs)
    decreases |fs|
  {
    if fs == [] {
      assert fs + gs == gs;
    } else {
      assert (fs + gs)[0] == fs[0];
      assert (fs + gs)[1..] == fs[1..] + gs;
      AndThenChainSplit(r.AndThen(fs[0]), fs[1..], gs);
    }
  }

  /** The Result reached by trying the recoveries `fs` with OrElse, left to right.
      An `Ok` anywhere in the chain is the final result, unchanged. */
  function OrElseChain<T, E>(r: Result<T, E>, fs: seq<E -> Result<T, E>>): (res: Result<T, E>)
    ensures r.IsOk() ==> res == r
    decreases |fs|
  {
    if fs == [] then r else OrElseChain(r.OrElse(fs[0]), fs[1..])
  }

  /** The first recovery that succeeds decides the result: if the first `k` recoveries
      lead to `Err(d)` and recovery `k` maps `d` to `Ok(v)`, later ones are skipped. */
  lemma OrElseChainFirstOk<T, E>(r: Result<T, E>, d: E, v: T, fs: seq<E -> Result<T, E>>, k: nat)
    requires k < |fs| && OrElseChain(r, fs[..k]) == Err(d) && fs[k](d) == Ok(v)
    ensures OrElseChain(r, fs) == Ok(v)
  {
    assert fs == fs[..k] + fs[k..];
    OrElseChainSplit(r, fs[..k], fs[k..]);
    assert fs[k..][0] == fs[k];
  }

  /** An OrElse chain can be cut anywhere: running `fs + gs` is running `fs`, then `gs`
      on what `fs` produced. */
  lemma {:induction false} OrElseChainSplit<T, E>(r: Result<T, E>, fs: seq<E -> Result<T, E>>, gs: seq<E -> Result<T, E>>)
    ensures OrElseChain(r, fs + gs) == OrElseChain(OrElseChain(r, fs), gs)
    decreases |fs|
  {
    if fs == [] {
      assert fs + gs == gs;
    } else {
      assert (fs + gs)[0] == fs[0];
      assert (fs + gs)[1..] == fs[1..] + gs;
      OrElseChainSplit(r.OrElse(fs[0]), fs[1..], gs);
    }
  }
}
