# Rusting enums in Dafny

A model of the `Rusting.Enums` namespace: Rust's `Option<T>` and `Result<T, E>` ported to C#
as records. Each C# type is an abstract record with two nested record variants, and the model
treats it as a closed two-variant sum type:

- `Option<T>`: `Some(Value)` or `None`;
- `Result<T, E>`: `Ok(Value)` or `Err(Value)`.

Each type has a set of combinators. In Dafny both types are datatypes with member functions,
and both live in the module `Enums` (`enums.dfy`). They share one module because each refers
to the other: `Option.OkOr` builds a `Result`, and `Result.OptionOk` builds an `Option`.

Modelling decisions:

- Every `switch`/`is` body becomes a `match` or a tag test. Dafny checks that every `match`
  is exhaustive. The source's `_ => throw new UnreachableException()` arms therefore have no
  counterpart. In C# they can be reached, by a third derived record or by a null payload;
  both are out of the model (see "Left out").
- `Unwrap`, `Expect`, `UnwrapErr` and `ExpectErr` throw on the wrong variant. In the model
  they have that variant as a precondition (`requires IsSome()`, `requires IsOk()`,
  `requires IsErr()`).
- `SingleParamFunc<A, B>` callbacks are total arrows `A -> B`. The lazy `Func<X>` fallbacks
  are zero-argument arrows `() -> X`. `Inspect`'s `SingleParamVoidFunc<T>` is `T -> ()`.
- The source spells Option's default-unwrap `UnwarpOr`. The model calls it
  `Option.UnwrapOr`, matching `Result.UnwrapOr`.
- Both payloads of `Result` are called `Value` in C#. A Dafny datatype needs distinct
  destructor names, so they are `value` (for `Ok`) and `error` (for `Err`).

The laws are in `option_laws.dfy` (module `OptionLaws`) and `result_laws.dfy`
(module `ResultLaws`). They cover:

- how tags partition the values;
- truth tables for `Xor`, `And` and `Zip`;
- functor and monad laws for `Map`, `MapErr`, `AndThen` and `OrElse`;
- how each combinator relates to the general one it specialises (`UnwrapOr` is `MapOr` with
  the identity, `And` is `AndThen` with a constant continuation, and so on);
- the round trips between `Option` and `Result`.

Chains of `AndThen` (and of `Result.OrElse`) calls are modelled as a fold over a sequence of
continuations (`AndThenChain`, `OrElseChain`). These functions state the propagation discipline
a chain of calls follows:

- a `None` or an `Err` passes unchanged to the end of an `AndThen` chain;
- an `Ok` passes unchanged to the end of an `OrElse` chain;
- a chain can be split anywhere.

The chains are same-typed: every step of `AndThenChain` maps `T` to `Option<T>` or to
`Result<T, E>`, and every step of `OrElseChain` maps `E` to `Result<T, E>`. In C# each
`AndThen<U>`/`OrElse<F>` call may change the payload type; for two steps of different types
the associativity laws `AndThenMonad` and `OrElseMonad` cover that case.

## Model

| member | source | states |
|---|---|---|
| Enums.Option.IsSome | Enums/Option.cs:9-13 | exactly one of `IsSome()` and `IsNone()` holds |
| Enums.Option.IsNone | Enums/Option.cs:13 | `IsNone()` holds exactly for the value `None` |
| Enums.Option.IsSomeAnd | Enums/Option.cs:11 | true only on `Some`, and there it equals `func(value)` |
| Enums.Option.IsNoneOr | Enums/Option.cs:15 | `IsNoneOr(f)` is the negation of `IsSomeAnd(x => !f(x))` |
| Enums.Option.Or | Enums/Option.cs:26 | the receiver if it is `Some`, otherwise `optb`; the result is `Some` iff either operand is |
| Enums.Option.OrElse | Enums/Option.cs:28 | the receiver if it is `Some`; only on `None` is the fallback's result used |
| Enums.Option.Xor | Enums/Option.cs:30-38 | `Some` iff exactly one operand is `Some`, and then it is that operand |
| Enums.Option.And | Enums/Option.cs:40-47 | `Some` iff both operands are `Some`, and then it equals `optb` |
| Enums.Option.AndThen | Enums/Option.cs:49-50 | `func(value)` on `Some`; `None` stays `None` |
| Enums.Option.Expect | Enums/Option.cs:52 | requires `Some`; the receiver is `Some` of the result |
| Enums.Option.Unwrap | Enums/Option.cs:54-55 | requires `Some`; the receiver is `Some` of the result |
| Enums.Option.UnwrapOr | Enums/Option.cs:57 | on `Some` the receiver is `Some` of the result; on `None` the result is `def` |
| Enums.Option.UnwrapOrElse | Enums/Option.cs:59 | equals `UnwrapOr` of the fallback's result |
| Enums.Option.Zip | Enums/Option.cs:61-68 | `Some` iff both operands are `Some`, and then it is the pair of their values |
| Enums.Option.Map | Enums/Option.cs:70-71 | keeps the variant, and the new value is `func` of the old one |
| Enums.Option.MapOr | Enums/Option.cs:73-74 | equals `Map(func).UnwrapOr(def)` |
| Enums.Option.MapOrElse | Enums/Option.cs:76-77 | equals `MapOr` with the fallback's result as default |
| Enums.Option.OkOr | Enums/Option.cs:79-80 | `Ok` iff the receiver is `Some`, carrying its value; otherwise `Err(err)` |
| Enums.Option.OkOrElse | Enums/Option.cs:82-83 | equals `OkOr` of the computed error |
| OptionLaws.TagsPartition | Enums/Option.cs:5-13 | `IsSome()` iff the value is `Some(v)` for some `v`; `IsNone()` iff it is not |
| OptionLaws.IsSomeAndMeaning | Enums/Option.cs:11 | `IsSomeAnd(f)` iff the value is `Some(v)` with `f(v)` |
| OptionLaws.IsNoneOrMeaning | Enums/Option.cs:15 | `IsNoneOr(f)` iff every held value satisfies `f`: true on `None`, `f(v)` on `Some(v)` |
| Enums.Option.Inspect | Enums/Option.cs:17-24 | returns the receiver unchanged; the callback's effect is not modelled |
| OptionLaws.SomeIgnoresFallback | Enums/Option.cs:26-28 | on `Some(x)`, `Or`, `OrElse`, `UnwrapOr`, `UnwrapOrElse`, `MapOr`, `MapOrElse`, `OkOr` and `OkOrElse` ignore their fallback |
| OptionLaws.OrElseIsOr | Enums/Option.cs:26-28 | `OrElse(f)` is `Or(f())` |
| OptionLaws.OrMonoid | Enums/Option.cs:26 | `Or` is associative with `None` as two-sided identity |
| OptionLaws.XorTruthTable | Enums/Option.cs:30-38 | `(Some a, None)` gives `Some a`; `(None, Some b)` gives `Some b`; both or neither `Some` give `None` |
| OptionLaws.XorSymmetric | Enums/Option.cs:30-38 | `Xor` is symmetric, and equals `Or` unless both operands are `Some` |
| OptionLaws.AndTruthTable | Enums/Option.cs:40-47 | `Some(x).And(Some(y)) == Some(y)`; every other combination gives `None`, including `Some(x).And(None)` |
| OptionLaws.AndIsZipSecond | Enums/Option.cs:40-47 | `And` is `Zip` followed by taking the second component |
| OptionLaws.AndIsAndThenConst | Enums/Option.cs:40-50 | `o.And(p)` is `o.AndThen(_ => p)` |
| OptionLaws.ZipMeaning | Enums/Option.cs:61-68 | `Zip` is `Some((a, b))` iff the operands are `Some(a)` and `Some(b)`; `None` iff either is `None` |
| OptionLaws.ZipProjections | Enums/Option.cs:61-71 | the first component of a zip is the receiver when `other` is `Some`; the second is `other` when the receiver is `Some` |
| OptionLaws.MapFunctor | Enums/Option.cs:70-71 | `Map(id)` is the identity, and `Map(f).Map(g)` is `Map(g after f)` |
| OptionLaws.MapIsAndThen | Enums/Option.cs:49-71 | `Map(f)` is `AndThen(x => Some(f(x)))` |
| OptionLaws.AndThenMonad | Enums/Option.cs:49-50 | `Some` is a left and right identity of `AndThen`, `None.AndThen(f)` is `None`, and `AndThen` is associative |
| OptionLaws.ExpectIsUnwrap | Enums/Option.cs:52-57 | on `Some`, `Expect(msg)` and `Unwrap()` agree, and equal `UnwrapOr(d)` for every default `d` |
| OptionLaws.UnwrapOrIsMapOrIdentity | Enums/Option.cs:57-77 | `UnwrapOr(d)` is `MapOr(d, id)` and `UnwrapOrElse(f)` is `MapOrElse(f, id)` |
| OptionLaws.OkOrRoundTrip | Enums/Option.cs:79-83 | `o.OkOr(e).OptionOk() == o` for every `e` (also via `OkOrElse`), so `UnwrapOr` survives the detour; `OptionErr` of it is `Some(e)` exactly on `None` |
| OptionLaws.AndThenChain | Enums/Option.cs:49-50 | a `None` fed into a chain of `AndThen` calls comes out `None` |
| OptionLaws.AndThenChainStops | Enums/Option.cs:49-50 | if the first `k` steps give `Some(w)` and step `k` maps `w` to `None`, the whole chain gives `None` |
| OptionLaws.AndThenChainSomeEveryStep | Enums/Option.cs:49-50 | a chain that ends in `Some` gives `Some` after every prefix of its steps |
| OptionLaws.AndThenChainSplit | Enums/Option.cs:49-50 | running the chain `fs + gs` is running `fs` and then `gs` |
| Enums.Result.Unwrap | Enums/Result.cs:11-12 | requires `Ok`; the receiver is `Ok` of the result |
| Enums.Result.UnwrapErr | Enums/Result.cs:14-15 | requires `Err`; the receiver is `Err` of the result |
| Enums.Result.IsOk | Enums/Result.cs:17-19 | exactly one of `IsOk()` and `IsErr()` holds |
| Enums.Result.IsErr | Enums/Result.cs:19 | `IsErr()` holds exactly when the value is not `Ok` |
| Enums.Result.And | Enums/Result.cs:21-29 | `res` on `Ok`; on `Err` an `Err` with the same error payload |
| Enums.Result.AndThen | Enums/Result.cs:31-39 | `func(value)` on `Ok`; on `Err` an `Err` with the same error payload |
| Enums.Result.Expect | Enums/Result.cs:41 | requires `Ok`; agrees with `Unwrap` whatever the message |
| Enums.Result.ExpectErr | Enums/Result.cs:43-44 | requires `Err`; agrees with `UnwrapErr` whatever the message |
| Enums.Result.IsErrAnd | Enums/Result.cs:46 | true only on `Err`, and there it equals `func(error)` |
| Enums.Result.IsOkAnd | Enums/Result.cs:48 | true only on `Ok`, and there it equals `func(value)` |
| Enums.Result.Map | Enums/Result.cs:50-58 | keeps the variant; maps the success value by `func`, passes the error through unchanged |
| Enums.Result.MapErr | Enums/Result.cs:60-68 | keeps the variant; maps the error by `func`, passes the success value through unchanged |
| Enums.Result.MapOr | Enums/Result.cs:70-78 | equals `Map(func).UnwrapOr(def)` |
| Enums.Result.MapOrElse | Enums/Result.cs:80-88 | equals `Map(ok).UnwrapOrElse(err)` |
| Enums.Result.Or | Enums/Result.cs:90-98 | on `Ok(v)` an `Ok(v)` whatever `res`; on `Err` it is `res` |
| Enums.Result.OrElse | Enums/Result.cs:100-108 | on `Ok(v)` an `Ok(v)` whatever `func`; on `Err(e)` it is `func(e)` |
| Enums.Result.UnwrapOr | Enums/Result.cs:110-118 | on `Ok` the receiver is `Ok` of the result; on `Err` the result is `def` |
| Enums.Result.UnwrapOrElse | Enums/Result.cs:120-128 | on `Ok` the receiver is `Ok` of the result; on `Err(e)` the result is `func(e)` |
| Enums.Result.OptionOk | Enums/Result.cs:130-137 | `Some` iff the receiver is `Ok`, carrying its value |
| Enums.Result.OptionErr | Enums/Result.cs:139-146 | `Some` iff the receiver is `Err`, carrying its error |
| ResultLaws.TagsPartition | Enums/Result.cs:7-19 | `IsOk()` iff the value is `Ok(v)` for some `v`, `IsErr()` iff it is `Err(e)` for some `e`, never both |
| ResultLaws.IsOkAndIsErrAndMeaning | Enums/Result.cs:46-48 | `IsOkAnd(f)` iff the value is `Ok(v)` with `f(v)`, and likewise for `IsErrAnd`; both agree with `IsSomeAnd` on the projections |
| ResultLaws.UnwrapInverts | Enums/Result.cs:11-44 | `Ok(v).Unwrap() == v == Ok(v).Expect(m)`, `Err(e).UnwrapErr() == e == Err(e).ExpectErr(m)` |
| ResultLaws.UnwrapIsOptionOkUnwrap | Enums/Result.cs:11-137 | on `Ok`, `Unwrap` reads the same value as `OptionOk().Unwrap()` |
| ResultLaws.AndIsAndThenConst | Enums/Result.cs:21-39 | `r.And(s)` is `r.AndThen(_ => s)`, and `Err(e).And(s) == Err(e)` |
| ResultLaws.AndThenMonad | Enums/Result.cs:31-39 | `Ok` is a left and right identity of `AndThen`, `Err(e)` short-circuits it, and `AndThen` is associative |
| ResultLaws.MapFunctor | Enums/Result.cs:50-68 | `Map(id)` and `MapErr(id)` are identities, maps compose, and `Map` commutes with `MapErr` |
| ResultLaws.MapIsAndThen | Enums/Result.cs:31-58 | `Map(f)` is `AndThen(x => Ok(f(x)))` |
| ResultLaws.OrIsOrElseConst | Enums/Result.cs:90-108 | `r.Or(s)` is `r.OrElse(_ => s)`; on `Ok(x)` both give `Ok(x)` whatever the argument |
| ResultLaws.OrElseMonad | Enums/Result.cs:100-108 | `Err` is a left and right identity of `OrElse`, and `OrElse` is associative |
| ResultLaws.UnwrapOrIsMapOrIdentity | Enums/Result.cs:70-128 | `UnwrapOr(d) == MapOr(d, id)` and `UnwrapOrElse(f) == MapOrElse(f, id)` |
| ResultLaws.MapOrIsMapOrElseConst | Enums/Result.cs:70-88 | `MapOr(d, f)` is `MapOrElse(_ => d, f)` |
| ResultLaws.ProjectionsPartition | Enums/Result.cs:130-146 | exactly one of `OptionOk().IsSome()` and `OptionErr().IsSome()` holds; `IsOk() == OptionOk().IsSome()` |
| ResultLaws.OptionOkRoundTrip | Enums/Result.cs:90-137 | `r.OptionOk().OkOr(d)` is `r.Or(Err(d))`: it gives `r` back on `Ok`, and on `Err` when `d` is the projected error |
| ResultLaws.AndThenChain | Enums/Result.cs:31-39 | an `Err` fed into a chain of `AndThen` calls comes out unchanged |
| ResultLaws.AndThenChainFirstErr | Enums/Result.cs:31-39 | if the first `k` steps give `Ok(w)` and step `k` maps `w` to `Err(e)`, the whole chain gives `Err(e)` |
| ResultLaws.AndThenChainOkEveryStep | Enums/Result.cs:31-39 | a chain that ends in `Ok` gives `Ok` after every prefix of its steps |
| ResultLaws.AndThenChainSplit | Enums/Result.cs:31-39 | running the chain `fs + gs` is running `fs` and then `gs` |
| ResultLaws.OrElseChain | Enums/Result.cs:100-108 | an `Ok` fed into a chain of `OrElse` calls comes out unchanged |
| ResultLaws.OrElseChainFirstOk | Enums/Result.cs:100-108 | if the first `k` recoveries give `Err(d)` and recovery `k` maps `d` to `Ok(v)`, the whole chain gives `Ok(v)` |
| ResultLaws.OrElseChainSplit | Enums/Result.cs:100-108 | running the recovery chain `fs + gs` is running `fs` and then `gs` |

## Left out

- Null payloads, null arguments and null callbacks are not modelled: every payload,
  argument and callback result is a value, and every callback is a total function.
  - In C# the deconstruction patterns `Some(T value)`, `Ok(T value)` and `Err(E value)` do not
    match a null payload. The bare type and declaration patterns do. These are, completely:
    `this is Some` (Enums/Option.cs:9,26,28), `Some a` and `Some b` (Enums/Option.cs:34-35),
    `(Some, Option<U>.Some)` (Enums/Option.cs:44), `this is Ok` and `this is Err`
    (Enums/Result.cs:17,19), and the `switch` arms `Ok =>` and `Err =>`
    (Enums/Result.cs:25,75,95,115). At each of them the model agrees with C#: `Some(null)`
    counts as `Some`.
  - So on `Option.Some(null)`, `IsSome()` is true, yet `Unwrap` and `Expect` throw, `Map`
    and `AndThen` give `None`, `OkOr` gives `Err`, and `UnwarpOr` gives the default.
    `MapFunctor`'s `Map(id)` law and the `OkOrRoundTrip` law fail there.
  - On `Result.Ok(null)` or `Result.Err(null)`, most `switch` combinators reach their
    `UnreachableException` arm (Enums/Result.cs:27-126), and `OptionOk`/`OptionErr` give
    `None`.
  - A null argument is treated differently by each combinator:
    - returned unchanged when its branch is taken: `optb` of `Option.Or` on `None`
      (Enums/Option.cs:26), `res` of `Result.And` on `Ok` and of `Result.Or` on `Err`
      (Enums/Result.cs:25,95), and `def` of `UnwarpOr`, of both `MapOr`s and of
      `Result.UnwrapOr` (Enums/Option.cs:57,74, Enums/Result.cs:75,115);
    - read as `None`: a null `optb` or `other` does not match the `Some`/`None` patterns of
      `Xor`, `And` and `Zip`, so they fall to their `_` arm and give `None`
      (Enums/Option.cs:34-36,44-45,65-66); for example `Some(a).Xor(null)` is `None`;
    - wrapped: `None.OkOr(null)` is `Err(null)` (Enums/Option.cs:80), which then behaves as a
      null payload does.
  - A null callback is never returned: it throws `NullReferenceException` when the branch
    that calls it is taken (for example `Some(x).Map(null)`, Enums/Option.cs:71), and is
    ignored on the other branch.
  - A null returned by a callback is treated in one of two ways.
    - `OrElse`, `AndThen`, `MapOr`, `MapOrElse` and `UnwrapOrElse` return it as it is.
    - `Map` (Enums/Option.cs:71, Enums/Result.cs:54), `MapErr` (Enums/Result.cs:65) and
      `OkOrElse` (Enums/Option.cs:83) wrap it into a null payload (`Some(null)`, `Ok(null)`,
      `Err(null)`), which then behaves as described above.
  - The model's laws hold for non-null C# values only.
- The C# base records are abstract but not sealed (Enums/Option.cs:3, Enums/Result.cs:5).
  Another assembly may derive a third variant. On such a value `IsSome()` and `IsNone()` are
  both false (`IsOk()` and `IsErr()` likewise). The `switch` combinators of `Result` other than
  `OptionOk` and `OptionErr` (`And` through `UnwrapOrElse`, Enums/Result.cs:27-126) throw
  `UnreachableException`. `OptionOk` and `OptionErr` return `None` through their `_` arms
  (Enums/Result.cs:135,144). The model closes both types to their two variants.
- `ResultExt.Throw` (Enums/Result.cs:151-160) rethrows a stored exception. Dafny has no
  exceptions, so it is not modelled.
- `ResultExt.CatchUnwind` and `ResultExt.CatchUnwindAsync` (Enums/Result.cs:162-186) catch
  exceptions and await a `Task`. They have no Dafny counterpart.
- The text of the exceptions thrown by `Unwrap`, `Expect`, `UnwrapErr` and `ExpectErr` is
  not modelled. The `Expect` message parameter is accepted and unused. Only the precondition
  (the right variant) is modelled.
- Enums.Option.Inspect: the callback's side effect is not modelled. The model states only
  that the receiver is returned unchanged.
- Laziness: `OrElse`, `UnwrapOrElse`, `MapOrElse`, `OkOrElse` and `Result.OrElse` do not run
  their fallback on `Some`/`Ok`. Dafny functions are pure, so the model can only state that
  the fallback's result is not used on that branch; it cannot state that the fallback is never
  evaluated.
- `SingleParamFunc` and `SingleParamVoidFunc` are delegate types defined outside these two
  files. They are modelled as plain Dafny arrows.
