/** The sum types of the Rusting.Enums namespace, modelled as closed, and their combinators.

    The C# records `Option<T>.Some`/`Option<T>.None` and `Result<T, E>.Ok`/`Result<T, E>.Err`
    become datatype constructors.  The C# base records are abstract but not sealed, and their
    deconstruction patterns do not match a null payload; the model closes both types to their
    two variants and never has a null payload, so the `_ => throw new UnreachableException()`
    arms of the source's `switch` expressions have no counterpart here.  A combinator that
    throws on the wrong variant (`Unwrap`, `Expect`, ...) carries that variant as a
    precondition.  Callbacks (`SingleParamFunc<A, B>`) are total arrows `A -> B`; the lazy
    zero-argument fallbacks (`Func<X>`) are arrows `() -> X`.

    The two types live in one module because each refers to the other
    (`Option.OkOr` builds a `Result`, `Result.OptionOk` builds an `Option`). */
module Enums {

  /** Presence (`Some(value)`) or absence (`None`) of a value of type T. */
  datatype Option<T> = Some(value: T) | None {

    /** Tag test for `Some`; exactly one of IsSome and IsNone holds. */
    function IsSome(): (r: bool)
      ensures r != IsNone()
    {
      Some?
    }

    /** Tag test for `None`. */
    function IsNone(): (r: bool)
      ensures r <==> this == None
    {
      None?
    }

    /** True iff this holds a value that satisfies `func`. */
    function IsSomeAnd(func: T -> bool): (r: bool)
      ensures r ==> IsSome()
      ensures IsSome() ==> (r <==> func(value))
    {
      match this
      case Some(v) => func(v)
      case None => false
    }

    /** True iff this is `None` or its value satisfies `func`. */
    function IsNoneOr(func: T -> bool): (r: bool)
      ensures r == !IsSomeAnd(x => !func(x))
    {
      match this
      case Some(v) => func(v)
      case None => true
    }

    /** Hands the value, if any, to a callback for its side effect and returns the receiver.
        The callback's effect is outside the model; only the returned value is kept. */
    function Inspect(func: T -> ()): (r: Option<T>)
      ensures r == this
    {
      this
    }

    /** This if it is `Some`, otherwise `optb`. */
    function Or(optb: Option<T>): (r: Option<T>)
      ensures r.IsSome() <==> IsSome() || optb.IsSome()
      ensures IsSome() ==> r == this
      ensures IsNone() ==> r == optb
    {
      if Some? then this else optb
    }

    /** Like Or, with the fallback computed on demand; the fallback is only used on `None`. */
    function OrElse(func: () -> Option<T>): (r: Option<T>)
      ensures IsSome() ==> r == this
      ensures IsNone() ==> r == func()
    {
      if Some? then this else func()
    }

    /** The one operand that is `Some` when exactly one is; `None` when both or neither are. */
    function Xor(optb: Option<T>): (r: Option<T>)
      ensures r.IsSome() <==> IsSome() != optb.IsSome()
      ensures r.IsSome() ==> r == (if IsSome() then this else optb)
    {
      match (this, optb)
      case (Some(_), None) => this
      case (None, Some(_)) => optb
      case _ => None
    }

    /** `optb` when both operands are `Some`; `None` otherwise (also when `optb` is `None`). */
    function And<U>(optb: Option<U>): (r: Option<U>)
      ensures r.IsSome() <==> IsSome() && optb.IsSome()
      ensures r.IsSome() ==> r == optb
    {
      match (this, optb)
      case (Some(_), Some(_)) => optb
      case _ => None
    }

    /** Monadic chaining: `func(value)` on `Some`, `None` on `None`. */
    function AndThen<U>(func: T -> Option<U>): (r: Option<U>)
      ensures IsNone() ==> r.IsNone()
      ensures IsSome() ==> r == func(value)
    {
      match this
      case Some(v) => func(v)
      case None => None
    }

    /** The value of a `Some`; on `None` the source throws an exception carrying `msg`. */
    function Expect(msg: string): (r: T)
      requires IsSome()
      ensures this == Some(r)
    {
      value
    }

    /** The value of a `Some`; on `None` the source throws. */
    function Unwrap(): (r: T)
      requires IsSome()
      ensures this == Some(r)
    {
      value
    }

    /** The value of a `Some`, or `def` on `None` (spelled `UnwarpOr` in the source). */
    function UnwrapOr(def: T): (r: T)
      ensures IsSome() ==> this == Some(r)
      ensures IsNone() ==> r == def
    {
      match this
      case Some(v) => v
      case None => def
    }

    /** The value of a `Some`, or the fallback's result on `None`. */
    function UnwrapOrElse(func: () -> T): (r: T)
      ensures r == UnwrapOr(func())
    {
      match this
      case Some(v) => v
      case None => func()
    }

    /** Pairs the two values when both operands are `Some`. */
    function Zip<U>(other: Option<U>): (r: Option<(T, U)>)
      ensures r.IsSome() <==> IsSome() && other.IsSome()
      ensures r.IsSome() ==> r.value.0 == value && r.value.1 == other.value
    {
      match (this, other)
      case (Some(a), Some(b)) => Some((a, b))
      case _ => None
    }

    /** Applies `func` to the value, keeping the variant. */
    function Map<U>(func: T -> U): (r: Option<U>)
      ensures r.IsSome() <==> IsSome()
      ensures IsSome() ==> r.value == func(value)
    {
      match this
      case Some(v) => Some(func(v))
      case None => None
    }

    /** `func(value)` on `Some`, `def` on `None`. */
    function MapOr<U>(def: U, func: T -> U): (r: U)
      ensures r == Map(func).UnwrapOr(def)
    {
      match this
      case Some(v) => func(v)
      case None => def
    }

    /** `func(value)` on `Some`, the fallback's result on `None`. */
    function MapOrElse<U>(def: () -> U, func: T -> U): (r: U)
      ensures r == MapOr(def(), func)
    {
      match this
      case Some(v) => func(v)
      case None => def()
    }

    /** Converts to a Result: `Some(v)` becomes `Ok(v)`, `None` becomes `Err(err)`. */
    function OkOr<E>(err: E): (r: Result<T, E>)
      ensures r.IsOk() <==> IsSome()
      ensures r.IsOk() ==> r.value == value
      ensures r.IsErr() ==> r.error == err
    {
      match this
      case Some(v) => Ok(v)
      case None => Err(err)
    }

    /** Like OkOr, with the error computed on demand; the error is only used on `None`. */
    function OkOrElse<E>(func: () -> E): (r: Result<T, E>)
      ensures r == OkOr(func())
    {
      match this
      case Some(v) => Ok(v)
      case None => Err(func())
    }
  }

  /** Success (`Ok(value)`) or failure (`Err(error)`). The source names both payloads `Value`. */
  datatype Result<T, E> = Ok(value: T) | Err(error: E) {

    /** The success value; on `Err` the source throws. */
    function Unwrap(): (r: T)
      requires IsOk()
      ensures this == Ok(r)
    {
      value
    }

    /** The error value; on `Ok` the source throws. */
    function UnwrapErr(): (r: E)
      requires IsErr()
      ensures this == Err(r)
    {
      error
    }

    /** Tag test for `Ok`; exactly one of IsOk and IsErr holds. */
    function IsOk(): (r: bool)
      ensures r != IsErr()
    {
      Ok?
    }

    /** Tag test for `Err`. */
    function IsErr(): (r: bool)
      ensures r <==> !Ok?
    {
      Err?
    }

    /** `res` on `Ok`; on `Err(e)` the same error, re-typed to the new success type. */
    function And<U>(res: Result<U, E>): (r: Result<U, E>)
      ensures IsOk() ==> r == res
      ensures IsErr() ==> r.IsErr() && r.error == error
    {
      match this
      case Ok(_) => res
      case Err(e) => Err(e)
    }

    /** Monadic chaining: `func(value)` on `Ok`, the error passed on unchanged on `Err`. */
    function AndThen<U>(func: T -> Result<U, E>): (r: Result<U, E>)
      ensures IsOk() ==> r == func(value)
      ensures IsErr() ==> r.IsErr() && r.error == error
    {
      match this
      case Ok(v) => func(v)
      case Err(e) => Err(e)
    }

    /** The success value; on `Err` the source throws an exception carrying `message`. */
    function Expect(message: string): (r: T)
      requires IsOk()
      ensures r == Unwrap()
    {
      value
    }

    /** The error value; on `Ok` the source throws an exception carrying `message`. */
    function ExpectErr(message: string): (r: E)
      requires IsErr()
      ensures r == UnwrapErr()
    {
      error
    }

    /** True iff this is an `Err` whose error satisfies `func`. */
    function IsErrAnd(func: E -> bool): (r: bool)
      ensures r ==> IsErr()
      ensures IsErr() ==> (r <==> func(error))
    {
      match this
      case Ok(_) => false
      case Err(e) => func(e)
    }

    /** True iff this is an `Ok` whose value satisfies `func`. */
    function IsOkAnd(func: T -> bool): (r: bool)
      ensures r ==> IsOk()
      ensures IsOk() ==> (r <==> func(value))
    {
      match this
      case Ok(v) => func(v)
      case Err(_) => false
    }

    /** Transforms the success value; an error passes through unchanged. */
    function Map<U>(func: T -> U): (r: Result<U, E>)
      ensures r.IsOk() <==> IsOk()
      ensures IsOk() ==> r.value == func(value)
      ensures IsErr() ==> r.error == error
    {
      match this
      case Ok(v) => Ok(func(v))
      case Err(e) => Err(e)
    }

    /** Transforms the error value; a success passes through unchanged. */
    function MapErr<F>(func: E -> F): (r: Result<T, F>)
      ensures r.IsOk() <==> IsOk()
      ensures IsOk() ==> r.value == value
      ensures IsErr() ==> r.error == func(error)
    {
      match this
      case Ok(v) => Ok(v)
      case Err(e) => Err(func(e))
    }

    /** `func(value)` on `Ok`, `def` on `Err`. */
    function MapOr<U>(def: U, func: T -> U): (r: U)
      ensures r == Map(func).UnwrapOr(def)
    {
      match this
      case Ok(v) => func(v)
      case Err(_) => def
    }

    /** `ok(value)` on `Ok`, `err(error)` on `Err`. */
    function MapOrElse<U>(err: E -> U, ok: T -> U): (r: U)
      ensures r == Map(ok).UnwrapOrElse(err)
    {
      match this
      case Ok(v) => ok(v)
      case Err(e) => err(e)
    }

    /** This, re-typed to the new error type, on `Ok`; `res` on `Err`. */
    function Or<F>(res: Result<T, F>): (r: Result<T, F>)
      ensures IsOk() ==> r.IsOk() && r.value == value
      ensures IsErr() ==> r == res
    {
      match this
      case Ok(v) => Ok(v)
      case Err(_) => res
    }

    /** This, re-typed to the new error type, on `Ok`; `func(error)` on `Err`. */
    function OrElse<F>(func: E -> Result<T, F>): (r: Result<T, F>)
      ensures IsOk() ==> r.IsOk() && r.value == value
      ensures IsErr() ==> r == func(error)
    {
      match this
      case Ok(v) => Ok(v)
      case Err(e) => func(e)
    }

    /** The success value, or `def` on `Err`. */
    function UnwrapOr(def: T): (r: T)
      ensures IsOk() ==> this == Ok(r)
      ensures IsErr() ==> r == def
    {
      match this
      case Ok(v) => v
      case Err(_) => def
    }

    /** The success value, or `func(error)` on `Err`. */
    function UnwrapOrElse(func: E -> T): (r: T)
      ensures IsOk() ==> this == Ok(r)
      ensures IsErr() ==> r == func(error)
    {
      match this
      case Ok(v) => v
      case Err(e) => func(e)
    }

    /** Projects to an Option, keeping the success value and dropping the error. */
    function OptionOk(): (r: Option<T>)
      ensures r.IsSome() <==> IsOk()
      ensures IsOk() ==> r.value == value
    {
      match this
      case Ok(v) => Some(v)
      case Err(_) => None
    }

    /** Projects to an Option, keeping the error and dropping the success value. */
    function OptionErr(): (r: Option<E>)
      ensures r.IsSome() <==> IsErr()
      ensures IsErr() ==> r.value == error
    {
      match this
      case Err(e) => Some(e)
      case Ok(_) => None
    }
  }
}
