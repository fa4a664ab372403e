/** The library's value-or-error container: `Result<T, E>` holds exactly one of a success
    payload or an error, `Result<void, E>` holds success (no payload) or an error. Both are
    immutable; every combinator builds a new value. Accessing the wrong case is a programmer
    error in the library (`std::get` throws), which here is a precondition of the destructors
    `value` and `error`. */
module Expected {

  /** `ErrorValue<E>`: the tagged error that `Err(e)` builds and from which a failed Result is
      constructed. */
  datatype ErrorValue<E> = ErrorValue(error: E)

  /** `Err(e)`: wraps exactly `e`. */
  function Err<E>(e: E): ErrorValue<E>
  {
    ErrorValue(e)
  }

  /** The converting constructor of `ErrorValue<std::error_code>` from an error-code enum:
      the stored error is `make_error_code(e)`, here the mapping `mk`. */
  function ErrorValueFrom<U, E>(e: U, mk: U -> E): ErrorValue<E>
  {
    ErrorValue(mk(e))
  }

  /** `Result<T, E>` for a non-void `T`. */
  datatype Result<T, E> = Ok(value: T) | Fail(error: E)
  {
    predicate HasValue()
    {
      Ok?
    }

    predicate HasError()
    {
      !HasValue()
    }

    function ValueOr(default: T): T
    {
      if HasValue() then value else default
    }

    function AndThen<U>(f: T -> Result<U, E>): Result<U, E>
    {
      if HasValue() then f(value) else Fail(error)
    }

    /** `and_then` with a continuation whose Result has another error type: the error goes
        through `ErrorValue`'s converting constructor, the mapping `mk`. */
    function AndThenConverting<U, E2>(f: T -> Result<U, E2>, mk: E -> E2): Result<U, E2>
    {
      if HasValue() then f(value) else Fail(mk(error))
    }

    function OrElse(f: E -> Result<T, E>): Result<T, E>
    {
      if HasError() then f(error) else Ok(value)
    }

    function Transform<U>(f: T -> U): Result<U, E>
    {
      if HasValue() then Ok(f(value)) else Fail(error)
    }
  }

  /** `Result<void, E>`. */
  datatype VoidResult<E> = VoidOk | VoidFail(error: E)
  {
    predicate HasValue()
    {
      VoidOk?
    }

    predicate HasError()
    {
      !HasValue()
    }

    /** `and_then` with a continuation that itself returns a `Result<void, E>`. */
    function AndThen(f: () -> VoidResult<E>): VoidResult<E>
    {
      if HasValue() then f() else VoidFail(error)
    }

    /** `and_then` with a continuation that returns a value-carrying `Result<U, E>`. */
    function AndThenValue<U>(f: () -> Result<U, E>): Result<U, E>
    {
      if HasValue() then f() else Fail(error)
    }

    /** `and_then` with a continuation whose Result has another error type, as for the
        non-void Result. */
    function AndThenConverting<E2>(f: () -> VoidResult<E2>, mk: E -> E2): VoidResult<E2>
    {
      if HasValue() then f() else VoidFail(mk(error))
    }

    function AndThenValueConverting<U, E2>(f: () -> Result<U, E2>, mk: E -> E2): Result<U, E2>
    {
      if HasValue() then f() else Fail(mk(error))
    }

    function OrElse(f: E -> VoidResult<E>): VoidResult<E>
    {
      if HasError() then f(error) else VoidOk
    }
  }

  /** The default constructor `Result<void, E>()`. */
  function DefaultVoid<E>(): VoidResult<E>
  {
    VoidOk
  }

  /** `Success()`, converted to a `Result<void, E>` through `SuccessType`'s conversion. */
  function Success<E>(): VoidResult<E>
  {
    DefaultVoid()
  }

  /** `Success(value)`. */
  function SuccessWith<T, E>(v: T): Result<T, E>
  {
    Ok(v)
  }

  /** `Result(ErrorValue<E>)`. */
  function FromError<T, E>(ev: ErrorValue<E>): Result<T, E>
  {
    Fail(ev.error)
  }

  function VoidFromError<E>(ev: ErrorValue<E>): VoidResult<E>
  {
    VoidFail(ev.error)
  }

  /** `Result(ErrorValue<OtherE>)`: an enum error becomes `make_error_code(e)`. */
  function FromErrorConverting<T, E1, E2>(ev: ErrorValue<E1>, mk: E1 -> E2): Result<T, E2>
  {
    Fail(mk(ev.error))
  }

  function VoidFromErrorConverting<E1, E2>(ev: ErrorValue<E1>, mk: E1 -> E2): VoidResult<E2>
  {
    VoidFail(mk(ev.error))
  }

  /** `Result<T, E>(const Result<T, OtherE>&)`: success kept verbatim, error mapped by `mk`. */
  function Convert<T, E1, E2>(r: Result<T, E1>, mk: E1 -> E2): Result<T, E2>
  {
    if r.HasValue() then Ok(r.value) else Fail(mk(r.error))
  }

  function ConvertVoid<E1, E2>(r: VoidResult<E1>, mk: E1 -> E2): VoidResult<E2>
  {
    if r.HasValue() then VoidOk else VoidFail(mk(r.error))
  }

  /** Applies `and_then` with each continuation of `fs` in turn. */
  function Chain<T, E>(r: Result<T, E>, fs: seq<T -> Result<T, E>>): Result<T, E>
    decreases |fs|
  {
    if fs == [] then r else Chain(r.AndThen(fs[0]), fs[1..])
  }

  /** Applies `or_else` with each recovery function of `fs` in turn. */
  function Recover<T, E>(r: Result<T, E>, fs: seq<E -> Result<T, E>>): Result<T, E>
    decreases |fs|
  {
    if fs == [] then r else Recover(r.OrElse(fs[0]), fs[1..])
  }

  // ---------------------------------------------------------------------------------------
  // The two cases are complementary

  lemma HasErrorIsNotHasValue<T, E>(r: Result<T, E>, v: VoidResult<E>)
    ensures r.HasError() <==> !r.HasValue()
    ensures v.HasError() <==> !v.HasValue()
    ensures (r.HasValue() <==> r.Ok?) && (v.HasValue() <==> v.VoidOk?)
  {
  }

  // ---------------------------------------------------------------------------------------
  // value_or

  lemma ValueOrReturnsPayloadOrDefault<T, E>(r: Result<T, E>, d: T)
    ensures r.HasValue() ==> r.ValueOr(d) == r.value
    ensures r.HasError() ==> r.ValueOr(d) == d
  {
  }

  /** `value_or` never looks at the error: two failed Results give the same answer. */
  lemma ValueOrIgnoresError<T, E>(e1: E, e2: E, d: T)
    ensures Fail(e1).ValueOr(d) == Fail(e2).ValueOr(d) == d
  {
  }

  // ---------------------------------------------------------------------------------------
  // and_then

  /** On an error, `and_then` returns the same error whatever the continuation, so the
      continuation's behaviour cannot matter: it is not called. */
  lemma AndThenOnErrorSkipsContinuation<T, U, E>(e: E, f: T -> Result<U, E>, g: T -> Result<U, E>)
    ensures Fail(e).AndThen(f) == Fail(e)
    ensures Fail(e).AndThen(f) == Fail(e).AndThen(g)
  {
  }

  lemma AndThenOnSuccessCallsContinuation<T, U, E>(v: T, f: T -> Result<U, E>)
    ensures Ok(v).AndThen(f) == f(v)
  {
  }

  lemma AndThenRightIdentity<T, E>(r: Result<T, E>)
    ensures r.AndThen(x => Ok(x)) == r
  {
  }

  lemma AndThenAssociative<T, U, W, E>(r: Result<T, E>, f: T -> Result<U, E>, g: U -> Result<W, E>)
    ensures r.AndThen(f).AndThen(g) == r.AndThen(x => f(x).AndThen(g))
  {
  }

  /** A chain of `and_then` calls started on an error returns the original error unchanged. */
  lemma {:induction false} ChainShortCircuits<T, E>(e: E, fs: seq<T -> Result<T, E>>)
    ensures Chain(Fail(e), fs) == Fail(e)
    decreases |fs|
  {
    if fs != [] {
      ChainShortCircuits(e, fs[1..]);
    }
  }

  /** A chain fails as soon as one step fails, and the error it ends with is that step's. */
  lemma {:induction false} ChainStopsAtFirstFailure<T, E>(r: Result<T, E>, fs: seq<T -> Result<T, E>>, k: nat)
    requires k < |fs|
    requires Chain(r, fs[..k]).Ok? && fs[k](Chain(r, fs[..k]).value).Fail?
    ensures Chain(r, fs) == fs[k](Chain(r, fs[..k]).value)
    decreases k
  {
    if k == 0 {
      assert fs[..0] == [];
      ChainShortCircuits(fs[0](r.value).error, fs[1..]);
    } else {
      assert fs[..k][0] == fs[0];
      assert fs[..k][1..] == fs[1..][..k - 1];
      ChainStopsAtFirstFailure(r.AndThen(fs[0]), fs[1..], k - 1);
    }
  }

  // ---------------------------------------------------------------------------------------
  // or_else

  /** On a success, `or_else` returns the same value whatever the recovery function. */
  lemma OrElseOnSuccessSkipsRecovery<T, E>(v: T, f: E -> Result<T, E>, g: E -> Result<T, E>)
    ensures Ok(v).OrElse(f) == Ok(v)
    ensures Ok(v).OrElse(f) == Ok(v).OrElse(g)
  {
  }

  lemma OrElseOnErrorCallsRecovery<T, E>(e: E, f: E -> Result<T, E>)
    ensures Fail(e).OrElse(f) == f(e)
  {
  }

  /** A chain of `or_else` calls started on a success returns that success unchanged. */
  lemma {:induction false} RecoverOnSuccessIsIdentity<T, E>(v: T, fs: seq<E -> Result<T, E>>)
    ensures Recover(Ok(v), fs) == Ok(v)
    decreases |fs|
  {
    if fs != [] {
      RecoverOnSuccessIsIdentity(v, fs[1..]);
    }
  }

  // ---------------------------------------------------------------------------------------
  // transform

  lemma TransformMapsPayloadKeepsError<T, U, E>(r: Result<T, E>, f: T -> U)
    ensures r.HasValue() ==> r.Transform(f) == Ok(f(r.value))
    ensures r.HasError() ==> r.Transform(f) == Fail(r.error)
    ensures r.Transform(f).HasValue() == r.HasValue()
  {
  }

  lemma TransformIsAndThenWithOk<T, U, E>(r: Result<T, E>, f: T -> U)
    ensures r.Transform(f) == r.AndThen(x => Ok(f(x)))
  {
  }

  lemma TransformComposes<T, U, W, E>(r: Result<T, E>, f: T -> U, g: U -> W)
    ensures r.Transform(f).Transform(g) == r.Transform(x => g(f(x)))
  {
  }

  // ---------------------------------------------------------------------------------------
  // Cross-domain conversion

  lemma ConvertKeepsPayloadMapsError<T, E1, E2>(r: Result<T, E1>, mk: E1 -> E2)
    ensures Convert(r, mk).HasValue() == r.HasValue()
    ensures r.HasValue() ==> Convert(r, mk).value == r.value
    ensures r.HasError() ==> Convert(r, mk).error == mk(r.error)
  {
  }

  lemma ConvertVoidKeepsSuccessMapsError<E1, E2>(r: VoidResult<E1>, mk: E1 -> E2)
    ensures ConvertVoid(r, mk).HasValue() == r.HasValue()
    ensures r.HasError() ==> ConvertVoid(r, mk).error == mk(r.error)
  {
  }

  /** Converting with an injective mapping loses nothing: distinct Results stay distinct. */
  lemma ConvertInjective<T, E1, E2>(r1: Result<T, E1>, r2: Result<T, E1>, mk: E1 -> E2)
    requires forall a, b :: mk(a) == mk(b) ==> a == b
    requires Convert(r1, mk) == Convert(r2, mk)
    ensures r1 == r2
  {
  }

  lemma ConvertComposes<T, E1, E2, E3>(r: Result<T, E1>, f: E1 -> E2, g: E2 -> E3)
    ensures Convert(Convert(r, f), g) == Convert(r, x => g(f(x)))
  {
  }

  /** Conversion and `transform` commute: the error domain and the payload are independent. */
  lemma ConvertCommutesWithTransform<T, U, E1, E2>(r: Result<T, E1>, f: T -> U, mk: E1 -> E2)
    ensures Convert(r.Transform(f), mk) == Convert(r, mk).Transform(f)
  {
  }

  lemma ErrorValueConvertingConstructor<T, U, E>(e: U, mk: U -> E)
    ensures ErrorValueFrom(e, mk).error == mk(e)
    ensures FromError<T, E>(ErrorValueFrom(e, mk)) == FromErrorConverting<T, U, E>(Err(e), mk)
    ensures VoidFromError(ErrorValueFrom(e, mk)) == VoidFromErrorConverting(Err(e), mk)
  {
  }

  // ---------------------------------------------------------------------------------------
  // Result<void, E>, Success and Err

  /** A cross-domain `and_then` is the conversion of the receiver followed by the plain
      `and_then`; with the identity mapping it is the plain `and_then`. */
  lemma AndThenConvertingIsConvertThenAndThen<T, U, E1, E2>(r: Result<T, E1>, v: VoidResult<E1>, mk: E1 -> E2,
                                                           f: T -> Result<U, E2>, g: () -> VoidResult<E2>,
                                                           h: () -> Result<U, E2>, f1: T -> Result<U, E1>)
    ensures r.AndThenConverting(f, mk) == Convert(r, mk).AndThen(f)
    ensures v.AndThenConverting(g, mk) == ConvertVoid(v, mk).AndThen(g)
    ensures v.AndThenValueConverting(h, mk) == ConvertVoid(v, mk).AndThenValue(h)
    ensures r.AndThenConverting(f1, e => e) == r.AndThen(f1)
  {
  }

  lemma DefaultVoidIsSuccess<E>()
    ensures DefaultVoid<E>().HasValue() && Success<E>() == DefaultVoid<E>()
  {
  }

  lemma VoidAndThenCallsOnlyOnSuccess<E>(r: VoidResult<E>, f: () -> VoidResult<E>, g: () -> VoidResult<E>)
    ensures r.HasValue() ==> r.AndThen(f) == f()
    ensures r.HasError() ==> r.AndThen(f) == VoidFail(r.error) == r.AndThen(g)
  {
  }

  lemma VoidAndThenValueCallsOnlyOnSuccess<U, E>(r: VoidResult<E>, f: () -> Result<U, E>)
    ensures r.HasValue() ==> r.AndThenValue(f) == f()
    ensures r.HasError() ==> r.AndThenValue(f) == Fail(r.error)
  {
  }

  lemma VoidOrElseOnSuccessSkipsRecovery<E>(r: VoidResult<E>, f: E -> VoidResult<E>)
    ensures r.HasValue() ==> r.OrElse(f) == VoidOk
    ensures r.HasError() ==> r.OrElse(f) == f(r.error)
  {
  }

  lemma ErrBuildsExactError<T, E>(e: E)
    ensures FromError<T, E>(Err(e)) == Fail(e) && VoidFromError(Err(e)) == VoidFail(e)
  {
  }

  lemma SuccessWithHoldsValue<T, E>(v: T)
    ensures SuccessWith<T, E>(v).HasValue() && SuccessWith<T, E>(v).value == v
  {
  }
}
