/**
 * Failures raised inside the library and their translation into the
 * caller-visible (code, message) pair at the public boundary.
 */
module Errors {
  import opened Common

  /** Which standard exception class a failure is. */
  datatype StdKind = LogicError | RangeError | OtherStdError

  /** A C++ exception thrown inside a public entry point, by its most specific class. */
  datatype Failure =
    | OidnException(code: ErrorCode, message: string)   // oidn::Exception
    | BadAlloc                                           // std::bad_alloc
    | DnnlError(outOfMemory: bool, message: string)      // dnnl::error (its status split in two)
    | StdException(kind: StdKind, what: string)          // any other std::exception
    | Foreign                                            // anything else (catch (...))

  /** The outcome of an operation that may throw. */
  datatype Result<T> = Ok(value: T) | Err(failure: Failure)

  /** The error state kept by a device, or by the global slot. */
  datatype ErrorState = ErrorState(code: ErrorCode, message: string)

  const NoErrorState := ErrorState(NoError, "")

  /** `throw Exception(Error::InvalidArgument, message)` */
  function Invalid(message: string): Failure
  {
    OidnException(InvalidArgument, message)
  }

  /** checkHandle: a null handle is an InvalidArgument "invalid handle". */
  const InvalidHandle: Failure := Invalid("invalid handle")

  function CheckHandle(isNull: bool): (r: Result<()>)
    ensures r.Err? <==> isNull
    ensures r.Err? ==> r.failure == OidnException(InvalidArgument, "invalid handle")
  {
    if isNull then Err(InvalidHandle) else Ok(())
  }

  /**
   * The handler chain of OIDN_CATCH (with OIDN_CATCH_DNNL spliced in when the
   * library is built with DNNL): the error recorded for a caught failure.
   * Without DNNL, a dnnl::error is only a std::exception.
   */
  function Translate(f: Failure, dnnl: bool): ErrorState
  {
    match f
    case OidnException(code, message) => ErrorState(code, message)
    case BadAlloc => ErrorState(OutOfMemory, "out of memory")
    case DnnlError(oom, message) =>
      if dnnl && oom then ErrorState(OutOfMemory, "out of memory")
      else ErrorState(Unknown, message)
    case StdException(_, what) => ErrorState(Unknown, what)
    case Foreign => ErrorState(Unknown, "unknown exception caught")
  }

  /** A library exception passes through with its own code and message. */
  lemma TranslateKeepsException(code: ErrorCode, message: string, dnnl: bool)
    ensures Translate(OidnException(code, message), dnnl) == ErrorState(code, message)
  {
  }

  /**
   * Out of memory is reported exactly for allocation failures, DNNL
   * out-of-memory errors (in a DNNL build) and library exceptions that say so.
   */
  lemma TranslateOutOfMemory(f: Failure, dnnl: bool)
    ensures Translate(f, dnnl).code == OutOfMemory <==>
      (f.BadAlloc? || (dnnl && f.DnnlError? && f.outOfMemory) ||
       (f.OidnException? && f.code == OutOfMemory))
  {
  }

  /** Every failure that is not a library exception is reported as Unknown or OutOfMemory. */
  lemma TranslateForeignCodes(f: Failure, dnnl: bool)
    requires !f.OidnException?
    ensures Translate(f, dnnl).code == Unknown || Translate(f, dnnl).code == OutOfMemory
    ensures f.Foreign? ==> Translate(f, dnnl) == ErrorState(Unknown, "unknown exception caught")
    ensures f.StdException? ==> Translate(f, dnnl) == ErrorState(Unknown, f.what)
    ensures f.DnnlError? && !f.outOfMemory ==> Translate(f, dnnl) == ErrorState(Unknown, f.message)
  {
  }

  /**
   * The latched error query (Device::getError): it yields the stored code and
   * message and leaves the slot cleared.
   */
  function Query(s: ErrorState): (r: (ErrorCode, string, ErrorState))
    ensures r.2 == NoErrorState
  {
    (s.code, s.message, NoErrorState)
  }

  /** A second query right after a first one finds no error. */
  lemma QueryClears(s: ErrorState)
    ensures Query(Query(s).2).0 == NoError
  {
  }
}
