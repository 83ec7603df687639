/** `integer_to_error_code`: decoding an exit code into CEF's `cef_resultcode_t`. */
module ResultCodes {
  import opened Wrappers
  import opened CTypes

  /** The variants of `cef_resultcode_t` that the decoder names. */
  datatype ResultCode =
    | NormalExit
    | Killed
    | Hung
    | KilledBadMessage
    | GpuDeadOnArrival
    | ChromeFirst
    | MissingData
    | UnsupportedParam
    | ProfileInUse
    | PackExtensionError
    | NormalExitProcessNotified
    | InvalidSandboxState
    | CloudPolicyEnrollmentFailed
    | GpuExitOnContextLost
    | NormalExitPackExtensionSuccess
    | SystemResourceExhausted
    | ChromeLast
    | SandboxFatalFirst
    | SandboxFatalDroptoken
    | SandboxFatalFlushandles
    | SandboxFatalCachedisable
    | SandboxFatalClosehandles
    | SandboxFatalMitigation
    | SandboxFatalMemoryExceeded
    | SandboxFatalWarmup
    | SandboxFatalLast

  /** `code as i32`: the discriminants CEF's `cef_types.h` assigns. */
  function Value(code: ResultCode): Int32 {
    match code
    case NormalExit => 0
    case Killed => 1
    case Hung => 2
    case KilledBadMessage => 3
    case GpuDeadOnArrival => 4
    case ChromeFirst => 5
    case MissingData => 7
    case UnsupportedParam => 13
    case ProfileInUse => 21
    case PackExtensionError => 22
    case NormalExitProcessNotified => 24
    case InvalidSandboxState => 31
    case CloudPolicyEnrollmentFailed => 32
    case GpuExitOnContextLost => 34
    case NormalExitPackExtensionSuccess => 36
    case SystemResourceExhausted => 37
    case ChromeLast => 39
    case SandboxFatalFirst => 7006
    case SandboxFatalDroptoken => 7007
    case SandboxFatalFlushandles => 7008
    case SandboxFatalCachedisable => 7009
    case SandboxFatalClosehandles => 7010
    case SandboxFatalMitigation => 7011
    case SandboxFatalMemoryExceeded => 7012
    case SandboxFatalWarmup => 7013
    case SandboxFatalLast => 7014
  }

  /** The values of the 26 codes. */
  const KNOWN_VALUES: set<int> := {
    0, 1, 2, 3, 4, 5, 7, 13, 21, 22, 24, 31, 32, 34, 36, 37, 39,
    7006, 7007, 7008, 7009, 7010, 7011, 7012, 7013, 7014}

  /** `integer_to_error_code`: the guard arms `x if x == CODE as i32 => Ok(CODE)` tried in
      source order, each comparing with the discriminant of its code, then the catch-all
      `_ => Err(())`. It is total and never panics. */
  function IntegerToErrorCode(integer: Int32): (r: Result<ResultCode, ()>)
    ensures r.Ok? <==> integer in KNOWN_VALUES
  {
    if integer == 0 then Ok(NormalExit)
    else if integer == 1 then Ok(Killed)
    else if integer == 2 then Ok(Hung)
    else if integer == 3 then Ok(KilledBadMessage)
    else if integer == 4 then Ok(GpuDeadOnArrival)
    else if integer == 5 then Ok(ChromeFirst)
    else if integer == 7 then Ok(MissingData)
    else if integer == 13 then Ok(UnsupportedParam)
    else if integer == 21 then Ok(ProfileInUse)
    else if integer == 22 then Ok(PackExtensionError)
    else if integer == 24 then Ok(NormalExitProcessNotified)
    else if integer == 31 then Ok(InvalidSandboxState)
    else if integer == 32 then Ok(CloudPolicyEnrollmentFailed)
    else if integer == 34 then Ok(GpuExitOnContextLost)
    else if integer == 36 then Ok(NormalExitPackExtensionSuccess)
    else if integer == 37 then Ok(SystemResourceExhausted)
    else if integer == 39 then Ok(ChromeLast)
    else if integer == 7006 then Ok(SandboxFatalFirst)
    else if integer == 7007 then Ok(SandboxFatalDroptoken)
    else if integer == 7008 then Ok(SandboxFatalFlushandles)
    else if integer == 7009 then Ok(SandboxFatalCachedisable)
    else if integer == 7010 then Ok(SandboxFatalClosehandles)
    else if integer == 7011 then Ok(SandboxFatalMitigation)
    else if integer == 7012 then Ok(SandboxFatalMemoryExceeded)
    else if integer == 7013 then Ok(SandboxFatalWarmup)
    else if integer == 7014 then Ok(SandboxFatalLast)
    else Err(())
  }

  /** Every code decodes to itself: `integer_to_error_code(c as i32) == Ok(c)`. No arm
      shadows a later one, because no two codes share a value. */
  lemma DecodeEveryCode(c: ResultCode)
    ensures IntegerToErrorCode(Value(c)) == Ok(c)
  {
    match c
    case NormalExit =>
    case Killed =>
    case Hung =>
    case KilledBadMessage =>
    case GpuDeadOnArrival =>
    case ChromeFirst =>
    case MissingData =>
    case UnsupportedParam =>
    case ProfileInUse =>
    case PackExtensionError =>
    case NormalExitProcessNotified =>
    case InvalidSandboxState =>
    case CloudPolicyEnrollmentFailed =>
    case GpuExitOnContextLost =>
    case NormalExitPackExtensionSuccess =>
    case SystemResourceExhausted =>
    case ChromeLast =>
    case SandboxFatalFirst =>
    case SandboxFatalDroptoken =>
    case SandboxFatalFlushandles =>
    case SandboxFatalCachedisable =>
    case SandboxFatalClosehandles =>
    case SandboxFatalMitigation =>
    case SandboxFatalMemoryExceeded =>
    case SandboxFatalWarmup =>
    case SandboxFatalLast =>
  }

  /** The decoder is the exact inverse of `as i32`: it answers `Ok(c)` precisely for the value
      of `c`, and `Err(())` precisely for the integers that are the value of no code, so
      `KNOWN_VALUES` holds exactly the values of the codes. */
  lemma {:induction false} DecodeIsInverse(integer: Int32)
    ensures forall c: ResultCode :: IntegerToErrorCode(integer) == Ok(c) <==> Value(c) == integer
    ensures IntegerToErrorCode(integer).Err? <==> forall c: ResultCode :: Value(c) != integer
    ensures integer in KNOWN_VALUES <==> exists c: ResultCode :: Value(c) == integer
  {
    forall c: ResultCode
      ensures IntegerToErrorCode(integer) == Ok(c) <==> Value(c) == integer
    {
      if Value(c) == integer {
        DecodeEveryCode(c);
      }
    }
  }

  /** Distinct codes have distinct values. */
  lemma {:induction false} ValueInjective(c: ResultCode, d: ResultCode)
    ensures Value(c) == Value(d) ==> c == d
  {
    DecodeEveryCode(c);
    DecodeEveryCode(d);
  }
}
