/** Naming of the driver's error codes, and the "did the last call fail"
    test. The driver's pending error code is read by the caller and passed
    in, since the driver's state is not part of this model. The numeric
    values are those of the OpenAL 1.1 headers `al.h` and `alc.h`. */
module ErrorHandler {

  const AL_NO_ERROR: int := 0
  const AL_INVALID_NAME: int := 0xA001
  const AL_INVALID_ENUM: int := 0xA002
  const AL_INVALID_VALUE: int := 0xA003
  const AL_INVALID_OPERATION: int := 0xA004
  const AL_OUT_OF_MEMORY: int := 0xA005

  const ALC_NO_ERROR: int := 0
  const ALC_INVALID_DEVICE: int := 0xA001
  const ALC_INVALID_CONTEXT: int := 0xA002
  const ALC_INVALID_ENUM: int := 0xA003
  const ALC_INVALID_VALUE: int := 0xA004
  const ALC_OUT_OF_MEMORY: int := 0xA005

  const UnknownError: string := "UNKNOWN ERROR"

  /** The codes the AL table names. */
  const OpenALErrorCodes: set<int> :=
    {AL_NO_ERROR, AL_INVALID_NAME, AL_INVALID_ENUM, AL_INVALID_VALUE, AL_INVALID_OPERATION, AL_OUT_OF_MEMORY}

  /** The codes the ALC table names. */
  const ALCErrorCodes: set<int> :=
    {ALC_NO_ERROR, ALC_INVALID_DEVICE, ALC_INVALID_CONTEXT, ALC_INVALID_ENUM, ALC_INVALID_VALUE, ALC_OUT_OF_MEMORY}

  function OpenALErrorName(error: int): (name: string)
    ensures name == UnknownError <==> error !in OpenALErrorCodes
    ensures error in OpenALErrorCodes ==> |name| > 3 && name[..3] == "AL_"
  {
    match error
    case 0 => "AL_NO_ERROR"
    case 0xA001 => "AL_INVALID_NAME"
    case 0xA002 => "AL_INVALID_ENUM"
    case 0xA003 => "AL_INVALID_VALUE"
    case 0xA004 => "AL_INVALID_OPERATION"
    case 0xA005 => "AL_OUT_OF_MEMORY"
    case _ => UnknownError
  }

  function ALCErrorName(error: int): (name: string)
    ensures name == UnknownError <==> error !in ALCErrorCodes
    ensures error in ALCErrorCodes ==> |name| > 4 && name[..4] == "ALC_"
  {
    match error
    case 0 => "ALC_NO_ERROR"
    case 0xA001 => "ALC_INVALID_DEVICE"
    case 0xA002 => "ALC_INVALID_CONTEXT"
    case 0xA003 => "ALC_INVALID_ENUM"
    case 0xA004 => "ALC_INVALID_VALUE"
    case 0xA005 => "ALC_OUT_OF_MEMORY"
    case _ => UnknownError
  }

  /** No two named AL codes share a name. */
  lemma OpenALErrorNamesDistinct(a: int, b: int)
    requires a in OpenALErrorCodes && b in OpenALErrorCodes
    ensures OpenALErrorName(a) == OpenALErrorName(b) ==> a == b
  {
  }

  /** No two named ALC codes share a name. */
  lemma ALCErrorNamesDistinct(a: int, b: int)
    requires a in ALCErrorCodes && b in ALCErrorCodes
    ensures ALCErrorName(a) == ALCErrorName(b) ==> a == b
  {
  }

  /** `checkOpenALError`: given the code the driver reports, whether an error
      is pending (the message it logs is left out). */
  function CheckOpenALError(observed: int): (failed: bool)
    ensures !failed <==> OpenALErrorName(observed) == "AL_NO_ERROR"
  {
    observed != AL_NO_ERROR
  }

  /** `checkALCError`: given the code the device reports, whether an error
      is pending. */
  function CheckALCError(observed: int): (failed: bool)
    ensures !failed <==> ALCErrorName(observed) == "ALC_NO_ERROR"
  {
    observed != ALC_NO_ERROR
  }
}
