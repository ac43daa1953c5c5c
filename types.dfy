/** The shared vocabulary of the engine: voice states, voice priorities,
    decoded-file formats and the decoder's operation names. */
module Types {

  /** State of a voice as the driver reports it. */
  datatype SoundState = Initial | Playing | Paused | Stopped

  /** Priority of a voice; declaration order is the order eviction uses. */
  datatype SoundPriority = Low | Medium | High | Critical

  datatype AudioFormat = Wav | Ogg | Mp3

  datatype AudioDecoderOperation =
    | OpenFile | ReadFileData
    | ParseHeader | ValidateFormat
    | InitializeDecoder | AllocateBuffer | DecodeAudio
    | ValidateSampleRate | ValidateChannels | ValidateBitDepth

  /** The priorities in declaration order. */
  const Priorities: seq<SoundPriority> := [Low, Medium, High, Critical]

  /** The underlying value of a priority enumerator, which is what the
      built-in comparison operators of a scoped enumeration compare. */
  function PriorityValue(p: SoundPriority): (v: nat)
    ensures v < |Priorities| && Priorities[v] == p
  {
    match p
    case Low => 0
    case Medium => 1
    case High => 2
    case Critical => 3
  }

  /** `a < b` on priorities. */
  predicate PriorityLess(a: SoundPriority, b: SoundPriority) {
    PriorityValue(a) < PriorityValue(b)
  }

  /** `<` on priorities is a strict total order, ascending from Low to Critical. */
  lemma PriorityLessIsStrictTotalOrder(a: SoundPriority, b: SoundPriority, c: SoundPriority)
    ensures !PriorityLess(a, a)
    ensures PriorityLess(a, b) && PriorityLess(b, c) ==> PriorityLess(a, c)
    ensures a != b ==> PriorityLess(a, b) || PriorityLess(b, a)
    ensures PriorityLess(Low, Medium) && PriorityLess(Medium, High) && PriorityLess(High, Critical)
  {
  }

  /** The label `toString` gives a decoded-file format. */
  function FormatName(format: AudioFormat): (name: string)
    ensures |name| == 3
  {
    match format
    case Wav => "WAV"
    case Ogg => "OGG"
    case Mp3 => "MP3"
  }

  /** The label `toString` gives a decoder operation. */
  function OperationName(operation: AudioDecoderOperation): (name: string)
    ensures name != [] && ' ' in name
  {
    match operation
    case OpenFile => "Open File"
    case ReadFileData => "Read File Data"
    case ParseHeader => "Parse Header"
    case ValidateFormat => "Validate Format"
    case InitializeDecoder => "Initialize Decoder"
    case AllocateBuffer => "Allocate Buffer"
    case DecodeAudio => "Decode Audio"
    case ValidateSampleRate => "Validate Sample Rate"
    case ValidateChannels => "Validate Channels"
    case ValidateBitDepth => "Validate Bit Depth"
  }

  /** Every format has its own label. */
  lemma FormatNamesDistinct(a: AudioFormat, b: AudioFormat)
    ensures FormatName(a) == FormatName(b) ==> a == b
  {
    if a != b {
      assert FormatName(a)[0] != FormatName(b)[0];
    }
  }

  /** Every decoder operation has its own label. */
  lemma OperationNamesDistinct(a: AudioDecoderOperation, b: AudioDecoderOperation)
    ensures OperationName(a) == OperationName(b) ==> a == b
  {
  }
}
