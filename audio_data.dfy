/** Decoded PCM audio: the (channels, bits) to driver-format table, the
    validity test, the byte-size arithmetic of the three loaders and the
    single-owner discipline of the PCM pointer under moves. The decoding
    itself (dr_wav, dr_mp3, stb_vorbis) is outside this model: a loader is
    represented by the counts the decoder reports. */
module AudioData {
  import opened Types

  /** Driver format codes, as in the OpenAL 1.1 header `al.h`. */
  const AL_NONE: int := 0
  const AL_FORMAT_MONO8: int := 0x1100
  const AL_FORMAT_MONO16: int := 0x1101
  const AL_FORMAT_STEREO8: int := 0x1102
  const AL_FORMAT_STEREO16: int := 0x1103

  /** Channel count of a driver format (0 for AL_NONE), as the driver defines it. */
  function FormatChannels(format: int): nat {
    if format == AL_FORMAT_MONO8 || format == AL_FORMAT_MONO16 then 1
    else if format == AL_FORMAT_STEREO8 || format == AL_FORMAT_STEREO16 then 2
    else 0
  }

  /** Bits per sample of a driver format (0 for AL_NONE), as the driver defines it. */
  function FormatBits(format: int): nat {
    if format == AL_FORMAT_MONO8 || format == AL_FORMAT_STEREO8 then 8
    else if format == AL_FORMAT_MONO16 || format == AL_FORMAT_STEREO16 then 16
    else 0
  }

  /** `calculateOpenALFormat`: the driver format with exactly this channel
      count and sample width, or AL_NONE when there is none. */
  function OpenALFormat(channels: int, bitsPerSample: int): (format: int)
    ensures format != AL_NONE <==> (channels == 1 || channels == 2) && (bitsPerSample == 8 || bitsPerSample == 16)
    ensures format != AL_NONE ==> FormatChannels(format) == channels && FormatBits(format) == bitsPerSample
    ensures format == AL_NONE || AL_FORMAT_MONO8 <= format <= AL_FORMAT_STEREO16
  {
    if channels == 1 then
      if bitsPerSample == 8 then AL_FORMAT_MONO8
      else if bitsPerSample == 16 then AL_FORMAT_MONO16
      else AL_NONE
    else if channels == 2 then
      if bitsPerSample == 8 then AL_FORMAT_STEREO8
      else if bitsPerSample == 16 then AL_FORMAT_STEREO16
      else AL_NONE
    else AL_NONE
  }

  /** The four supported formats are told apart by the table. */
  lemma OpenALFormatInjective(c1: int, b1: int, c2: int, b2: int)
    requires OpenALFormat(c1, b1) != AL_NONE
    ensures OpenALFormat(c1, b1) == OpenALFormat(c2, b2) ==> c1 == c2 && b1 == b2
  {
  }

  const ALSIZEI_MODULUS: int := 0x1_0000_0000
  const ALSIZEI_MAX: int := 0x7FFF_FFFF

  /** `static_cast<ALsizei>` of an unsigned 64-bit product: the value is
      reduced modulo 2^32 and read as a two's-complement 32-bit integer. */
  function ToALsizei(x: nat): (r: int)
    ensures -ALSIZEI_MAX - 1 <= r <= ALSIZEI_MAX
    ensures (x - r) % ALSIZEI_MODULUS == 0
    ensures x <= ALSIZEI_MAX ==> r == x
  {
    var m := x % ALSIZEI_MODULUS;
    if m <= ALSIZEI_MAX then m else m - ALSIZEI_MODULUS
  }

  /** Bytes per decoded sample in the WAV loader: it asks dr_wav for 16-bit
      samples up to 16 bits per sample and for 32-bit samples above. */
  function WavBytesPerSample(bitsPerSample: nat): (bytes: nat)
    ensures bytes == 2 || bytes == 4
    ensures bytes * 8 >= bitsPerSample || bytes == 4
  {
    if bitsPerSample <= 16 then 2 else 4
  }

  /** PCM byte size reported by `loadFromWav`. */
  function WavPcmSize(frames: nat, channels: nat, bitsPerSample: nat): int {
    ToALsizei(frames * channels * WavBytesPerSample(bitsPerSample))
  }

  /** PCM byte size reported by `loadFromOgg`, as written: stb_vorbis
      returns the number of frames (samples per channel) and fills
      `frames * channels` 16-bit samples, but only `frames * 2` bytes are
      reported. */
  function OggPcmSize(frames: nat): int {
    ToALsizei(frames * 2)
  }

  /** The PCM byte size `loadFromOgg` evidently intends: every decoded
      16-bit sample of every channel. */
  function OggPcmSizeIntended(frames: nat, channels: nat): int {
    ToALsizei(frames * channels * 2)
  }

  /** PCM byte size reported by `loadFromMp3`: dr_mp3 decodes to 16-bit samples. */
  function Mp3PcmSize(frames: nat, channels: nat): int {
    ToALsizei(frames * channels * 2)
  }

  /** Below 2 GiB the WAV and MP3 loaders, and the intended OGG size,
      report the exact product of frames, channels and sample width, a
      whole number of frames. */
  lemma {:induction false} PcmSizesExact(frames: nat, channels: nat, bitsPerSample: nat)
    requires frames * channels * 4 <= ALSIZEI_MAX
    ensures WavPcmSize(frames, channels, bitsPerSample) == frames * (channels * WavBytesPerSample(bitsPerSample))
    ensures Mp3PcmSize(frames, channels) == frames * (channels * 2)
    ensures OggPcmSizeIntended(frames, channels) == frames * (channels * 2)
  {
    var b := WavBytesPerSample(bitsPerSample);
    assert frames * channels * b <= frames * channels * 4 by {
      MulMonotone(frames * channels, b, 4);
    }
    assert frames * channels * 2 <= frames * channels * 4 by {
      MulMonotone(frames * channels, 2, 4);
    }
    MulAssoc(frames, channels, b);
    MulAssoc(frames, channels, 2);
  }

  /** As written, the OGG loader reports half of a stereo stream: of one
      second at 44.1 kHz it reports 88200 of the 176400 bytes decoded, and
      for every non-empty stream with more than one channel it reports
      fewer bytes than were decoded. */
  lemma {:induction false} OggUnderCountsStereo(frames: nat, channels: nat)
    requires frames > 0 && channels > 1
    requires frames * channels * 4 <= ALSIZEI_MAX
    ensures OggPcmSize(frames) < OggPcmSizeIntended(frames, channels)
    ensures OggPcmSize(44100) == 88200 && OggPcmSizeIntended(44100, 2) == 176400
  {
    PcmSizesExact(frames, channels, 16);
    assert frames * 2 < frames * (channels * 2) by {
      MulStrict(frames, 2, channels * 2);
    }
  }

  lemma MulStrict(a: nat, b: nat, c: nat)
    requires a > 0 && b < c
    ensures a * b < a * c
  {
  }

  lemma MulMonotone(a: nat, b: nat, c: nat)
    requires b <= c
    ensures a * b <= a * c
  {
  }

  lemma MulAssoc(a: nat, b: nat, c: nat)
    ensures a * b * c == a * (b * c)
  {
  }

  /** A decode of exactly 2 GiB of PCM wraps to a negative size. */
  lemma WavPcmSizeWrapsAt2GiB(frames: nat)
    requires frames * 2 == ALSIZEI_MAX + 1
    ensures WavPcmSize(frames, 1, 16) < 0
  {
  }

  /** `isValid` on the pointer (0 standing for the null pointer) and the size. */
  predicate PcmValid(pcmData: nat, pcmDataSize: int) {
    pcmData != 0 && pcmDataSize > 0
  }

  /** A successful WAV decode of a non-empty stream below 2 GiB yields valid data. */
  lemma LoadedWavIsValid(pcmData: nat, frames: nat, channels: nat, bitsPerSample: nat)
    requires pcmData != 0 && frames > 0 && channels > 0
    requires frames * channels * 4 <= ALSIZEI_MAX
    ensures PcmValid(pcmData, WavPcmSize(frames, channels, bitsPerSample))
  {
    PcmSizesExact(frames, channels, bitsPerSample);
    assert channels * WavBytesPerSample(bitsPerSample) >= 1;
    MulMonotone(frames, 1, channels * WavBytesPerSample(bitsPerSample));
  }

  /** The routine that frees PCM memory, chosen by the file format. */
  datatype Deallocator = DrWavFree | DrMp3Free | CFree

  function DeallocatorFor(format: AudioFormat): Deallocator {
    match format
    case Wav => DrWavFree
    case Mp3 => DrMp3Free
    case Ogg => CFree
  }

  /** The releases of PCM memory performed so far, in order. */
  class FreeLog {
    var freed: seq<(nat, Deallocator)>

    constructor ()
      ensures freed == []
    {
      freed := [];
    }
  }

  /** Decoded audio owning a PCM block; `pcmData == 0` stands for the null pointer.
      The duration (a float) is left out. */
  class AudioData {
    var pcmData: nat
    var pcmDataSize: int
    var channels: int
    var bitsPerSample: int
    var sampleRate: int
    var openALFormat: int
    var sourceFormat: AudioFormat

    constructor (pcmData: nat, pcmDataSize: int, channels: int, bitsPerSample: int,
                 sampleRate: int, sourceFormat: AudioFormat)
      ensures this.pcmData == pcmData && this.pcmDataSize == pcmDataSize
      ensures this.channels == channels && this.bitsPerSample == bitsPerSample
      ensures this.sampleRate == sampleRate && this.sourceFormat == sourceFormat
      ensures openALFormat == OpenALFormat(channels, bitsPerSample)
    {
      this.pcmData := pcmData;
      this.pcmDataSize := pcmDataSize;
      this.channels := channels;
      this.bitsPerSample := bitsPerSample;
      this.sampleRate := sampleRate;
      this.sourceFormat := sourceFormat;
      this.openALFormat := OpenALFormat(channels, bitsPerSample);
    }

    /** Move construction: takes every field of `other` and leaves `other`
        with a null pointer, so that only the new object owns the block. */
    constructor MoveFrom(other: AudioData)
      modifies other
      ensures pcmData == old(other.pcmData) && pcmDataSize == old(other.pcmDataSize)
      ensures channels == old(other.channels) && bitsPerSample == old(other.bitsPerSample)
      ensures sampleRate == old(other.sampleRate) && openALFormat == old(other.openALFormat)
      ensures sourceFormat == old(other.sourceFormat)
      ensures other.pcmData == 0
      ensures other.pcmDataSize == old(other.pcmDataSize) && other.sourceFormat == old(other.sourceFormat)
      ensures other.channels == old(other.channels) && other.bitsPerSample == old(other.bitsPerSample)
      ensures other.sampleRate == old(other.sampleRate) && other.openALFormat == old(other.openALFormat)
    {
      pcmData := other.pcmData;
      pcmDataSize := other.pcmDataSize;
      channels := other.channels;
      bitsPerSample := other.bitsPerSample;
      sampleRate := other.sampleRate;
      openALFormat := other.openALFormat;
      sourceFormat := other.sourceFormat;
      new;
      other.pcmData := 0;
    }

    predicate IsValid()
      reads this
    {
      PcmValid(pcmData, pcmDataSize)
    }

    /** Frees the block with the format's routine, unless the pointer is
        null. The pointer itself is left as it is. */
    method Cleanup(log: FreeLog)
      modifies log
      ensures log.freed == old(log.freed) + (if pcmData == 0 then [] else [(pcmData, DeallocatorFor(sourceFormat))])
    {
      if pcmData == 0 {
        return;
      }
      log.freed := log.freed + [(pcmData, DeallocatorFor(sourceFormat))];
    }

    /** Move assignment: on self-assignment nothing happens; otherwise the
        target frees its own block, takes every field of `other` and nulls
        `other`'s pointer. */
    method MoveAssign(other: AudioData, log: FreeLog)
      modifies this, other, log
      ensures other == this ==> unchanged(this) && log.freed == old(log.freed)
      ensures other != this ==>
        && log.freed == old(log.freed) + (if old(pcmData) == 0 then [] else [(old(pcmData), DeallocatorFor(old(sourceFormat)))])
        && pcmData == old(other.pcmData) && pcmDataSize == old(other.pcmDataSize)
        && channels == old(other.channels) && bitsPerSample == old(other.bitsPerSample)
        && sampleRate == old(other.sampleRate) && openALFormat == old(other.openALFormat)
        && sourceFormat == old(other.sourceFormat)
        && other.pcmData == 0
        && other.pcmDataSize == old(other.pcmDataSize) && other.sourceFormat == old(other.sourceFormat)
        && other.channels == old(other.channels) && other.bitsPerSample == old(other.bitsPerSample)
        && other.sampleRate == old(other.sampleRate) && other.openALFormat == old(other.openALFormat)
    {
      if this != other {
        Cleanup(log);
        pcmData := other.pcmData;
        pcmDataSize := other.pcmDataSize;
        channels := other.channels;
        bitsPerSample := other.bitsPerSample;
        sampleRate := other.sampleRate;
        openALFormat := other.openALFormat;
        sourceFormat := other.sourceFormat;
        other.pcmData := 0;
      }
    }
  }

  /** Move-constructs a new object from `source` and then destroys both (the
      destructor runs `Cleanup`): the block is freed exactly once, by the
      routine of its format. */
  method MoveThenDestroyBoth(source: AudioData, log: FreeLog) returns (moved: AudioData)
    modifies source, log
    ensures fresh(moved)
    ensures log.freed == old(log.freed) + (if old(source.pcmData) == 0 then [] else [(old(source.pcmData), DeallocatorFor(old(source.sourceFormat)))])
  {
    moved := new AudioData.MoveFrom(source);
    source.Cleanup(log);
    moved.Cleanup(log);
  }
}
