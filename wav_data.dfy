/**
 * WavDataUtility: encodes 16-bit PCM samples into RIFF/WAVE bytes (with or
 * without the 44-byte header) and decodes such bytes back into samples.
 *
 * Samples are the Int16 values the source obtains with
 * Convert.ToInt16(sample * 32767); the float side of the conversion is not
 * part of this model. The MemoryStream the source writes into is a local
 * byte sequence that each step extends.
 */
module WavData {
  import opened Results
  import opened Bytes

  const BlockSize16Bit: int := 2
  const WavHeaderSize: int := 44
  const DefaultSampleRate: int := 16000
  const DefaultChannels: uint16 := 1
  const PcmFormat: uint16 := 1
  const ExtensibleFormat: uint16 := 65534

  /** Convert.ToUInt16 rejected the channel count (or the block align). */
  datatype EncodeError = ChannelsOverflow

  /** ReadOutOfRange: Array.Copy or BitConverter read past the buffer;
      NegativeLength: the sample array was given a negative length. */
  datatype DecodeError = ReadOutOfRange | NegativeLength

  /** What ToAudioClip hands to AudioClip.Create and SetData. */
  datatype AudioClip = AudioClip(channels: uint16, frequency: int, data: seq<int16>)

  function BytesPerSample(bitDepth: uint16): (r: nat)
    ensures 8 * r <= bitDepth < 8 * r + 8
  {
    bitDepth / 8
  }

  /** ToUInt16(channels) and ToUInt16(channels * 2) both succeed. */
  predicate ValidChannels(channels: int) {
    0 <= channels && channels * BlockSize16Bit < 0x1_0000
  }

  // ---------------------------------------------------------------------
  // Encoding

  /** The 12-byte RIFF chunk descriptor. */
  function WavFileHeader(fileSize: int): (r: seq<byte>)
    ensures |r| == 12
    ensures r[..4] == Ascii("RIFF") && r[8..] == Ascii("WAVE")
    ensures ReadI32(r, 4) == Wrap32(fileSize - 8)
  {
    ReadLE32(fileSize - 8);
    Ascii("RIFF") + LE32(fileSize - 8) + Ascii("WAVE")
  }

  /** The 24-byte "fmt " subchunk. */
  function WavFileFormat(channels: uint16, sampleRate: int, bitDepth: uint16): (r: seq<byte>)
    requires channels * BytesPerSample(bitDepth) < 0x1_0000
    ensures |r| == 24
    ensures r[..4] == Ascii("fmt ")
    ensures ReadI32(r, 4) == 16
    ensures ReadU16(r, 8) == PcmFormat
    ensures ReadU16(r, 10) == channels
    ensures ReadI32(r, 12) == Wrap32(sampleRate)
    ensures ReadI32(r, 16) == Wrap32(sampleRate * channels * BytesPerSample(bitDepth))
    ensures ReadU16(r, 20) == channels * BytesPerSample(bitDepth)
    ensures ReadU16(r, 22) == bitDepth
  {
    var byteRate := sampleRate * channels * BytesPerSample(bitDepth);
    var blockAlign := channels * BytesPerSample(bitDepth);
    ReadLE32(16);
    ReadLE32(sampleRate);
    ReadLE32(byteRate);
    var r := Ascii("fmt ") + LE32(16) + LE16(PcmFormat) + LE16(channels)
      + LE32(sampleRate) + LE32(byteRate) + LE16(blockAlign) + LE16(bitDepth);
    assert r[4..8] == LE32(16) && r[12..16] == LE32(sampleRate) && r[16..20] == LE32(byteRate);
    r
  }

  /** The 8-byte "data" subchunk header written before the samples. */
  function DataChunkHeader(samples: int): (r: seq<byte>)
    ensures |r| == 8
    ensures r[..4] == Ascii("data")
    ensures ReadI32(r, 4) == Wrap32(samples * BlockSize16Bit)
  {
    ReadLE32(Wrap32(samples * BlockSize16Bit));
    Ascii("data") + LE32(Wrap32(samples * BlockSize16Bit))
  }

  /** The samples as consecutive little-endian Int16 values. */
  function Pcm16(data: seq<int16>): (r: seq<byte>)
    ensures |r| == 2 * |data|
  {
    if data == [] then [] else Pcm16(data[..|data| - 1]) + Int16LE(data[|data| - 1])
  }

  /** Reading the i-th Int16 of the encoded samples gives the i-th sample. */
  lemma {:induction false} Pcm16Sample(data: seq<int16>, i: nat)
    requires i < |data|
    ensures ReadI16(Pcm16(data), 2 * i) == data[i]
  {
    var init := data[..|data| - 1];
    var p := Pcm16(init);
    assert Pcm16(data) == p + Int16LE(data[|data| - 1]);
    if i == |data| - 1 {
      ReadInt16LE(data[i]);
    } else {
      Pcm16Sample(init, i);
    }
  }

  /** Encoding two runs of samples one after the other gives their concatenation. */
  lemma {:induction false} Pcm16Append(a: seq<int16>, b: seq<int16>)
    ensures Pcm16(a + b) == Pcm16(a) + Pcm16(b)
  {
    if b == [] {
      assert a + b == a;
    } else {
      var b' := b[..|b| - 1];
      assert (a + b)[..|a + b| - 1] == a + b';
      assert (a + b)[|a + b| - 1] == b[|b| - 1];
      Pcm16Append(a, b');
    }
  }

  /** The whole output of FromAudioClipData. */
  function WavFile(data: seq<int16>, samples: int, channels: int, frequency: int, includeWavFileHeader: bool)
    : Result<seq<byte>, EncodeError>
  {
    if !includeWavFileHeader then Success(Pcm16(data))
    else if !ValidChannels(channels) then Failure(ChannelsOverflow)
    else Success(WavFileHeader(Wrap32(samples * BlockSize16Bit + WavHeaderSize))
                 + WavFileFormat(channels, frequency, 16)
                 + DataChunkHeader(samples)
                 + Pcm16(data))
  }

  method ConvertAudioClipDataToInt16ByteArray(data: seq<int16>) returns (bytes: seq<byte>)
    ensures bytes == Pcm16(data)
  {
    var dataStream: seq<byte> := [];
    var i := 0;
    while i < |data|
      invariant 0 <= i <= |data|
      invariant dataStream == Pcm16(data[..i])
    {
      assert data[..i + 1][..i] == data[..i];
      dataStream := dataStream + Int16LE(data[i]);
      i := i + 1;
    }
    assert data[..|data|] == data;
    bytes := dataStream;
  }

  method WriteWavData(audioClipData: seq<int16>, samples: int, includeWavFileHeader: bool)
    returns (bytes: seq<byte>)
    ensures |bytes| == 2 * |audioClipData| + (if includeWavFileHeader then 8 else 0)
    ensures includeWavFileHeader ==> bytes == DataChunkHeader(samples) + Pcm16(audioClipData)
    ensures !includeWavFileHeader ==> bytes == Pcm16(audioClipData)
  {
    var converted := ConvertAudioClipDataToInt16ByteArray(audioClipData);
    bytes := [];
    if includeWavFileHeader {
      bytes := bytes + DataChunkHeader(samples);
    }
    bytes := bytes + converted;
  }

  method FromAudioClipData(audioClipData: seq<int16>, samples: int, channels: int, frequency: int,
                           includeWavFileHeader: bool)
    returns (r: Result<seq<byte>, EncodeError>)
    ensures r == WavFile(audioClipData, samples, channels, frequency, includeWavFileHeader)
  {
    var headerSize := if includeWavFileHeader then WavHeaderSize else 0;
    var bitDepth: uint16 := 16;
    var fileSize := Wrap32(samples * BlockSize16Bit + headerSize);
    var stream: seq<byte> := [];
    if includeWavFileHeader {
      var descriptor := WavFileHeader(fileSize);
      stream := stream + descriptor;
      if !ValidChannels(channels) {
        return Failure(ChannelsOverflow);
      }
      var format := WavFileFormat(channels, frequency, bitDepth);
      stream := stream + format;
      assert stream == descriptor + format;
    }
    var dataBytes := WriteWavData(audioClipData, samples, includeWavFileHeader);
    stream := stream + dataBytes;
    r := Success(stream);
    if includeWavFileHeader {
      assert stream == WavFileHeader(fileSize) + WavFileFormat(channels, frequency, 16)
                       + DataChunkHeader(samples) + Pcm16(audioClipData);
    } else {
      assert stream == Pcm16(audioClipData);
    }
  }

  /** Output length: two bytes per sample, plus 44 with the header. */
  lemma WavFileLength(data: seq<int16>, samples: int, channels: int, frequency: int, withHeader: bool)
    requires !withHeader || ValidChannels(channels)
    ensures WavFile(data, samples, channels, frequency, withHeader).Success?
    ensures |WavFile(data, samples, channels, frequency, withHeader).value|
            == 2 * |data| + (if withHeader then WavHeaderSize else 0)
  {
  }

  /** The asserted byte count (fileSize) equals the output length exactly
      when the data holds one value per sample, i.e. for mono audio. */
  lemma FileSizeMatchesOnlyForMono(data: seq<int16>, samples: int, channels: int, frequency: int)
    requires ValidChannels(channels)
    requires 0 <= samples && IsInt32(samples * BlockSize16Bit + WavHeaderSize)
    ensures var fileSize := Wrap32(samples * BlockSize16Bit + WavHeaderSize);
            |WavFile(data, samples, channels, frequency, true).value| == fileSize <==> |data| == samples
  {
  }

  /** The RIFF descriptor and the fmt chunk read back at their offsets. */
  lemma FormatLayout(data: seq<int16>, samples: int, channels: int, frequency: int)
    requires ValidChannels(channels)
    ensures var w := WavFile(data, samples, channels, frequency, true).value;
      && |w| >= WavHeaderSize
      && w[0..4] == Ascii("RIFF")
      && ReadI32(w, 4) == Wrap32(Wrap32(samples * 2 + WavHeaderSize) - 8)
      && w[8..12] == Ascii("WAVE")
      && w[12..16] == Ascii("fmt ")
      && ReadI32(w, 16) == 16
      && ReadU16(w, 20) == PcmFormat
      && ReadU16(w, 22) == channels
      && ReadI32(w, 24) == Wrap32(frequency)
      && ReadI32(w, 28) == Wrap32(frequency * channels * 2)
      && ReadU16(w, 32) == channels * 2
      && ReadU16(w, 34) == 16
  {
    var h := WavFileHeader(Wrap32(samples * BlockSize16Bit + WavHeaderSize));
    var f := WavFileFormat(channels, frequency, 16);
    var hf := h + f;
    var rest := DataChunkHeader(samples) + Pcm16(data);
    var w := hf + rest;
    assert WavFile(data, samples, channels, frequency, true).value == w;
    assert w[..36] == hf;
    assert w[0..4] == h[..4];
    assert w[8..12] == h[8..];
    assert w[12..16] == f[..4];
    assert ReadI32(w, 4) == ReadI32(h, 4);
    assert ReadI32(w, 16) == ReadI32(f, 4);
    assert ReadU16(w, 20) == ReadU16(f, 8);
    assert ReadU16(w, 22) == ReadU16(f, 10);
    assert ReadI32(w, 24) == ReadI32(f, 12);
    assert ReadI32(w, 28) == ReadI32(f, 16);
    assert ReadU16(w, 32) == ReadU16(f, 20);
    assert ReadU16(w, 34) == ReadU16(f, 22);
  }

  /** The data chunk header and the samples after the fmt chunk. */
  lemma DataLayout(data: seq<int16>, samples: int, channels: int, frequency: int)
    requires ValidChannels(channels)
    ensures var w := WavFile(data, samples, channels, frequency, true).value;
      && |w| >= WavHeaderSize
      && w[36..40] == Ascii("data")
      && ReadI32(w, 40) == Wrap32(samples * 2)
      && w[WavHeaderSize..] == Pcm16(data)
  {
    var hf := WavFileHeader(Wrap32(samples * BlockSize16Bit + WavHeaderSize)) + WavFileFormat(channels, frequency, 16);
    var d := DataChunkHeader(samples);
    var p := Pcm16(data);
    var w := hf + d + p;
    assert WavFile(data, samples, channels, frequency, true).value == w;
    assert |hf| == 36;
    assert w[36..] == d + p;
    assert w[36..40] == d[..4];
    assert w[WavHeaderSize..] == p;
    assert ReadI32(w, 40) == ReadI32(d, 4);
  }

  /** The 44-byte header read back at its fixed offsets. */
  lemma WavHeaderLayout(data: seq<int16>, samples: int, channels: int, frequency: int)
    requires ValidChannels(channels)
    ensures var w := WavFile(data, samples, channels, frequency, true).value;
      && |w| >= WavHeaderSize
      && w[0..4] == Ascii("RIFF")
      && ReadI32(w, 4) == Wrap32(Wrap32(samples * 2 + WavHeaderSize) - 8)
      && w[8..12] == Ascii("WAVE")
      && w[12..16] == Ascii("fmt ")
      && ReadI32(w, 16) == 16
      && ReadU16(w, 20) == PcmFormat
      && ReadU16(w, 22) == channels
      && ReadI32(w, 24) == Wrap32(frequency)
      && ReadI32(w, 28) == Wrap32(frequency * channels * 2)
      && ReadU16(w, 32) == channels * 2
      && ReadU16(w, 34) == 16
      && w[36..40] == Ascii("data")
      && ReadI32(w, 40) == Wrap32(samples * 2)
      && w[WavHeaderSize..] == Pcm16(data)
  {
    FormatLayout(data, samples, channels, frequency);
    DataLayout(data, samples, channels, frequency);
  }

  /** Header-less output is header-ful output without its first 44 bytes. */
  lemma HeaderlessIsSuffix(data: seq<int16>, samples: int, channels: int, frequency: int)
    requires ValidChannels(channels)
    ensures WavFile(data, samples, channels, frequency, false).value
            == WavFile(data, samples, channels, frequency, true).value[WavHeaderSize..]
  {
    WavHeaderLayout(data, samples, channels, frequency);
  }

  /** A first chunk written with the header followed by later chunks written
      without it is one file whose size fields count only the first chunk. */
  lemma StreamedChunksConcatenate(first: seq<int16>, samples: int, later: seq<int16>, laterSamples: int,
                                  channels: int, frequency: int)
    requires ValidChannels(channels)
    ensures WavFile(first, samples, channels, frequency, true).value
            + WavFile(later, laterSamples, channels, frequency, false).value
            == WavFile(first + later, samples, channels, frequency, true).value
  {
    Pcm16Append(first, later);
  }

  // ---------------------------------------------------------------------
  // Decoding

  /** The first four bytes, read as ASCII, spell "RIFF". */
  predicate IsRiff(bytes: seq<byte>)
    requires |bytes| >= 4
  {
    AsciiString(bytes[..4]) == "RIFF"
  }

  lemma IsRiffBytes(bytes: seq<byte>)
    requires |bytes| >= 4
    ensures IsRiff(bytes) <==> bytes[..4] == Ascii("RIFF")
  {
    var s := AsciiString(bytes[..4]);
    if IsRiff(bytes) {
      forall i | 0 <= i < 4 ensures bytes[i] == Ascii("RIFF")[i] {
        assert s[i] != '?';
      }
    }
    if bytes[..4] == Ascii("RIFF") {
      assert s == "RIFF";
    }
  }

  /** The format checks ToAudioClip only logs when they fail: PCM or
      extensible format code, and 16 bits per sample. */
  predicate FormatAsserted(bytes: seq<byte>)
    requires |bytes| >= 36
  {
    (ReadU16(bytes, 20) == PcmFormat || ReadU16(bytes, 20) == ExtensibleFormat) && ReadU16(bytes, 34) == 16
  }

  /** n little-endian Int16 values read from offset on. */
  function SamplesAt(source: seq<byte>, offset: nat, n: nat): (r: seq<int16>)
    requires offset + 2 * n <= |source|
    ensures |r| == n
    ensures forall i :: 0 <= i < n ==> r[i] == ReadI16(source, offset + 2 * i)
  {
    seq(n, i requires 0 <= i < n => ReadI16(source, offset + 2 * i))
  }

  /** What Convert16BitByteArrayToAudioClipData returns or throws. */
  function ConvertedSamples(source: seq<byte>, headerOffset: int, dataSize: int): (r: Result<seq<int16>, DecodeError>)
    ensures headerOffset == 0 && dataSize == |source| ==> r == Success(SamplesAt(source, 0, |source| / 2))
    ensures headerOffset > 0 && r.Success? ==>
      headerOffset + 4 <= |source| && |r.value| == DivTrunc(ReadI32(source, headerOffset), 2)
      && headerOffset + 4 + 2 * |r.value| <= |source|
      && r.value == SamplesAt(source, headerOffset + 4, |r.value|)
    ensures (headerOffset > 0 && headerOffset + 4 <= |source|
             && 0 <= DivTrunc(ReadI32(source, headerOffset), 2)
             && headerOffset + 4 + 2 * DivTrunc(ReadI32(source, headerOffset), 2) <= |source|) ==> r.Success?
  {
    if headerOffset != 0 && !(0 <= headerOffset && headerOffset + 4 <= |source|) then Failure(ReadOutOfRange)
    else
      var wavSize := if headerOffset != 0 then ReadI32(source, headerOffset) else dataSize;
      var start := if headerOffset != 0 then headerOffset + 4 else 0;
      var n := DivTrunc(wavSize, 2);
      if n < 0 then Failure(NegativeLength)
      else if start + 2 * n > |source| then Failure(ReadOutOfRange)
      else Success(SamplesAt(source, start, n))
  }

  method Convert16BitByteArrayToAudioClipData(source: seq<byte>, headerOffset: int, dataSize: int)
    returns (r: Result<seq<int16>, DecodeError>)
    ensures r == ConvertedSamples(source, headerOffset, dataSize)
  {
    var wavSize := dataSize;
    var start := headerOffset;
    if headerOffset != 0 {
      if headerOffset < 0 || headerOffset + 4 > |source| {
        return Failure(ReadOutOfRange);
      }
      wavSize := ReadI32(source, headerOffset);
      start := headerOffset + 4;
    }
    var convertedSize := DivTrunc(wavSize, 2);
    if convertedSize < 0 {
      return Failure(NegativeLength);
    }
    var data := new int16[convertedSize];
    var i := 0;
    while i < convertedSize
      invariant 0 <= i <= convertedSize
      invariant start + 2 * i <= |source|
      invariant forall k :: 0 <= k < i ==> data[k] == ReadI16(source, start + 2 * k)
    {
      var offset := i * 2 + start;
      if offset + 2 > |source| {
        return Failure(ReadOutOfRange);
      }
      data[i] := ReadI16(source, offset);
      i := i + 1;
    }
    r := Success(data[..]);
    assert data[..] == SamplesAt(source, start, convertedSize);
  }

  /** What ToAudioClip decodes, or the exception it raises. */
  function DecodeWav(fileBytes: seq<byte>): (r: Result<AudioClip, DecodeError>)
    ensures |fileBytes| < 4 ==> r == Failure(ReadOutOfRange)
    ensures |fileBytes| >= 4 && !IsRiff(fileBytes) ==>
      r == Success(AudioClip(DefaultChannels, DefaultSampleRate, SamplesAt(fileBytes, 0, |fileBytes| / 2)))
    ensures |fileBytes| >= 4 && IsRiff(fileBytes) && r.Success? ==>
      |fileBytes| >= 36 && r.value.channels == ReadU16(fileBytes, 22) && r.value.frequency == ReadI32(fileBytes, 24)
  {
    if |fileBytes| < 4 then Failure(ReadOutOfRange)
    else if !IsRiff(fileBytes) then
      match ConvertedSamples(fileBytes, 0, |fileBytes|)
      case Failure(e) => Failure(e)
      case Success(data) => Success(AudioClip(DefaultChannels, DefaultSampleRate, data))
    else if |fileBytes| < 36 then Failure(ReadOutOfRange)
    else
      var subchunk1 := ReadI32(fileBytes, 16);
      var channels := ReadU16(fileBytes, 22);
      var sampleRate := ReadI32(fileBytes, 24);
      var headerOffset := 16 + 4 + subchunk1 + 4;
      if headerOffset < 0 || headerOffset + 4 > |fileBytes| then Failure(ReadOutOfRange)
      else
        match ConvertedSamples(fileBytes, headerOffset, ReadI32(fileBytes, headerOffset))
        case Failure(e) => Failure(e)
        case Success(data) => Success(AudioClip(channels, sampleRate, data))
  }

  method ToAudioClip(fileBytes: seq<byte>) returns (r: Result<AudioClip, DecodeError>)
    ensures r == DecodeWav(fileBytes)
  {
    var headerOffset := 0;
    var sampleRate := DefaultSampleRate;
    var channels: uint16 := DefaultChannels;
    var subchunk2 := |fileBytes|;

    if |fileBytes| < 4 {
      return Failure(ReadOutOfRange);
    }
    var includeWavFileHeader := true;
    var fileHeader := AsciiString(fileBytes[..4]);
    if fileHeader != "RIFF" {
      includeWavFileHeader := false;
    }

    if includeWavFileHeader {
      if |fileBytes| < 36 {
        return Failure(ReadOutOfRange);
      }
      var subchunk1 := ReadI32(fileBytes, 16);
      channels := ReadU16(fileBytes, 22);
      sampleRate := ReadI32(fileBytes, 24);
      headerOffset := 16 + 4 + subchunk1 + 4;
      if headerOffset < 0 || headerOffset + 4 > |fileBytes| {
        return Failure(ReadOutOfRange);
      }
      subchunk2 := ReadI32(fileBytes, headerOffset);
    }

    var data := Convert16BitByteArrayToAudioClipData(fileBytes, headerOffset, subchunk2);
    match data {
      case Failure(e) => r := Failure(e);
      case Success(d) => r := Success(AudioClip(channels, sampleRate, d));
    }
  }

  /** The encoder's own header passes the format checks ToAudioClip logs. */
  lemma EncodedFormatAsserted(data: seq<int16>, samples: int, channels: int, frequency: int)
    requires ValidChannels(channels)
    ensures var w := WavFile(data, samples, channels, frequency, true).value;
            |w| >= 36 && IsRiff(w) && FormatAsserted(w)
  {
    WavHeaderLayout(data, samples, channels, frequency);
    var w := WavFile(data, samples, channels, frequency, true).value;
    IsRiffBytes(w);
  }

  /** A RIFF buffer whose fmt chunk is 16 bytes long decodes the samples
      that follow the data size at offset 40. */
  lemma DecodeCanonicalHeader(w: seq<byte>)
    requires |w| >= WavHeaderSize && IsRiff(w) && ReadI32(w, 16) == 16
    requires 0 <= ReadI32(w, 40) && WavHeaderSize + ReadI32(w, 40) <= |w|
    ensures DecodeWav(w)
            == Success(AudioClip(ReadU16(w, 22), ReadI32(w, 24), SamplesAt(w, WavHeaderSize, ReadI32(w, 40) / 2)))
  {
    var n := ReadI32(w, 40);
    assert DivTrunc(n, 2) == n / 2;
    assert ConvertedSamples(w, 40, n) == Success(SamplesAt(w, WavHeaderSize, n / 2));
  }

  /** The samples after the encoder's header read back as the input. */
  lemma EncodedSamples(data: seq<int16>, channels: int, frequency: int)
    requires ValidChannels(channels)
    ensures var w := WavFile(data, |data|, channels, frequency, true).value;
            |w| >= WavHeaderSize + 2 * |data| && SamplesAt(w, WavHeaderSize, |data|) == data
  {
    var w := WavFile(data, |data|, channels, frequency, true).value;
    DataLayout(data, |data|, channels, frequency);
    forall i | 0 <= i < |data| ensures SamplesAt(w, WavHeaderSize, |data|)[i] == data[i] {
      Pcm16Sample(data, i);
      assert ReadI16(w, WavHeaderSize + 2 * i) == ReadI16(Pcm16(data), 2 * i);
    }
  }

  /** Decoding the encoder's output with header gives back the channel
      count, the sample rate and every sample. */
  lemma RoundTrip(data: seq<int16>, channels: int, frequency: int)
    requires ValidChannels(channels) && IsInt32(frequency)
    requires 2 * |data| + WavHeaderSize < 0x8000_0000
    ensures DecodeWav(WavFile(data, |data|, channels, frequency, true).value)
            == Success(AudioClip(channels, frequency, data))
  {
    var w := WavFile(data, |data|, channels, frequency, true).value;
    FormatLayout(data, |data|, channels, frequency);
    DataLayout(data, |data|, channels, frequency);
    IsRiffBytes(w);
    DecodeCanonicalHeader(w);
    EncodedSamples(data, channels, frequency);
  }

  /** ToAudioClip reads the format code (offset 20) and the bit depth
      (offset 34) only for its log messages: two buffers that differ only
      there decode alike, as long as the data chunk starts after them. */
  lemma DecodeIgnoresFormatFields(a: seq<byte>, b: seq<byte>)
    requires |a| == |b| >= 36
    requires forall i :: 0 <= i < |a| && i != 20 && i != 21 && i != 34 && i != 35 ==> a[i] == b[i]
    requires IsRiff(a) && ReadI32(a, 16) >= 12
    ensures DecodeWav(a) == DecodeWav(b)
  {
    assert a[..4] == b[..4];
    assert IsRiff(b);
    assert ReadI32(a, 16) == ReadI32(b, 16);
    assert ReadU16(a, 22) == ReadU16(b, 22);
    assert ReadI32(a, 24) == ReadI32(b, 24);
    var headerOffset := 24 + ReadI32(a, 16);
    if headerOffset + 4 <= |a| {
      assert ReadI32(a, headerOffset) == ReadI32(b, headerOffset);
      var n := DivTrunc(ReadI32(a, headerOffset), 2);
      if 0 <= n && headerOffset + 4 + 2 * n <= |a| {
        forall i | 0 <= i < n
          ensures ReadI16(a, headerOffset + 4 + 2 * i) == ReadI16(b, headerOffset + 4 + 2 * i)
        {
        }
        assert SamplesAt(a, headerOffset + 4, n) == SamplesAt(b, headerOffset + 4, n);
      }
    }
  }

  /** A header relabelled with any other bit depth still decodes to the
      original samples: the 16-bit requirement is not enforced. */
  lemma BitDepthNotEnforced(data: seq<int16>, channels: int, frequency: int, bitDepth: uint16)
    requires ValidChannels(channels) && IsInt32(frequency)
    requires 2 * |data| + WavHeaderSize < 0x8000_0000
    ensures var w := WavFile(data, |data|, channels, frequency, true).value;
            var relabelled := w[34 := bitDepth % 0x100][35 := bitDepth / 0x100];
            ReadU16(relabelled, 34) == bitDepth
            && DecodeWav(relabelled) == Success(AudioClip(channels, frequency, data))
  {
    var w := WavFile(data, |data|, channels, frequency, true).value;
    var relabelled: seq<byte> := w[34 := bitDepth % 0x100][35 := bitDepth / 0x100];
    RoundTrip(data, channels, frequency);
    WavHeaderLayout(data, |data|, channels, frequency);
    IsRiffBytes(w);
    DecodeIgnoresFormatFields(w, relabelled);
  }
}
