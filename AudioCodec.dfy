/** The audio utilities at the top of App.tsx: `encode` and `decode` move raw
    PCM bytes through base64 text, and `decodeAudioData` turns interleaved
    signed 16-bit little-endian PCM into per-channel sample arrays. */
module AudioCodec {
  import opened Outcomes
  import opened Base64

  // ---------------------------------------------------------------------
  // encode / decode
  // ---------------------------------------------------------------------

  /** `encode(bytes)`: appends one character per byte to a binary string,
      then hands it to `btoa`, which cannot throw on such a string. */
  method Encode(bytes: array<Byte>) returns (base64: string)
    ensures Btoa(BinaryString(bytes[..])) == Success(base64)
  {
    var binary := "";
    for i := 0 to bytes.Length
      invariant |binary| == i
      invariant forall k :: 0 <= k < i ==> binary[k] as int == bytes[k]
    {
      binary := binary + [bytes[i] as char];
    }
    assert binary == BinaryString(bytes[..]);
    var encoded := Btoa(binary);
    base64 := encoded.value;
  }

  /** A store into a Uint8Array keeps the value modulo 256. */
  function ToUint8(x: int): (b: Byte)
    ensures 0 <= x < 256 ==> b == x
  {
    x % 256
  }

  /** `decode(base64)`: `atob`, then one byte per character code written into
      a fresh Uint8Array. Throws (here: fails) exactly when `atob` does. */
  method Decode(base64: string) returns (r: Result<array<Byte>, DomException>)
    ensures r.Success? <==> Atob(base64).Success?
    ensures r.Success? ==> fresh(r.value) && r.value[..] == ByteCodes(Atob(base64).value)
  {
    var decoded := Atob(base64);
    if decoded.Failure? {
      return Failure(decoded.error);
    }
    var bytes := CharCodes(decoded.value);
    r := Success(bytes);
  }

  /** The loop of `decode`: `bytes[i] = binaryString.charCodeAt(i)` for every
      index of a binary string. */
  method CharCodes(binaryString: string) returns (bytes: array<Byte>)
    requires IsBinary(binaryString)
    ensures fresh(bytes)
    ensures bytes[..] == ByteCodes(binaryString)
  {
    var len := |binaryString|;
    bytes := new Byte[len];
    for i := 0 to len
      invariant forall k :: 0 <= k < i ==> bytes[k] == binaryString[k] as int
    {
      bytes[i] := ToUint8(binaryString[i] as int);
    }
  }

  /** `decode(encode(bytes))` reproduces `bytes`: the binary string has one
      character per byte, `atob` undoes `btoa`, and every character code is
      below 256 so the Uint8Array stores it unchanged. */
  lemma DecodeInvertsEncode(bytes: seq<Byte>)
    ensures Btoa(BinaryString(bytes)).Success?
    ensures Atob(Btoa(BinaryString(bytes)).value).Success?
    ensures ByteCodes(Atob(Btoa(BinaryString(bytes)).value).value) == bytes
  {
    AtobInvertsBtoa(BinaryString(bytes));
    BinaryStringRoundTrip(bytes, []);
  }

  /** The two methods composed: what `encode` sends, `decode` gives back. */
  method EncodeThenDecode(bytes: array<Byte>) returns (copy: array<Byte>)
    ensures copy[..] == bytes[..]
  {
    var base64 := Encode(bytes);
    DecodeInvertsEncode(bytes[..]);
    var decoded := Decode(base64);
    copy := decoded.value;
  }

  // ---------------------------------------------------------------------
  // decodeAudioData
  // ---------------------------------------------------------------------

  /** The exceptions `decodeAudioData` can raise: the Int16Array constructor
      throws a RangeError for an odd byte length, and `createBuffer` throws a
      NotSupportedError for a channel count outside 1..MaxChannels or a
      length of zero. */
  datatype AudioError = RangeError | NotSupportedError

  /** The number of channels every implementation must support in
      `createBuffer`. */
  const MaxChannels := 32

  /** The signed 16-bit little-endian sample at index `k`. */
  function Int16At(data: seq<Byte>, k: nat): (v: int)
    requires 2 * k + 1 < |data|
    ensures -32768 <= v < 32768
    ensures (v + 65536) % 65536 == data[2 * k] as int + 256 * data[2 * k + 1] as int
  {
    var u := data[2 * k] as int + 256 * data[2 * k + 1] as int;
    if u >= 32768 then u - 65536 else u
  }

  /** A sample divided by 32768, as the channel arrays store it. The value
      lies in [-1, 1) and is -1 only for the most negative sample. */
  function SampleValue(s: int): (v: real)
    requires -32768 <= s < 32768
    ensures -1.0 <= v < 1.0
    ensures v == -1.0 <==> s == -32768
    ensures v < 0.0 <==> s < 0
  {
    s as real / 32768.0
  }

  /** The value `decodeAudioData` stores at frame `i` of channel `c`: the
      interleaved sample `i * numChannels + c`. */
  function Decoded(data: seq<Byte>, numChannels: nat, c: nat, i: nat): real
    requires c < numChannels && i < |data| / 2 / numChannels
  {
    var frames := |data| / 2 / numChannels;
    SlotsAreDistinct(numChannels, frames, c, i, c, i);
    SampleValue(Int16At(data, i * numChannels + c))
  }

  /** Interleaved sample `k` belongs to channel `k % numChannels`, frame
      `k / numChannels`, and that slot reads it back. */
  lemma {:induction false} SlotOfSample(numChannels: int, frameCount: nat, k: nat)
    requires numChannels >= 1 && k < frameCount * numChannels
    ensures 0 <= k % numChannels < numChannels && k / numChannels < frameCount
    ensures (k / numChannels) * numChannels + k % numChannels == k
  {
    if k / numChannels >= frameCount {
      assert (k / numChannels) * numChannels >= frameCount * numChannels by {
        MulMonotone(frameCount, k / numChannels, numChannels);
      }
    }
  }

  /** Distinct (channel, frame) slots read distinct interleaved samples, and
      every slot of a frameCount-frame buffer reads a sample below
      frameCount * numChannels. */
  lemma {:induction false} SlotsAreDistinct(numChannels: int, frameCount: nat, c: int, i: int, c2: int, i2: int)
    requires numChannels >= 1
    requires 0 <= c < numChannels && 0 <= i < frameCount
    requires 0 <= c2 < numChannels && 0 <= i2 < frameCount
    ensures i * numChannels + c < frameCount * numChannels
    ensures i * numChannels + c == i2 * numChannels + c2 <==> c == c2 && i == i2
  {
    MulMonotone(i + 1, frameCount, numChannels);
    if i * numChannels + c == i2 * numChannels + c2 {
      if i < i2 {
        MulMonotone(i + 1, i2, numChannels);
      } else if i2 < i {
        MulMonotone(i2 + 1, i, numChannels);
      }
    }
  }

  lemma MulMonotone(a: int, b: int, n: int)
    requires 0 <= a <= b && n >= 0
    ensures a * n <= b * n
  {
  }

  /** A frame index whose first sample is in range is at most the integer
      frame count. */
  lemma FrameAtMostQuotient(i: int, sampleCount: nat, numChannels: int)
    requires numChannels >= 1 && i * numChannels < sampleCount
    ensures i <= sampleCount / numChannels
  {
    var q := sampleCount / numChannels;
    if i > q {
      MulMonotone(q + 1, i, numChannels);
    }
  }

  /** `i < sampleCount / numChannels` over the reals is `i * numChannels <
      sampleCount` over the integers. */
  lemma BelowQuotient(i: int, sampleCount: int, numChannels: int)
    requires numChannels >= 1
    ensures (i as real) < (sampleCount as real) / (numChannels as real) <==> i * numChannels < sampleCount
  {
    var n := numChannels as real;
    assert (i * numChannels) as real == (i as real) * n;
    assert ((sampleCount as real) / n) * n == sampleCount as real;
  }

  /** The JavaScript loop test `i < frameCount`, with `frameCount` the exact
      quotient `sampleCount / numChannels`, holds for every whole frame and,
      when the division leaves a remainder, for one index more. */
  lemma LoopGuard(i: nat, sampleCount: nat, numChannels: int)
    requires numChannels >= 1
    ensures (i as real) < (sampleCount as real) / (numChannels as real)
        <==> i < sampleCount / numChannels || (i == sampleCount / numChannels && sampleCount % numChannels != 0)
  {
    BelowQuotient(i, sampleCount, numChannels);
    var q := sampleCount / numChannels;
    if i * numChannels < sampleCount {
      FrameAtMostQuotient(i, sampleCount, numChannels);
    }
    if i < q {
      MulMonotone(i + 1, q, numChannels);
    }
  }

  /** The AudioBuffer of the Web Audio API: `channels[c, i]` is element `i`
      of `getChannelData(c)`. */
  class AudioBuffer {
    const sampleRate: int
    const channels: array2<real>

    /** `createBuffer` once its arguments passed validation: zero-filled. */
    constructor (numberOfChannels: nat, length: nat, sampleRate: int)
      ensures this.sampleRate == sampleRate && fresh(channels)
      ensures channels.Length0 == numberOfChannels && channels.Length1 == length
      ensures forall c, i :: 0 <= c < numberOfChannels && 0 <= i < length ==> channels[c, i] == 0.0
    {
      this.sampleRate := sampleRate;
      channels := new real[numberOfChannels, length]((c, i) => 0.0);
    }
  }

  /** Which exception, if any, `decodeAudioData` throws. */
  function AudioDecodeError(byteLength: nat, numChannels: int): (e: Option<AudioError>)
    ensures e == Some(RangeError) <==> byteLength % 2 == 1
    ensures e.None? <==> byteLength % 2 == 0 && 1 <= numChannels <= MaxChannels && byteLength / 2 / numChannels >= 1
    ensures byteLength % 2 == 0 && e.Some? ==> e == Some(NotSupportedError)
  {
    if byteLength % 2 == 1 then Some(RangeError)
    else if numChannels < 1 || numChannels > MaxChannels then Some(NotSupportedError)
    else if byteLength / 2 / numChannels == 0 then Some(NotSupportedError)
    else None
  }

  /** `decodeAudioData(data, ctx, sampleRate, numChannels)`: reads the bytes
      as 16-bit samples, makes a buffer of `samples / numChannels` frames
      (rounded down by the conversion to an integer length) and fills channel
      `c`, frame `i` with sample `i * numChannels + c` divided by 32768. The
      loop runs while `i < frameCount` with the fractional frame count, so
      its last pass may target one frame past the end; that store is ignored
      like any store past the end of a Float32Array. */
  method DecodeAudioData(data: array<Byte>, sampleRate: int, numChannels: int)
    returns (r: Result<AudioBuffer, AudioError>)
    ensures r.Failure? <==> AudioDecodeError(data.Length, numChannels).Some?
    ensures r.Failure? ==> r.error == AudioDecodeError(data.Length, numChannels).value
    ensures r.Success? ==>
      var frames := data.Length / 2 / numChannels;
      && numChannels >= 1
      && fresh(r.value) && fresh(r.value.channels)
      && r.value.sampleRate == sampleRate
      && r.value.channels.Length0 == numChannels
      && r.value.channels.Length1 == frames
      && forall c, i :: 0 <= c < numChannels && 0 <= i < frames ==>
           r.value.channels[c, i] == Decoded(data[..], numChannels, c, i)
  {
    var error := AudioDecodeError(data.Length, numChannels);
    if error.Some? {
      return Failure(error.value);
    }
    var bytes := data[..];
    var sampleCount := data.Length / 2;
    var frameCount: real := (sampleCount as real) / (numChannels as real);
    var buffer := new AudioBuffer(numChannels, sampleCount / numChannels, sampleRate);
    for channel := 0 to numChannels
      invariant forall c, i :: 0 <= c < channel && 0 <= i < buffer.channels.Length1 ==>
        buffer.channels[c, i] == Decoded(bytes, numChannels, c, i)
    {
      FillChannel(buffer.channels, channel, bytes, numChannels, frameCount);
    }
    r := Success(buffer);
  }

  /** The inner loop of `decodeAudioData` for one channel: `for (i = 0; i <
      frameCount; i++) channelData[i] = dataInt16[i * numChannels + channel]
      / 32768`. Only row `channel` changes. */
  method FillChannel(channelData: array2<real>, channel: nat, bytes: seq<Byte>, numChannels: nat, frameCount: real)
    requires 1 <= numChannels == channelData.Length0 && channel < numChannels
    requires channelData.Length1 == |bytes| / 2 / numChannels
    requires frameCount == ((|bytes| / 2) as real) / (numChannels as real)
    modifies channelData
    ensures forall i :: 0 <= i < channelData.Length1 ==>
      channelData[channel, i] == Decoded(bytes, numChannels, channel, i)
    ensures forall c, i :: 0 <= c < numChannels && c != channel && 0 <= i < channelData.Length1 ==>
      channelData[c, i] == old(channelData[c, i])
  {
    var sampleCount := |bytes| / 2;
    var length := channelData.Length1;
    var i: nat := 0;
    while (i as real) < frameCount
      invariant 0 <= i <= length + 1
      invariant forall j :: 0 <= j < i && j < length ==>
        channelData[channel, j] == Decoded(bytes, numChannels, channel, j)
      invariant forall c, j :: 0 <= c < numChannels && c != channel && 0 <= j < length ==>
        channelData[c, j] == old(channelData[c, j])
      decreases length + 1 - i
    {
      LoopGuard(i, sampleCount, numChannels);
      if i < length {
        channelData[channel, i] := Decoded(bytes, numChannels, channel, i);
      }
      i := i + 1;
    }
    if i < length {
      LoopGuard(i, sampleCount, numChannels);
    }
  }
}
