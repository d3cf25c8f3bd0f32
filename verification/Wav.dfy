/** Streaming WAV conversion to mono PCM16 at 16 kHz (crates/audio2face3d-gui/src/wav.rs). The ring buffer
    window must give what the whole-array windowed sum gives. The window coefficient is a parameter. */
module Wav {
  import opened Common

  const WINDOW_LIMIT: nat := 128

  /** One decoded sample of the file: a number, or a decode error or nonfinite value. */
  datatype Item = Sample(value: real) | Malformed

  datatype Spec = Spec(channels: nat, rate: nat, frames: nat, samples: nat, supported: bool)

  datatype WavError = BadSpec | IncompleteFrame | UnsupportedFormat | BadInput

  // ---------------------------------------------------------------- the decoded source

  function FrameStart(channels: nat, frame: nat): nat { if channels == 1 then frame else 2 * frame }

  /** Downmix of one frame; None when the file ends inside it or a sample is malformed. */
  function MonoAt(input: seq<Item>, channels: nat, frame: nat): Option<real> {
    var first := FrameStart(channels, frame);
    if first >= |input| || input[first].Malformed? then None
    else if channels == 1 then Some(0.0 + input[first].value / 1.0)
    else if first + 1 >= |input| || input[first + 1].Malformed? then None
    else Some(0.0 + input[first].value / 2.0 + input[first + 1].value / 2.0)
  }

  /** The mono source as a whole; frames that do not decode are never used. */
  function Tone(input: seq<Item>, channels: nat): nat -> real {
    (frame: nat) => match MonoAt(input, channels, frame) case Some(value) => value case None => 0.0
  }

  predicate Decodes(input: seq<Item>, channels: nat, frames: nat) {
    forall k | 0 <= k < frames :: MonoAt(input, channels, k).Some?
  }

  /** A mono frame is its sample, a stereo frame the mean of its two neighbouring samples; it is there exactly when the
      file holds all of its samples and each of them decodes. */
  lemma MonoMeans(input: seq<Item>, frame: nat)
    ensures var r := MonoAt(input, 1, frame);
            && (r.Some? <==> frame < |input| && input[frame].Sample?) && (r.Some? ==> r.value == input[frame].value)
    ensures var r := MonoAt(input, 2, frame);
            && (r.Some? <==> 2 * frame + 1 < |input| && input[2 * frame].Sample? && input[2 * frame + 1].Sample?)
            && (r.Some? ==> 2.0 * r.value == input[2 * frame].value + input[2 * frame + 1].value)
  {
  }

  class Reader {
    const input: seq<Item>
    const channels: nat
    var position: nat

    constructor (items: seq<Item>, channelCount: nat)
      ensures input == items && channels == channelCount && position == 0
    {
      input, channels, position := items, channelCount, 0;
    }

    /** Reads one frame sample by sample. */
    method Mono(ghost frame: nat) returns (r: Option<real>)
      requires 1 <= channels <= 2 && position == FrameStart(channels, frame)
      modifies this`position
      ensures r == MonoAt(input, channels, frame)
      ensures r.Some? ==> position == FrameStart(channels, frame + 1) && r.value == Tone(input, channels)(frame)
    {
      var sum := 0.0;
      for c := 0 to channels
        invariant position == FrameStart(channels, frame) + c && (c > 0 ==> position <= |input|)
        invariant c == 0 ==> sum == 0.0
        invariant c == 1 ==>
                  input[position - 1].Sample?
                  && sum == 0.0
                      + (if channels == 1 then input[position - 1].value / 1.0 else input[position - 1].value / 2.0)
        invariant c == 2 ==>
                  input[position - 2].Sample? && input[position - 1].Sample?
                  && sum == 0.0 + input[position - 2].value / 2.0 + input[position - 1].value / 2.0
      {
        if position >= |input| || input[position].Malformed? {
          return None;
        }
        sum := sum + (if channels == 1 then input[position].value / 1.0 else input[position].value / 2.0);
        position := position + 1;
      }
      return Some(sum);
    }
  }

  // ---------------------------------------------------------------- positions and windows

  /** frame * rate, by repeated addition. */
  function Scaled(frame: nat, rate: nat): nat {
    if frame == 0 then 0 else Scaled(frame - 1, rate) + rate
  }

  lemma {:induction false} ScaledIsProduct(frame: nat, rate: nat)
    ensures Scaled(frame, rate) == frame * rate
  {
    if frame > 0 {
      ScaledIsProduct(frame - 1, rate);
      assert (frame - 1) * rate + rate == frame * rate;
    }
  }

  lemma {:induction false} ScaledGrows(m: nat, n: nat, rate: nat)
    requires m <= n
    ensures Scaled(m, rate) <= Scaled(n, rate)
    decreases n
  {
    if m < n {
      ScaledGrows(m, n - 1, rate);
    }
  }

  function OutputFrames(frames: nat, rate: nat): nat
    requires rate > 0
  {
    frames * 16_000 / rate
  }

  /** Every output frame's position lies before the end of the source. */
  lemma PositionInside(frame: nat, frames: nat, rate: nat)
    requires rate > 0 && frame < OutputFrames(frames, rate)
    ensures Scaled(frame, rate) < 16_000 * frames && Scaled(frame, rate) / 16_000 < frames
  {
    var total := OutputFrames(frames, rate);
    assert total * rate <= frames * 16_000;
    ScaledIsProduct(total, rate);
    ScaledGrows(frame + 1, total, rate);
  }

  function Center(frame: nat, rate: nat): nat { Scaled(frame, rate) / 16_000 }

  function First(frame: nat, rate: nat): nat { if Center(frame, rate) >= 63 then Center(frame, rate) - 63 else 0 }

  function Last(frame: nat, rate: nat, frames: nat): nat
    requires frames > 0
  {
    Min(Center(frame, rate) + 64, frames - 1)
  }

  /** The output has as many frames as whole 16 kHz periods fit into the source. */
  lemma OutputIsAsLong(frames: nat, rate: nat)
    requires rate > 0
    ensures var n := OutputFrames(frames, rate); n * rate <= frames * 16_000 < (n + 1) * rate
  {
    var product := frames * 16_000;
    assert product == product / rate * rate + product % rate;
    assert (product / rate + 1) * rate == product / rate * rate + rate;
  }

  /** Where output frame `frame` lies in the source, in source frames. */
  function SourcePosition(frame: nat, rate: nat): real { (frame * rate) as real / 16_000.0 }

  /** The window of an output frame holds exactly the source frames less than 64 before its position or at most 64
      after it. */
  lemma WindowIsNear(frame: nat, rate: nat, frames: nat, k: nat)
    requires rate > 0 && frame < OutputFrames(frames, rate)
    ensures frames > 0
    ensures First(frame, rate) <= k <= Last(frame, rate, frames) <==>
              k < frames && SourcePosition(frame, rate) - 64.0 < k as real <= SourcePosition(frame, rate) + 64.0
  {
    PositionInside(frame, frames, rate);
    ScaledIsProduct(frame, rate);
    NearCenter(frame * rate, k);
  }

  lemma NearCenter(scaled: nat, k: nat)
    ensures k >= scaled / 16_000 - 63 <==> scaled as real / 16_000.0 - 64.0 < k as real
    ensures k <= scaled / 16_000 + 64 <==> k as real <= scaled as real / 16_000.0 + 64.0
  {
    assert scaled == scaled / 16_000 * 16_000 + scaled % 16_000;
  }

  lemma WindowsAdvance(frame: nat, rate: nat, frames: nat)
    requires frames > 0
    ensures First(frame, rate) <= First(frame + 1, rate)
    ensures Last(frame, rate, frames) <= Last(frame + 1, rate, frames)
  {
  }

  /** The weight of source frame `k` in an output frame. */
  function Weight(coefficient: (real, real) -> real, cutoff: real, frame: nat, rate: nat): nat -> real {
    (k: nat) => coefficient(cutoff, Scaled(frame, rate) as real / 16_000.0 - k as real)
  }

  /** It depends on the distance of the source frame from the position, fraction included. */
  lemma WeightIsOfDistance(coefficient: (real, real) -> real, cutoff: real, frame: nat, rate: nat, k: nat)
    ensures Weight(coefficient, cutoff, frame, rate)(k)
              == coefficient(cutoff, SourcePosition(frame, rate) - k as real)
  {
    ScaledIsProduct(frame, rate);
  }

  // ---------------------------------------------------------------- the direct form

  function WindowSum(tone: nat -> real, weight: nat -> real, first: nat, end: nat): real {
    if end <= first then 0.0 else WindowSum(tone, weight, first, end - 1) + tone(end - 1) * weight(end - 1)
  }

  function WindowNorm(weight: nat -> real, first: nat, end: nat): real {
    if end <= first then 0.0 else WindowNorm(weight, first, end - 1) + weight(end - 1)
  }

  /** Division as the hardware does it, as far as clamping and rounding can tell. */
  function Quotient(sum: real, norm: real): real {
    if norm != 0.0 then sum / norm else if sum == 0.0 then 0.0 else if sum > 0.0 then 1.0 else -1.0
  }

  /** Over a norm that vanishes the sum saturates on its own side. */
  lemma QuotientMeans(sum: real, norm: real)
    ensures norm != 0.0 ==> Quotient(sum, norm) * norm == sum
    ensures norm == 0.0 && sum > 0.0 ==> Quantize(Quotient(sum, norm)) == 32_767
    ensures norm == 0.0 && sum < 0.0 ==> Quantize(Quotient(sum, norm)) == -32_768
    ensures norm == 0.0 && sum == 0.0 ==> Quantize(Quotient(sum, norm)) == 0
  {
  }

  /** Round half away from zero. */
  function Round(x: real): int { if x >= 0.0 then (x + 0.5).Floor else -((-x + 0.5).Floor) }

  function Quantize(value: real): (sample: int)
    ensures -32_768 <= sample <= 32_767
  {
    var scaled := Round(MaxReal(-1.0, MinReal(value, 1.0)) * 32_768.0);
    if scaled < -32_768 then -32_768 else if scaled > 32_767 then 32_767 else scaled
  }

  /** PCM16 values survive the trip to `real` and back, so a 16 kHz PCM16 mono file is copied unchanged. */
  lemma QuantizeInverts(sample: int)
    requires -32_768 <= sample <= 32_767
    ensures Quantize(sample as real / 32_768.0) == sample
  {
    assert sample as real / 32_768.0 * 32_768.0 == sample as real;
  }

  /** Louder stays louder: clamping and rounding keep the order. */
  lemma QuantizeIsMonotone(a: real, b: real)
    requires a <= b
    ensures Quantize(a) <= Quantize(b)
  {
    RoundIsMonotone(MaxReal(-1.0, MinReal(a, 1.0)) * 32_768.0, MaxReal(-1.0, MinReal(b, 1.0)) * 32_768.0);
  }

  lemma RoundIsMonotone(x: real, y: real)
    requires x <= y
    ensures Round(x) <= Round(y)
  {
  }

  /** Inside the range of PCM16 the nearest value is chosen, halves away from zero; beyond it the sample saturates. */
  lemma QuantizeIsNearest(x: real)
    ensures x >= 32_767.5 / 32_768.0 ==> Quantize(x) == 32_767
    ensures x <= -1.0 ==> Quantize(x) == -32_768
    ensures 0.0 <= x < 32_767.5 / 32_768.0 ==> Quantize(x) as real - 0.5 <= 32_768.0 * x < Quantize(x) as real + 0.5
    ensures -1.0 <= x < 0.0 ==> Quantize(x) as real - 0.5 < 32_768.0 * x <= Quantize(x) as real + 0.5
  {
  }

  /** One source frame of level 1 among silence is heard with its own weight inside the window, and else not at all. */
  lemma {:induction false} ImpulseSum(tone: nat -> real, weight: nat -> real, at: nat, first: nat, end: nat)
    requires forall k: nat :: tone(k) == if k == at then 1.0 else 0.0
    ensures WindowSum(tone, weight, first, end) == if first <= at < end then weight(at) else 0.0
  {
    if first < end {
      ImpulseSum(tone, weight, at, first, end - 1);
    }
  }

  lemma {:induction false} SumsAdd(a: nat -> real, b: nat -> real, both: nat -> real, weight: nat -> real, first: nat,
                                   end: nat)
    requires forall k: nat :: both(k) == a(k) + b(k)
    ensures WindowSum(both, weight, first, end) == WindowSum(a, weight, first, end) + WindowSum(b, weight, first, end)
  {
    if first < end {
      SumsAdd(a, b, both, weight, first, end - 1);
      Spread(a(end - 1), b(end - 1), weight(end - 1));
    }
  }

  lemma Spread(a: real, b: real, c: real)
    ensures (a + b) * c == a * c + b * c
  {
  }

  lemma {:induction false} SumsScale(a: nat -> real, level: real, louder: nat -> real, weight: nat -> real, first: nat,
                                     end: nat)
    requires forall k: nat :: louder(k) == level * a(k)
    ensures WindowSum(louder, weight, first, end) == level * WindowSum(a, weight, first, end)
  {
    if first < end {
      SumsScale(a, level, louder, weight, first, end - 1);
      Regroup(level, WindowSum(a, weight, first, end - 1), a(end - 1), weight(end - 1));
    }
  }

  lemma Regroup(level: real, sum: real, a: real, c: real)
    ensures level * sum + level * a * c == level * (sum + a * c)
  {
  }

  lemma {:induction false} NormIsOfOnes(weight: nat -> real, first: nat, end: nat)
    ensures WindowNorm(weight, first, end) == WindowSum((k: nat) => 1.0, weight, first, end)
  {
    if first < end {
      NormIsOfOnes(weight, first, end - 1);
    }
  }

  lemma {:induction false} ConstantSum(tone: nat -> real, weight: nat -> real, c: real, first: nat, end: nat)
    requires forall k: nat | first <= k < end :: tone(k) == c
    ensures WindowSum(tone, weight, first, end) == c * WindowNorm(weight, first, end)
  {
    if first < end {
      ConstantSum(tone, weight, c, first, end - 1);
      assert c * (WindowNorm(weight, first, end - 1) + weight(end - 1)) == c * WindowNorm(weight, first, end - 1)
          + c * weight(end - 1);
    }
  }

  /** The window is normalised: a constant source keeps its level, at the edges of the file too. */
  lemma ConstantStaysConstant(tone: nat -> real, weight: nat -> real, c: real, first: nat, end: nat)
    requires forall k: nat | first <= k < end :: tone(k) == c
    requires WindowNorm(weight, first, end) != 0.0
    ensures Quotient(WindowSum(tone, weight, first, end), WindowNorm(weight, first, end)) == c
  {
    ConstantSum(tone, weight, c, first, end);
    Cancels(c, WindowNorm(weight, first, end));
  }

  lemma Cancels(c: real, norm: real)
    requires norm != 0.0
    ensures c * norm / norm == c
  {
  }

  /** The output sample computed over the whole source array at once. */
  function Direct(tone: nat -> real, coefficient: (real, real) -> real, cutoff: real, frame: nat, rate: nat,
                  frames: nat): int
    requires frames > 0
  {
    if rate == 16_000 then Quantize(tone(frame))
    else
      var weight := Weight(coefficient, cutoff, frame, rate);
      var first, end := First(frame, rate), Last(frame, rate, frames) + 1;
      Quantize(Quotient(WindowSum(tone, weight, first, end), WindowNorm(weight, first, end)))
  }

  /** At 16 kHz a PCM16 mono file is copied value by value. */
  lemma NativeRateIsCopied(input: seq<Item>, coefficient: (real, real) -> real, cutoff: real, frames: nat, frame: nat,
                           pcm: int)
    requires frames > 0 && -32_768 <= pcm <= 32_767 && frame < |input|
    requires input[frame] == Sample(pcm as real / 32_768.0)
    ensures Samples(Tone(input, 1), coefficient, cutoff, 16_000, frames)(frame) == pcm
  {
    QuantizeInverts(pcm);
  }

  /** At any other rate an impulse of the source at frame `at` comes out where its window reaches, shaped by the window
      coefficient of the distance. */
  lemma ImpulseResponse(tone: nat -> real, coefficient: (real, real) -> real, cutoff: real, frame: nat, rate: nat,
                        frames: nat, at: nat)
    requires rate > 0 && rate != 16_000 && frame < OutputFrames(frames, rate)
    requires forall k: nat :: tone(k) == if k == at then 1.0 else 0.0
    ensures frames > 0
    ensures var position, weight := SourcePosition(frame, rate), Weight(coefficient, cutoff, frame, rate);
            var norm := WindowNorm(weight, First(frame, rate), Last(frame, rate, frames) + 1);
            Samples(tone, coefficient, cutoff, rate, frames)(frame)
              == Quantize(Quotient(if at < frames && position - 64.0 < at as real <= position + 64.0
                                   then coefficient(cutoff, position - at as real) else 0.0, norm))
  {
    PositionInside(frame, frames, rate);
    WindowIsNear(frame, rate, frames, at);
    WeightIsOfDistance(coefficient, cutoff, frame, rate, at);
    ImpulseSum(tone, Weight(coefficient, cutoff, frame, rate), at, First(frame, rate), Last(frame, rate, frames) + 1);
  }

  // ---------------------------------------------------------------- PCM16 bytes

  function LowByte(sample: int): int { sample % 256 }

  function HighByte(sample: int): int { sample / 256 % 256 }

  /** `i16::from_le_bytes`, as the session bridge reads the samples back. */
  function FromBytes(low: int, high: int): int {
    var word := low + 256 * high;
    if word >= 32_768 then word - 65_536 else word
  }

  lemma BytesRoundTrip(sample: int)
    requires -32_768 <= sample <= 32_767
    ensures 0 <= LowByte(sample) < 256 && 0 <= HighByte(sample) < 256
    ensures FromBytes(LowByte(sample), HighByte(sample)) == sample
  {
  }

  /** The bytes hold exactly these samples, in order. */
  ghost predicate Encodes(bytes: seq<int>, n: nat, samples: nat -> int) {
    |bytes| == 2 * n && forall i: nat | i < n :: bytes[2 * i] == LowByte(samples(i))
                          && bytes[2 * i + 1] == HighByte(samples(i))
  }

  /** Little-endian: the low byte comes first, and the two together are the sample modulo 2^16. */
  lemma EncodesLittleEndian(bytes: seq<int>, n: nat, samples: nat -> int, i: nat)
    requires Encodes(bytes, n, samples) && i < n
    ensures 0 <= bytes[2 * i] < 256 && 0 <= bytes[2 * i + 1] < 256
    ensures bytes[2 * i] + 256 * bytes[2 * i + 1] == samples(i) % 65_536
  {
    var s := samples(i);
    assert bytes[2 * i] == LowByte(s) && bytes[2 * i + 1] == HighByte(s);
  }

  lemma EncodesMore(bytes: seq<int>, n: nat, samples: nat -> int)
    requires Encodes(bytes, n, samples)
    ensures Encodes(bytes + [LowByte(samples(n)), HighByte(samples(n))], n + 1, samples)
  {
    var more := bytes + [LowByte(samples(n)), HighByte(samples(n))];
    forall i: nat | i < n + 1
      ensures more[2 * i] == LowByte(samples(i)) && more[2 * i + 1] == HighByte(samples(i))
    {
      if i < n {
        assert more[2 * i] == bytes[2 * i] && more[2 * i + 1] == bytes[2 * i + 1];
      }
    }
  }

  // ---------------------------------------------------------------- the streaming form

  /** The ring holds source frames [base, read). */
  predicate Holds(ring: seq<real>, base: nat, read: nat, tone: nat -> real) {
    base + |ring| == read && forall j: nat | j < |ring| :: ring[j] == tone(base + j)
  }

  /** Moves the window so that it holds exactly the source frames [first, last]; frames skipped over are read and
      dropped. */
  method Advance(reader: Reader, ring: seq<real>, base: nat, read: nat, first: nat, last: nat)
    returns (r: Option<(seq<real>, nat, nat)>)
    requires 1 <= reader.channels <= 2 && reader.position == FrameStart(reader.channels, read)
    requires Holds(ring, base, read, Tone(reader.input, reader.channels))
              && Decodes(reader.input, reader.channels, read)
    requires base <= first <= last && read <= last + 1
    modifies reader`position
    ensures r.Some? <==> Decodes(reader.input, reader.channels, last + 1)
    ensures r.Some? ==>
              var (ring', base', read') := r.value;
              && base' == first && read' == last + 1 && reader.position == FrameStart(reader.channels, read')
              && Holds(ring', base', read', Tone(reader.input, reader.channels))
  {
    var ring': seq<real>, base': nat, read': nat := ring, base, read;
    ghost var tone := Tone(reader.input, reader.channels);
    while base' < first && |ring'| > 0
      invariant base' <= first && Holds(ring', base', read', tone)
      invariant |ring'| <= |ring|
      decreases |ring'|
    {
      assert forall j: nat | j < |ring'| - 1 :: ring'[1..][j] == ring'[j + 1] == tone(base' + 1 + j);
      ring' := ring'[1..];
      base' := base' + 1;
    }
    while read' <= last
      invariant read' <= last + 1 && reader.position == FrameStart(reader.channels, read')
      invariant Holds(ring', base', read', tone) && Decodes(reader.input, reader.channels, read')
      invariant base' <= first && (base' < first ==> |ring'| == 0)
      decreases last + 1 - read'
    {
      var value := reader.Mono(read');
      if value.None? {
        return None;
      }
      if read' >= first {
        ring' := ring' + [value.value];
      } else {
        base' := read' + 1;
      }
      read' := read' + 1;
    }
    return Some((ring', base', read'));
  }

  /** The windowed sum over the ring is the sum over the whole source: every access is inside the ring. */
  method Convolve(ring: seq<real>, base: nat, first: nat, last: nat, weight: nat -> real, ghost tone: nat -> real)
      returns (value: real)
    requires base == first <= last && Holds(ring, base, last + 1, tone)
    ensures value == Quotient(WindowSum(tone, weight, first, last + 1), WindowNorm(weight, first, last + 1))
  {
    var sum, norm := 0.0, 0.0;
    for source := first to last + 1
      invariant sum == WindowSum(tone, weight, first, source) && norm == WindowNorm(weight, first, source)
    {
      assert ring[source - base] == tone(base + (source - base));
      sum := sum + ring[source - base] * weight(source);
      norm := norm + weight(source);
    }
    value := Quotient(sum, norm);
  }

  /** Reads what is left of the source, so that a malformed tail is an error too. */
  method Drain(reader: Reader, from: nat, frames: nat) returns (ok: bool)
    requires 1 <= reader.channels <= 2 && reader.position == FrameStart(reader.channels, from)
    requires Decodes(reader.input, reader.channels, from)
    modifies reader`position
    ensures ok <==> Decodes(reader.input, reader.channels, Max(from, frames))
    ensures ok ==> reader.position == FrameStart(reader.channels, Max(from, frames))
  {
    var read := from;
    while read < frames
      invariant from <= read <= Max(from, frames) && reader.position == FrameStart(reader.channels, read)
      invariant Decodes(reader.input, reader.channels, read)
    {
      var value := reader.Mono(read);
      if value.None? {
        return false;
      }
      read := read + 1;
    }
    return true;
  }

  function Max(a: nat, b: nat): nat { if a >= b then a else b }

  function Samples(tone: nat -> real, coefficient: (real, real) -> real, cutoff: real, rate: nat,
                   frames: nat): nat -> int
    requires frames > 0
  {
    (frame: nat) => Direct(tone, coefficient, cutoff, frame, rate, frames)
  }

  /** The conversion loop for any rate: succeeds exactly when all `frames` source frames decode, has then consumed
      exactly those, and yields the direct form sample by sample. */
  method Convert(reader: Reader, rate: nat, frames: nat, coefficient: (real, real) -> real, cutoff: real)
      returns (r: Option<seq<int>>)
    requires 1 <= reader.channels <= 2 && reader.position == 0 && rate > 0 && frames > 0
    modifies reader`position
    ensures r.Some? <==> Decodes(reader.input, reader.channels, frames)
    ensures r.Some? ==> reader.position == FrameStart(reader.channels, frames)
    ensures r.Some? ==>
              Encodes(r.value, OutputFrames(frames, rate),
                      Samples(Tone(reader.input, reader.channels), coefficient, cutoff, rate, frames))
  {
    var outputFrames := OutputFrames(frames, rate);
    ghost var tone := Tone(reader.input, reader.channels);
    ghost var samples := Samples(tone, coefficient, cutoff, rate, frames);
    var output: seq<int> := [];
    var ring: seq<real>, base: nat, read: nat := [], 0, 0;
    for frame := 0 to outputFrames
      invariant Encodes(output, frame, samples)
      invariant rate == 16_000 ==>
                reader.position == FrameStart(reader.channels, frame) && Decodes(reader.input, reader.channels, frame)
      invariant rate != 16_000 ==>
                reader.position == FrameStart(reader.channels, read) && Decodes(reader.input, reader.channels, read)
      invariant rate != 16_000 ==>
                Holds(ring, base, read, tone) && base <= First(frame, rate) && read <= Last(frame, rate, frames) + 1
      invariant |ring| <= WINDOW_LIMIT
    {
      PositionInside(frame, frames, rate);
      var value: real;
      if rate == 16_000 {
        ScaledIsProduct(frame, rate);
        var mono := reader.Mono(frame);
        if mono.None? {
          return None;
        }
        value := mono.value;
      } else {
        var first, last := First(frame, rate), Last(frame, rate, frames);
        var moved := Advance(reader, ring, base, read, first, last);
        if moved.None? {
          return None;
        }
        ring, base, read := moved.value.0, moved.value.1, moved.value.2;
        value := Convolve(ring, base, first, last, Weight(coefficient, cutoff, frame, rate), tone);
        WindowsAdvance(frame, rate, frames);
      }
      var sample := Quantize(value);
      assert sample == samples(frame);
      EncodesMore(output, frame, samples);
      output := output + [LowByte(sample), HighByte(sample)];
    }
    if rate == 16_000 {
      read := outputFrames;
    }
    var ok := Drain(reader, read, frames);
    if !ok {
      return None;
    }
    return Some(output);
  }

  /** The low pass lets 94 percent of the narrower of the two bands through. */
  function Cutoff(rate: nat): real
    requires rate > 0
  {
    MinReal(16_000.0 / rate as real, 1.0) * 0.94
  }

  lemma CutoffKeepsTheBand(rate: nat)
    requires rate > 0
    ensures rate <= 16_000 ==> Cutoff(rate) == 0.94
    ensures rate >= 16_000 ==> Cutoff(rate) * rate as real == 0.94 * 16_000.0
  {
    var r := rate as real;
    assert 16_000.0 / r * r == 16_000.0;
    Scales(16_000.0 / r, r);
    Scales(1.0, r);
    if rate >= 16_000 {
      assert 16_000.0 / r <= 1.0;
      Regroup(0.94, 0.0, 16_000.0 / r, r);
    }
  }

  lemma Scales(a: real, b: real)
    ensures b > 0.0 && a * b <= b ==> a <= 1.0
    ensures b > 0.0 && a * b >= b ==> a >= 1.0
  {
  }

  predicate Acceptable(spec: Spec) {
    && 1 <= spec.channels <= 2 && 8_000 <= spec.rate <= 192_000 && spec.frames > 0
    && spec.frames <= 600 * spec.rate
    && spec.samples % spec.channels == 0
    && spec.supported
  }

  /** `load`, given the decoded samples of the file. */
  method Load(spec: Spec, input: seq<Item>, coefficient: (real, real) -> real)
      returns (r: Result<seq<int>, WavError>)
    ensures r.Ok? <==> Acceptable(spec) && Decodes(input, spec.channels, spec.frames)
    ensures r == Err(BadInput) <==> Acceptable(spec) && !Decodes(input, spec.channels, spec.frames)
    ensures r.Ok? ==>
              Encodes(r.value, OutputFrames(spec.frames, spec.rate),
                      Samples(Tone(input, spec.channels), coefficient, Cutoff(spec.rate), spec.rate, spec.frames))
  {
    if !(1 <= spec.channels <= 2) || !(8_000 <= spec.rate <= 192_000) || spec.frames == 0
        || spec.frames > 600 * spec.rate {
      return Err(BadSpec);
    }
    if spec.samples % spec.channels != 0 {
      return Err(IncompleteFrame);
    }
    if !spec.supported {
      return Err(UnsupportedFormat);
    }
    var reader := new Reader(input, spec.channels);
    var converted := Convert(reader, spec.rate, spec.frames, coefficient, Cutoff(spec.rate));
    if converted.None? {
      return Err(BadInput);
    }
    return Ok(converted.value);
  }
}
