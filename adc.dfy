/** `PlantMonitorSystem.get_adc_with_channel` of pms.py: one single-ended read
    of an MCP3008 analog-to-digital converter over SPI, turned into an inverted
    percentage. The SPI transfer itself is hardware; here the converter's reply
    is a parameter and the result records which request frame, if any, was sent. */
module Adc {
  import opened Wrappers

  /** One byte on the SPI bus. Shifts and masks of the source act on
      non-negative Python integers, so `x << k` is `x * 2^k` and `x & 3` is `x % 4`. */
  newtype Byte = x: int | 0 <= x < 256

  /** A three-byte SPI transfer, in either direction. */
  datatype Frame = Frame(b0: Byte, b1: Byte, b2: Byte)

  /** What one call observably does: the frame put on the bus (None when no
      transfer is issued) and the returned percentage (None for Python's None). */
  datatype AdcRead = AdcRead(sent: Option<Frame>, percent: Option<int>)

  /** The converter has eight single-ended inputs, numbered 0 to 7. */
  predicate ValidChannel(channel: int) {
    0 <= channel <= 7
  }

  /** The request `[1, (8 + channel) << 4, 0]`: a start bit, then the
      single-ended flag and the channel number in the high nibble. */
  function RequestFrame(channel: int): (f: Frame)
    requires ValidChannel(channel)
    ensures f.b0 == 1 && f.b2 == 0
    ensures 128 <= f.b1 <= 240 && f.b1 % 16 == 0
    ensures ChannelOf(f) == channel
  {
    Frame(1, ((8 + channel) * 16) as Byte, 0)
  }

  /** The channel a request frame selects, read back from its second byte. */
  function ChannelOf(f: Frame): int {
    f.b1 as int / 16 - 8
  }

  /** The 10-bit sample in a reply, `((adc[1] & 3) << 8) + adc[2]`. */
  function RawSample(reply: Frame): (raw: int)
    ensures 0 <= raw <= 1023
    ensures raw / 256 == reply.b1 as int % 4 && raw % 256 == reply.b2 as int
  {
    (reply.b1 as int % 4) * 256 + reply.b2 as int
  }

  /** A reply that carries the given sample, with every unused bit clear. */
  function ReplyOf(raw: int): Frame
    requires 0 <= raw <= 1023
  {
    Frame(0, (raw / 256) as Byte, (raw % 256) as Byte)
  }

  /** Two replies give the same sample exactly when they agree on the low two
      bits of byte 1 and on all of byte 2: byte 0 and the high six bits of
      byte 1 are ignored. */
  lemma RawSampleDependsOnLowBits(f: Frame, g: Frame)
    ensures RawSample(f) == RawSample(g) <==> (f.b1 % 4 == g.b1 % 4 && f.b2 == g.b2)
  {
  }

  /** Every sample 0..1023 is carried by some reply, and ReplyOf undoes RawSample
      up to the bits RawSample ignores. */
  lemma RawSampleRoundTrip(raw: int, f: Frame)
    requires 0 <= raw <= 1023
    ensures RawSample(ReplyOf(raw)) == raw
    ensures ReplyOf(RawSample(f)) == Frame(0, f.b1 % 4, f.b2)
  {
  }

  /** Python 3's `round` on the exact quotient n / d: the nearest integer, and
      on a tie the even one. */
  function RoundHalfEven(n: int, d: int): (q: int)
    requires d > 0
    ensures 2 * Dist(n, q * d) <= d
    ensures 2 * Dist(n, q * d) == d ==> q % 2 == 0
  {
    var base, rem := n / d, n % d;
    assert n == base * d + rem;
    assert (base + 1) * d == base * d + d;
    if 2 * rem < d then base
    else if 2 * rem > d then base + 1
    else if base % 2 == 0 then base
    else base + 1
  }

  function Dist(a: int, b: int): nat {
    if a < b then b - a else a - b
  }

  /** Only one integer is nearest to n / d with ties broken to even, so the two
      postconditions of RoundHalfEven pin its result down. */
  lemma RoundHalfEvenUnique(n: int, d: int, q: int)
    requires d > 0
    requires 2 * Dist(n, q * d) <= d
    requires 2 * Dist(n, q * d) == d ==> q % 2 == 0
    ensures q == RoundHalfEven(n, d)
  {
    var p := RoundHalfEven(n, d);
    if q < p {
      NearestOrder(n, n, d, p, q);
    } else if p < q {
      NearestOrder(n, n, d, q, p);
    }
  }

  /** If q1 * d is within d / 2 of n1 and q2 * d within d / 2 of a larger or
      equal n2, with q2 < q1, then everything sits on one tie: n1 == n2 lies
      half-way between q2 * d and q1 * d == q2 * d + d. */
  lemma NearestOrder(n1: int, n2: int, d: int, q1: int, q2: int)
    requires d > 0 && n1 <= n2 && q2 < q1
    requires 2 * Dist(n1, q1 * d) <= d
    requires 2 * Dist(n2, q2 * d) <= d
    ensures n1 == n2 && q1 == q2 + 1
    ensures 2 * Dist(n1, q1 * d) == d && 2 * Dist(n2, q2 * d) == d
  {
    var a, b := q1 * d, q2 * d;
    assert b + d <= a by {
      MulMonotone(q2 + 1, q1, d);
      assert (q2 + 1) * d == b + d;
    }
    assert a == b + d;
    assert (q1 - q2 - 1) * d == a - b - d;
    MulZero(q1 - q2 - 1, d);
  }

  lemma MulMonotone(a: int, b: int, d: int)
    requires a <= b && d > 0
    ensures a * d <= b * d
  {
  }

  lemma MulZero(x: int, d: int)
    requires d > 0 && x * d == 0
    ensures x == 0
  {
  }

  /** Rounding a larger quotient never gives a smaller integer. */
  lemma RoundHalfEvenMonotone(n1: int, n2: int, d: int)
    requires d > 0 && n1 <= n2
    ensures RoundHalfEven(n1, d) <= RoundHalfEven(n2, d)
  {
    var q1, q2 := RoundHalfEven(n1, d), RoundHalfEven(n2, d);
    if q1 > q2 {
      NearestOrder(n1, n2, d, q1, q2);
    }
  }

  /** The inverted percentage `100 - round(raw / 10.24)`, computed on the exact
      rational raw / 10.24 == raw * 25 / 256. */
  function Percent(raw: int): (p: int)
    ensures 0 <= raw <= 1023 ==> 0 <= p <= 100
    ensures 2 * Dist(raw * 25, (100 - p) * 256) <= 256
  {
    100 - RoundHalfEven(raw * 25, 256)
  }

  /** A larger raw sample never yields a larger percentage. */
  lemma PercentAntitone(raw1: int, raw2: int)
    requires raw1 <= raw2
    ensures Percent(raw2) <= Percent(raw1)
  {
    RoundHalfEvenMonotone(raw1 * 25, raw2 * 25, 256);
  }

  /** The extremes of the scale, and the only four samples at which the
      quotient falls exactly half-way, each rounded to the even neighbour. */
  lemma PercentValues()
    ensures Percent(0) == 100 && Percent(1023) == 0
    ensures Percent(128) == 88 && Percent(384) == 62
    ensures Percent(640) == 38 && Percent(896) == 12
  {
  }

  /** raw / 10.24 lies exactly half-way between two integers for the samples
      128, 384, 640 and 896 and no other sample. */
  lemma PercentTies(raw: int)
    requires 0 <= raw <= 1023
    ensures 2 * (raw * 25 % 256) == 256 <==> raw % 256 == 128
  {
    var k, m := raw / 256, raw % 256;
    assert raw * 25 == 256 * (25 * k) + 25 * m;
    ModMultiple(25 * k, 25 * m);
    TieResidue(m);
  }

  lemma ModMultiple(a: int, b: int)
    ensures (256 * a + b) % 256 == b % 256
  {
    var q, r := b / 256, b % 256;
    assert 256 * a + b == 256 * (a + q) + r;
  }

  /** 25 * m is 128 more than a multiple of 256 only for m == 128, because
      41 * 25 == 4 * 256 + 1 undoes the multiplication by 25. */
  lemma TieResidue(m: int)
    requires 0 <= m < 256
    ensures 25 * m % 256 == 128 <==> m == 128
  {
    if 25 * m % 256 == 128 {
      var t := 25 * m / 256;
      assert 25 * m == 256 * t + 128;
      assert 1025 * m == 256 * (41 * t) + 5248;
      assert m == 256 * (41 * t + 20 - 4 * m) + 128;
    }
  }

  /** `get_adc_with_channel(channel)` with the converter answering `reply`. */
  function GetAdcWithChannel(channel: int, reply: Frame): (r: AdcRead)
    ensures r.sent.None? <==> !ValidChannel(channel)
    ensures r.percent.None? <==> r.sent.None?
    ensures r.sent.Some? ==> ValidChannel(channel) && r.sent.value == RequestFrame(channel)
    ensures r.percent.Some? ==> 0 <= r.percent.value <= 100
    ensures r.percent.Some? ==> 2 * Dist(RawSample(reply) * 25, (100 - r.percent.value) * 256) <= 256
  {
    if channel > 7 || channel < 0 then
      AdcRead(None, None)
    else
      var frame := RequestFrame(channel);
      var data := RawSample(reply);
      AdcRead(Some(frame), Some(Percent(data)))
  }

  /** For a valid channel the result is 100 minus the rounded quotient of the
      sample by 10.24, ties to even; a reply with more of the low ten bits set
      never reads as a larger percentage. */
  lemma GetAdcWithChannelRounds(channel: int, reply: Frame, other: Frame)
    requires ValidChannel(channel)
    ensures GetAdcWithChannel(channel, reply).percent == Some(100 - RoundHalfEven(RawSample(reply) * 25, 256))
    ensures RawSample(reply) <= RawSample(other) ==>
      GetAdcWithChannel(channel, other).percent.value <= GetAdcWithChannel(channel, reply).percent.value
  {
    if RawSample(reply) <= RawSample(other) {
      PercentAntitone(RawSample(reply), RawSample(other));
    }
  }
}
