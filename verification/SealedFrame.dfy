/**
Sealed frames: a 32-bit length, the content, and zeros up to the one legal
padded length.
*/
module SealedFrame {
  import opened Json
  import opened Documents

  type Byte = x: int | 0 <= x < 256

  const HEADER := 4
  const ALIGNED_LIMIT := 16 * 1024
  const ALIGNMENT := 256
  const MAX_CONTENT := 0xffff_ffff

  // ---------------------------------------------------------------------
  // Powers of two
  // ---------------------------------------------------------------------

  function Pow2(k: nat): nat
  {
    if k == 0 then 1 else 2 * Pow2(k - 1)
  }

  function Log2(n: nat): nat
    requires n >= 1
  {
    if n < 2 then 0 else 1 + Log2(n / 2)
  }

  method FloorLog2(value: nat) returns (exponent: nat)
    requires value >= 1
    ensures exponent == Log2(value)
  {
    exponent := 0;
    var remaining := value;
    while remaining >= 2
      invariant remaining >= 1 && exponent + Log2(remaining) == Log2(value)
    {
      remaining := remaining / 2;
      exponent := exponent + 1;
    }
  }

  lemma {:induction false} Log2Bounds(n: nat)
    requires n >= 1
    ensures Pow2(Log2(n)) <= n < 2 * Pow2(Log2(n))
  {
    if n >= 2 { Log2Bounds(n / 2); }
  }

  lemma {:induction false} Pow2Positive(k: nat)
    ensures Pow2(k) >= 1
  {
    if k > 0 { Pow2Positive(k - 1); }
  }

  lemma {:induction false} Pow2Monotone(j: nat, k: nat)
    requires j <= k
    ensures Pow2(j) <= Pow2(k)
  {
    if j < k { Pow2Monotone(j, k - 1); Pow2Positive(k - 1); }
  }

  lemma {:induction false} Pow2Splits(j: nat, k: nat)
    ensures Pow2(j + k) == Pow2(j) * Pow2(k)
  {
    if k > 0 {
      Pow2Splits(j, k - 1);
      calc {
        Pow2(j + k);
        2 * Pow2(j + (k - 1));
        2 * (Pow2(j) * Pow2(k - 1));
        Pow2(j) * (2 * Pow2(k - 1));
      }
    }
  }

  lemma Pow2Reflects(j: nat, k: nat)
    ensures Pow2(j) < Pow2(k) ==> j < k
  {
    if k <= j { Pow2Monotone(k, j); }
  }

  /** The exponent is the only one with its bounds. */
  lemma Log2Unique(n: nat, k: nat)
    requires n >= 1 && Pow2(k) <= n < 2 * Pow2(k)
    ensures Log2(n) == k
  {
    Log2Bounds(n);
    Pow2Reflects(k, Log2(n) + 1);
    Pow2Reflects(Log2(n), k + 1);
  }

  lemma Log2Monotone(n: nat, m: nat)
    requires 1 <= n <= m
    ensures Log2(n) <= Log2(m)
  {
    Log2Bounds(n);
    Log2Bounds(m);
    Pow2Reflects(Log2(n), Log2(m) + 1);
  }

  // ---------------------------------------------------------------------
  // Rounding up
  // ---------------------------------------------------------------------

  function CeilTo(n: nat, step: nat): nat
    requires step >= 1
  {
    (n + step - 1) / step * step
  }

  lemma CeilBounds(n: nat, step: nat)
    requires step >= 1
    ensures n <= CeilTo(n, step) < n + step
    ensures CeilTo(n, step) == step * ((n + step - 1) / step)
  {
    var q := (n + step - 1) / step;
    assert q * step + (n + step - 1) % step == n + step - 1;
  }

  lemma TimesReflects(step: nat, a: nat, b: nat)
    ensures step * a < step * b ==> a < b
  {
    if b <= a { assert step * a == step * b + step * (a - b); }
  }

  /** Rounding up is the least multiple that is large enough. */
  lemma CeilLeast(n: nat, step: nat, q: nat)
    requires step >= 1 && n <= step * q
    ensures CeilTo(n, step) <= step * q
  {
    CeilBounds(n, step);
    LeastMultiple(step, (n + step - 1) / step, q, CeilTo(n, step));
  }

  lemma LeastMultiple(step: nat, c: nat, q: nat, x: nat)
    requires x == step * c < step * q + step
    ensures x <= step * q
  {
    assert step * (q + 1) == step * q + step;
    TimesReflects(step, c, q + 1);
    TimesMonotone(step, c, q);
  }

  lemma TimesMonotone(step: nat, a: nat, b: nat)
    requires a <= b
    ensures step * a <= step * b
  {
    assert step * b == step * a + step * (b - a);
  }

  lemma CeilFixed(q: nat, step: nat)
    requires step >= 1
    ensures CeilTo(step * q, step) == step * q
  {
    CeilBounds(step * q, step);
    CeilLeast(step * q, step, q);
  }

  lemma CeilMonotone(n: nat, m: nat, step: nat)
    requires step >= 1 && n <= m
    ensures CeilTo(n, step) <= CeilTo(m, step)
  {
    CeilBounds(m, step);
    CeilLeast(n, step, (m + step - 1) / step);
  }

  // ---------------------------------------------------------------------
  // The padded length
  // ---------------------------------------------------------------------

  /** Twice the bits of the exponent fit below it, so the step is a power of two. */
  lemma ExponentFits(e: nat)
    requires e >= 4
    ensures Log2(e) + 1 <= e
  {
    Log2Bounds(e);
    LinearBelowPow2(Log2(e));
  }

  lemma {:induction false} LinearBelowPow2(k: nat)
    ensures k + 1 <= Pow2(k)
  {
    if k > 0 { LinearBelowPow2(k - 1); }
  }

  function StepExponent(n: nat): (k: int)
    requires n > ALIGNED_LIMIT
  {
    Log2(n) - (Log2(LogOf(n)) + 1)
  }

  function LogOf(n: nat): (e: nat)
    requires n > ALIGNED_LIMIT
    ensures e == Log2(n) && e >= 1
  {
    assert n / 2 >= 1;
    Log2(n)
  }

  /** Above the limit the exponent is at least 14, and the step at most a sixteenth of its power. */
  lemma StepBounds(n: nat)
    requires n > ALIGNED_LIMIT
    ensures Log2(n) >= 14 && 0 <= StepExponent(n) <= Log2(n) - 4
  {
    Fourteen();
    Log2Monotone(ALIGNED_LIMIT, n);
    var e := Log2(n);
    ExponentFits(e);
    Three();
    Log2Monotone(8, e);
  }

  lemma Fourteen()
    ensures Log2(ALIGNED_LIMIT) == 14 && Pow2(14) == ALIGNED_LIMIT
  {
    assert Pow2(7) == 128;
    Pow2Splits(7, 7);
    Log2Unique(ALIGNED_LIMIT, 14);
  }

  lemma Three()
    ensures Log2(8) == 3
  {
    assert Pow2(3) == 8;
    Log2Unique(8, 3);
  }

  function Step(n: nat): (step: nat)
    ensures step >= 1
  {
    if n <= ALIGNED_LIMIT then ALIGNMENT
    else
      StepBounds(n);
      Pow2Positive(StepExponent(n));
      Pow2(StepExponent(n))
  }

  function Padded(n: nat): nat
  {
    CeilTo(n, Step(n))
  }

  function PaddedLength(n: int): Result<nat>
  {
    if n < HEADER || n > MAX_SAFE then Err else Ok(Padded(n))
  }

  /** `sealedPaddedLength`, with its two loops. */
  method SealedPaddedLength(n: int) returns (r: Result<nat>)
    ensures r == PaddedLength(n)
  {
    if n < HEADER || n > MAX_SAFE { return Err; }
    if n <= ALIGNED_LIMIT { return Ok(CeilTo(n, ALIGNMENT)); }
    StepBounds(n);
    var exponent := FloorLog2(n);
    var bits := FloorLog2(exponent);
    Pow2Positive(exponent - (bits + 1));
    return Ok(CeilTo(n, Pow2(exponent - (bits + 1))));
  }

  /** The least multiple of `step` that is at least `n`. */
  ghost predicate LeastMultipleFrom(p: nat, n: nat, step: nat)
  {
    && (exists c: nat :: p == step * c)
    && n <= p && forall q: nat :: n <= step * q ==> p <= step * q
  }

  lemma CeilIsLeast(n: nat, step: nat)
    requires step >= 1
    ensures LeastMultipleFrom(CeilTo(n, step), n, step)
  {
    CeilBounds(n, step);
    forall q: nat | n <= step * q
      ensures CeilTo(n, step) <= step * q
    {
      CeilLeast(n, step, q);
    }
  }

  /**
  The padded length, by its definition: up to the limit the next multiple of
  256; above it the next multiple of `2^(e - s)`, where `e` is the exponent of
  the highest power of two within the length and `s` the number of bits of `e`.
  */
  lemma PaddedIsExact(n: nat, e: nat, s: nat)
    ensures n <= 16384 ==> LeastMultipleFrom(Padded(n), n, 256)
    ensures n > 16384 && Pow2(e) <= n < Pow2(e + 1) && s >= 1 && Pow2(s - 1) <= e < Pow2(s) ==>
      s <= e && LeastMultipleFrom(Padded(n), n, Pow2(e - s))
  {
    hide CeilTo, LeastMultipleFrom;
    CeilIsLeast(n, Step(n));
    if n > 16384 && Pow2(e) <= n < Pow2(e + 1) && s >= 1 && Pow2(s - 1) <= e < Pow2(s) {
      Log2Unique(n, e);
      StepBounds(n);
      Log2Unique(e, s - 1);
    }
  }

  /** `isLegalPaddedLength`. */
  predicate IsLegal(p: int)
  {
    p <= MAX_SAFE && p >= ALIGNMENT && PaddedLength(p) == Ok(p)
  }

  /** The legal lengths are exactly the padded lengths of frames. */
  lemma LegalIsPadded(p: int)
    requires p <= MAX_SAFE
    ensures IsLegal(p) <==> exists n :: n >= HEADER && PaddedLength(n) == Ok(p)
  {
    hide Padded;
    if IsLegal(p) {
      assert PaddedLength(p) == Ok(p);
    } else if exists n :: n >= HEADER && PaddedLength(n) == Ok(p) {
      var n :| n >= HEADER && PaddedLength(n) == Ok(p);
      PaddedFits(n);
      PaddedIdempotent(n);
      AtLeastAligned(n);
    }
  }

  lemma AtLeastAligned(n: nat)
    requires n >= 1
    ensures Padded(n) >= ALIGNMENT
  {
    if n <= ALIGNED_LIMIT { CeilBounds(n, ALIGNMENT); } else { BelowNextPower(n); }
  }

  /** Above the limit, padding never passes the next power of two. */
  lemma BelowNextPower(n: nat)
    requires n > ALIGNED_LIMIT
    ensures n <= Padded(n) <= 2 * Pow2(Log2(n)) == Pow2(Log2(n) + 1)
  {
    hide CeilTo, Log2, StepExponent;
    StepBounds(n);
    Log2Bounds(n);
    var k, e := StepExponent(n), Log2(n);
    Pow2Splits(k, e + 1 - k);
    assert Pow2(e + 1) == Pow2(k) * Pow2(e + 1 - k);
    assert Step(n) == Pow2(k);
    CeilBounds(n, Step(n));
    CeilLeast(n, Step(n), Pow2(e + 1 - k));
  }

  lemma BelowLimit(n: nat)
    requires n <= ALIGNED_LIMIT
    ensures n <= Padded(n) <= ALIGNED_LIMIT && Padded(n) % ALIGNMENT == 0
  {
    CeilBounds(n, ALIGNMENT);
    CeilLeast(n, ALIGNMENT, 64);
  }

  /** Longer frames never get shorter paddings. */
  lemma PaddedMonotone(n: nat, m: nat)
    requires n <= m
    ensures Padded(n) <= Padded(m)
  {
    if n <= ALIGNED_LIMIT {
      BelowLimit(n);
      if m <= ALIGNED_LIMIT { CeilMonotone(n, m, ALIGNMENT); } else { BelowNextPower(m); }
    } else {
      BelowNextPower(n);
      BelowNextPower(m);
      Log2Monotone(n, m);
      if Log2(n) == Log2(m) {
        CeilMonotone(n, m, Step(n));
      } else {
        Pow2Monotone(Log2(n) + 1, Log2(m));
        Log2Bounds(m);
      }
    }
  }

  /** Padding that stays below the next power of two keeps its step. */
  lemma SamePower(n: nat)
    requires n > ALIGNED_LIMIT && Padded(n) < 2 * Pow2(Log2(n))
    ensures Padded(Padded(n)) == Padded(n)
  {
    var p, step := Padded(n), Step(n);
    BelowNextPower(n);
    Log2Bounds(n);
    Log2Unique(p, Log2(n));
    CeilBounds(n, step);
    CeilFixed((n + step - 1) / step, step);
  }

  /** A power of two is a multiple of its own step. */
  lemma PowerIsPadded(e: nat)
    requires Pow2(e) > ALIGNED_LIMIT
    ensures Padded(Pow2(e)) == Pow2(e)
  {
    var p := Pow2(e);
    Log2Unique(p, e);
    StepBounds(p);
    var k := StepExponent(p);
    Pow2Splits(k, e - k);
    CeilFixed(Pow2(e - k), Pow2(k));
  }

  /** A padded length is its own padding. */
  lemma PaddedIdempotent(n: nat)
    ensures Padded(Padded(n)) == Padded(n)
  {
    if n <= ALIGNED_LIMIT {
      BelowLimit(n);
      CeilFixed((n + ALIGNMENT - 1) / ALIGNMENT, ALIGNMENT);
    } else {
      BelowNextPower(n);
      if Padded(n) < 2 * Pow2(Log2(n)) { SamePower(n); } else { PowerIsPadded(Log2(n) + 1); }
    }
  }

  /** Above 16 KiB the padding adds less than one sixteenth. */
  lemma OverheadBelowSixteenth(n: nat)
    requires n > ALIGNED_LIMIT
    ensures 16 * (Padded(n) - n) < n
  {
    StepBounds(n);
    Log2Bounds(n);
    CeilBounds(n, Step(n));
    var k, e := StepExponent(n), Log2(n);
    assert Pow2(4) == 16;
    Pow2Splits(k, 4);
    Pow2Monotone(k + 4, e);
  }

  // ---------------------------------------------------------------------
  // Frames
  // ---------------------------------------------------------------------

  /** Big-endian, as `setUint32` writes it. */
  function U32(n: int): (b: seq<Byte>)
    requires 0 <= n <= MAX_CONTENT
    ensures |b| == HEADER
  {
    [n / 0x100_0000, n / 0x1_0000 % 256, n / 256 % 256, n % 256]
  }

  function Big(a: int, b: int, c: int, d: int): int
  {
    a * 0x100_0000 + b * 0x1_0000 + c * 256 + d
  }

  function ReadU32(b: seq<Byte>): (n: int)
    requires |b| >= HEADER
    ensures 0 <= n <= MAX_CONTENT
  {
    Big(b[0], b[1], b[2], b[3])
  }

  lemma U32RoundTrip(n: int, b: seq<Byte>)
    requires 0 <= n <= MAX_CONTENT && |b| == HEADER
    ensures ReadU32(U32(n)) == n && U32(ReadU32(b)) == b
  {
    BigDigits(b[0], b[1], b[2], b[3]);
  }

  lemma BigDigits(a: int, b: int, c: int, d: int)
    requires 0 <= a < 256 && 0 <= b < 256 && 0 <= c < 256 && 0 <= d < 256
    ensures var n := Big(a, b, c, d);
      n / 0x100_0000 == a && n / 0x1_0000 % 256 == b && n / 256 % 256 == c && n % 256 == d
  {
    var n := Big(a, b, c, d);
    assert n / 256 == a * 0x1_0000 + b * 256 + c;
    assert n / 0x1_0000 == a * 256 + b;
  }

  function Zeros(n: nat): (z: seq<Byte>)
    ensures |z| == n && forall i :: 0 <= i < n ==> z[i] == 0
  {
    seq(n, i => 0)
  }

  function Encode(content: seq<Byte>): Result<seq<Byte>>
  {
    if |content| > MAX_CONTENT then Err
    else
      var p := Padded(HEADER + |content|);
      PaddedFits(HEADER + |content|);
      Ok(U32(|content|) + content + Zeros(p - HEADER - |content|))
  }

  lemma PaddedFits(n: nat)
    ensures n <= Padded(n)
  {
    CeilBounds(n, Step(n));
  }

  /** The five receiver checks, in the order the source makes them. */
  function Decode(frame: seq<Byte>, paddedLength: int, maxContent: int): Option<seq<Byte>>
  {
    if |frame| != paddedLength || paddedLength < HEADER then None
    else
      var n := ReadU32(frame);
      if n > paddedLength - HEADER || Padded(HEADER + n) != paddedLength || n > maxContent then None
      else if !AllZero(frame, HEADER + n) then None
      else Some(frame[HEADER..HEADER + n])
  }

  predicate AllZero(frame: seq<Byte>, from: nat)
    requires from <= |frame|
  {
    forall i :: from <= i < |frame| ==> frame[i] == 0
  }

  /** `encodeSealedFrame`: a zeroed buffer, the length, then the content. */
  method EncodeFrame(content: seq<Byte>) returns (frame: array?<Byte>)
    ensures frame == null <==> Encode(content).Err?
    ensures frame != null ==> fresh(frame) && Encode(content) == Ok(frame[..])
  {
    if |content| > MAX_CONTENT { return null; }
    PaddedFits(HEADER + |content|);
    var p := Padded(HEADER + |content|);
    frame := new Byte[p](_ => 0);
    var header := U32(|content|);
    frame[0], frame[1], frame[2], frame[3] := header[0], header[1], header[2], header[3];
    for i := 0 to |content|
      invariant frame[..HEADER] == header
      invariant forall j :: 0 <= j < i ==> frame[HEADER + j] == content[j]
      invariant forall j :: HEADER + i <= j < p ==> frame[j] == 0
    {
      frame[HEADER + i] := content[i];
    }
    FrameIs(frame[..], header, content);
  }

  lemma FrameIs(frame: seq<Byte>, header: seq<Byte>, content: seq<Byte>)
    requires |header| == HEADER && |frame| >= HEADER + |content| && frame[..HEADER] == header
    requires forall j :: 0 <= j < |content| ==> frame[HEADER + j] == content[j]
    requires forall j :: HEADER + |content| <= j < |frame| ==> frame[j] == 0
    ensures frame == header + content + Zeros(|frame| - HEADER - |content|)
  {
    assert forall j :: 0 <= j < HEADER ==> frame[j] == frame[..HEADER][j];
    assert forall j :: HEADER <= j < HEADER + |content| ==> frame[j] == content[j - HEADER];
  }

  /** `decodeSealedFrame`, with its scan of the padding. */
  method DecodeFrame(frame: seq<Byte>, paddedLength: int, maxContent: int) returns (content: Option<seq<Byte>>)
    ensures content == Decode(frame, paddedLength, maxContent)
  {
    if |frame| != paddedLength || paddedLength < HEADER { return None; }
    var n := ReadU32(frame);
    if n > paddedLength - HEADER { return None; }
    if Padded(HEADER + n) != paddedLength { return None; }
    if n > maxContent { return None; }
    for i := HEADER + n to paddedLength
      invariant forall j :: HEADER + n <= j < i ==> frame[j] == 0
    {
      if frame[i] != 0 { return None; }
    }
    content := Some(frame[HEADER..HEADER + n]);
  }

  /** The length is read from the header alone. */
  lemma HeaderRead(frame: seq<Byte>)
    requires |frame| >= HEADER
    ensures ReadU32(frame) == ReadU32(frame[..HEADER])
  {
  }

  lemma EncodedDecodes(c: seq<Byte>, maxContent: int)
    requires Encode(c).Ok? && |c| <= maxContent
    ensures Decode(Encode(c).value, |Encode(c).value|, maxContent) == Some(c)
  {
    hide Padded, U32, ReadU32;
    var frame := Encode(c).value;
    PaddedFits(HEADER + |c|);
    U32RoundTrip(|c|, U32(|c|));
    assert frame[..HEADER] == U32(|c|);
    HeaderRead(frame);
    assert frame[HEADER..HEADER + |c|] == c;
    assert |frame| == Padded(HEADER + |c|);
  }

  lemma DecodedEncodes(frame: seq<Byte>, paddedLength: int, maxContent: int)
    requires Decode(frame, paddedLength, maxContent).Some?
    ensures var c := Decode(frame, paddedLength, maxContent).value;
      |c| <= maxContent && Encode(c) == Ok(frame) && paddedLength == |frame|
  {
    hide Padded, U32, ReadU32, Zeros;
    var n := ReadU32(frame);
    HeaderRead(frame);
    U32RoundTrip(n, frame[..HEADER]);
    FrameIs(frame, frame[..HEADER], frame[HEADER..HEADER + n]);
  }

  /** A frame decodes to a content exactly when it is, byte for byte, the encoding of that content. */
  lemma FramesAreCanonical(frame: seq<Byte>, paddedLength: int, maxContent: int, c: seq<Byte>)
    ensures Decode(frame, paddedLength, maxContent) == Some(c) <==>
      |c| <= maxContent && Encode(c) == Ok(frame) && paddedLength == |frame|
  {
    hide Encode, Decode;
    if Encode(c).Ok? && |c| <= maxContent { EncodedDecodes(c, maxContent); }
    if Decode(frame, paddedLength, maxContent).Some? { DecodedEncodes(frame, paddedLength, maxContent); }
  }
}
