/** Repairing lone UTF-16 surrogates by a round trip through UTF-16 (src/shared/text_sanitize.py).
    Sections 2.1 and 2.2 of RFC 2781 give the encoding and decoding of one character. */
module TextSanitize {

  type CodePoint = c: int | 0 <= c <= 0x10FFFF
  type Unit = u: int | 0 <= u <= 0xFFFF
  type Byte = b: int | 0 <= b <= 0xFF

  predicate IsHigh(c: int) {
    0xD800 <= c <= 0xDBFF
  }

  predicate IsLow(c: int) {
    0xDC00 <= c <= 0xDFFF
  }

  predicate IsSurrogate(c: int) {
    0xD800 <= c <= 0xDFFF
  }

  /** The scalar a high and a low surrogate stand for: ten bits each, above the basic plane. */
  function Combine(high: int, low: int): (c: CodePoint)
    requires IsHigh(high) && IsLow(low)
    ensures 0x10000 <= c
  {
    0x10000 + (high - 0xD800) * 0x400 + (low - 0xDC00)
  }

  // ---- the specification ----------------------------------------------------------------------------------------

  /** Merge each adjacent high/low pair into its scalar; drop every other surrogate. */
  function Repair(s: seq<CodePoint>): seq<CodePoint> {
    if s == [] then []
    else if IsHigh(s[0]) && |s| > 1 && IsLow(s[1]) then [Combine(s[0], s[1])] + Repair(s[2..])
    else if IsSurrogate(s[0]) then Repair(s[1..])
    else [s[0]] + Repair(s[1..])
  }

  predicate Clean(s: seq<CodePoint>) {
    forall i | 0 <= i < |s| :: !IsSurrogate(s[i])
  }

  // ---- the code -------------------------------------------------------------------------------------------------

  /** One character as code units; `surrogatepass` lets a lone surrogate through as itself. */
  function EncodeChar(c: CodePoint): (r: seq<Unit>)
    ensures |r| == if c < 0x10000 then 1 else 2
  {
    if c < 0x10000 then [c]
    else [0xD800 + (c - 0x10000) / 0x400, 0xDC00 + (c - 0x10000) % 0x400]
  }

  function EncodeUnits(s: seq<CodePoint>): seq<Unit> {
    if s == [] then [] else EncodeChar(s[0]) + EncodeUnits(s[1..])
  }

  /** The decoder with `errors="ignore"`: an unpaired surrogate is skipped, and scanning resumes at the next unit. */
  function DecodeUnits(u: seq<Unit>): seq<CodePoint> {
    if u == [] then []
    else if !IsSurrogate(u[0]) then [u[0]] + DecodeUnits(u[1..])
    else if IsHigh(u[0]) && |u| > 1 && IsLow(u[1]) then [Combine(u[0], u[1])] + DecodeUnits(u[2..])
    else DecodeUnits(u[1..])
  }

  function UnitBytes(u: Unit, bigEndian: bool): (r: seq<Byte>)
    ensures |r| == 2
  {
    if bigEndian then [u / 0x100, u % 0x100] else [u % 0x100, u / 0x100]
  }

  function BytesUnit(first: Byte, second: Byte, bigEndian: bool): Unit {
    if bigEndian then first * 0x100 + second else second * 0x100 + first
  }

  function Serialize(u: seq<Unit>, bigEndian: bool): seq<Byte> {
    if u == [] then [] else UnitBytes(u[0], bigEndian) + Serialize(u[1..], bigEndian)
  }

  /** An odd byte at the end is truncated data, which `ignore` skips. */
  function Deserialize(b: seq<Byte>, bigEndian: bool): seq<Unit> {
    if |b| < 2 then [] else [BytesUnit(b[0], b[1], bigEndian)] + Deserialize(b[2..], bigEndian)
  }

  /** `value.encode("utf-16", "surrogatepass")` on a machine of the given byte order: a byte-order mark, then the units.
      */
  function Encode(s: seq<CodePoint>, bigEndian: bool): seq<Byte> {
    UnitBytes(0xFEFF, bigEndian) + Serialize(EncodeUnits(s), bigEndian)
  }

  /** `.decode("utf-16", "ignore")`: a leading byte-order mark picks the order and is consumed. */
  function Decode(b: seq<Byte>, bigEndian: bool): seq<CodePoint> {
    if |b| >= 2 && b[0] == 0xFF && b[1] == 0xFE then DecodeUnits(Deserialize(b[2..], false))
    else if |b| >= 2 && b[0] == 0xFE && b[1] == 0xFF then DecodeUnits(Deserialize(b[2..], true))
    else DecodeUnits(Deserialize(b, bigEndian))
  }

  /** `_SURROGATE.sub("", value)`. */
  function DropSurrogates(s: seq<CodePoint>): seq<CodePoint> {
    if s == [] then [] else (if IsSurrogate(s[0]) then [] else [s[0]]) + DropSurrogates(s[1..])
  }

  /** `sanitize_text` past its early return. */
  function FullPath(s: seq<CodePoint>, bigEndian: bool): seq<CodePoint> {
    DropSurrogates(Decode(Encode(s, bigEndian), bigEndian))
  }

  function SanitizeText(s: seq<CodePoint>, bigEndian: bool): seq<CodePoint> {
    if Clean(s) then s else FullPath(s, bigEndian)
  }

  // ---- refinement -----------------------------------------------------------------------------------------------

  lemma UnitRoundTrip(u: Unit, bigEndian: bool)
    ensures BytesUnit(UnitBytes(u, bigEndian)[0], UnitBytes(u, bigEndian)[1], bigEndian) == u
  {
  }

  lemma {:induction false} SerializeRoundTrip(u: seq<Unit>, bigEndian: bool)
    ensures Deserialize(Serialize(u, bigEndian), bigEndian) == u
  {
    if u != [] {
      UnitRoundTrip(u[0], bigEndian);
      SerializeRoundTrip(u[1..], bigEndian);
      assert Serialize(u, bigEndian)[2..] == Serialize(u[1..], bigEndian);
    }
  }

  /** Encoding a supplementary character gives a high and a low surrogate that combine back to it. */
  lemma CharRoundTrip(c: CodePoint)
    requires c >= 0x10000
    ensures IsHigh(EncodeChar(c)[0]) && IsLow(EncodeChar(c)[1])
    ensures Combine(EncodeChar(c)[0], EncodeChar(c)[1]) == c
  {
  }

  /** The first unit of an encoding is a low surrogate exactly when the first character is one. */
  lemma LowLeads(s: seq<CodePoint>)
    requires s != []
    ensures EncodeUnits(s) != [] && (IsLow(EncodeUnits(s)[0]) <==> IsLow(s[0]))
    ensures s[0] < 0x10000 ==> EncodeUnits(s)[0] == s[0] && EncodeUnits(s)[1..] == EncodeUnits(s[1..])
  {
    if s[0] >= 0x10000 {
      CharRoundTrip(s[0]);
    }
  }

  /** Decoding the UTF-16 encoding is the code-point specification. */
  lemma {:induction false} DecodeEncode(s: seq<CodePoint>)
    ensures DecodeUnits(EncodeUnits(s)) == Repair(s)
  {
    if s != [] {
      var u := EncodeUnits(s);
      LowLeads(s);
      if s[0] >= 0x10000 {
        CharRoundTrip(s[0]);
        assert u[2..] == EncodeUnits(s[1..]);
        DecodeEncode(s[1..]);
      } else if |s| > 1 {
        LowLeads(s[1..]);
        DecodeEncode(s[1..]);
        if IsHigh(s[0]) && IsLow(s[1]) {
          assert u[1] == s[1] && u[2..] == EncodeUnits(s[2..]);
          DecodeEncode(s[2..]);
        } else {
          assert |u| > 1 && u[1] == EncodeUnits(s[1..])[0];
        }
      } else {
        assert u == [s[0]];
      }
    }
  }

  lemma {:induction false} RepairClean(s: seq<CodePoint>)
    ensures Clean(Repair(s))
  {
    if s != [] {
      RepairClean(s[1..]);
      if |s| > 1 {
        RepairClean(s[2..]);
      }
    }
  }

  lemma {:induction false} CleanIsFixed(s: seq<CodePoint>)
    requires Clean(s)
    ensures Repair(s) == s && DropSurrogates(s) == s
  {
    if s != [] {
      assert !IsSurrogate(s[0]);
      assert forall i | 0 <= i < |s[1..]| :: s[1..][i] == s[i + 1];
      CleanIsFixed(s[1..]);
    }
  }

  lemma CodecIsRepair(s: seq<CodePoint>, bigEndian: bool)
    ensures Decode(Encode(s, bigEndian), bigEndian) == Repair(s)
  {
    var units := EncodeUnits(s);
    assert Encode(s, bigEndian)[2..] == Serialize(units, bigEndian);
    assert 0xFEFF / 0x100 == 0xFE && 0xFEFF % 0x100 == 0xFF;
    SerializeRoundTrip(units, bigEndian);
    DecodeEncode(s);
  }

  /** On every text and either byte order, `sanitize_text` is the specification, the early return agrees with the full
      path, and the final substitution never has anything left to remove. */
  lemma SanitizeRefines(s: seq<CodePoint>, bigEndian: bool)
    ensures SanitizeText(s, bigEndian) == Repair(s) == FullPath(s, bigEndian) == Decode(Encode(s, bigEndian), bigEndian)
  {
    CodecIsRepair(s, bigEndian);
    RepairClean(s);
    CleanIsFixed(Repair(s));
    if Clean(s) {
      CleanIsFixed(s);
    }
  }

  /** The result has no surrogates, and sanitizing again changes nothing. */
  lemma SanitizeIdempotent(s: seq<CodePoint>, bigEndian: bool)
    ensures Clean(SanitizeText(s, bigEndian))
    ensures SanitizeText(SanitizeText(s, bigEndian), bigEndian) == SanitizeText(s, bigEndian)
  {
    SanitizeRefines(s, bigEndian);
    RepairClean(s);
  }

  predicate SplitPair(a: seq<CodePoint>, b: seq<CodePoint>) {
    a != [] && b != [] && IsHigh(a[|a| - 1]) && IsLow(b[0])
  }

  /** The character a split pair stands for. */
  function Seam(a: seq<CodePoint>, b: seq<CodePoint>): seq<CodePoint> {
    if SplitPair(a, b) then [Combine(a[|a| - 1], b[0])] else []
  }

  /** One character in front. */
  lemma RepairCons(c: CodePoint, b: seq<CodePoint>)
    ensures Repair([c] + b) == Repair([c]) + Seam([c], b) + Repair(b)
  {
    hide Combine;
    assert ([c] + b)[1..] == b && [c][1..] == [];
    if SplitPair([c], b) {
      assert ([c] + b)[2..] == b[1..];
    }
  }

  /** How much of a text the first step of `Repair` reads, and what it yields. */
  lemma RepairStep(a: seq<CodePoint>, b: seq<CodePoint>) returns (head: seq<CodePoint>, n: nat)
    requires |a| >= 2
    ensures 0 < n <= |a| && Repair(a) == head + Repair(a[n..]) && Repair(a + b) == head + Repair(a[n..] + b)
    ensures n == |a| ==> !IsHigh(a[|a| - 1])
  {
    hide Combine;
    assert (a + b)[2..] == a[2..] + b && (a + b)[1..] == a[1..] + b;
    if IsHigh(a[0]) && IsLow(a[1]) {
      head, n := [Combine(a[0], a[1])], 2;
    } else {
      head, n := if IsSurrogate(a[0]) then [] else [a[0]], 1;
    }
  }

  lemma {:induction false} RepairConcat(a: seq<CodePoint>, b: seq<CodePoint>)
    ensures Repair(a + b) == Repair(a) + Seam(a, b) + Repair(b)
  {
    if a == [] {
      assert a + b == b;
    } else if |a| == 1 {
      RepairCons(a[0], b);
      assert a == [a[0]];
    } else {
      hide Repair, Seam;
      var head, n := RepairStep(a, b);
      RepairConcat(a[n..], b);
      SameSeam(a, b, n);
    }
  }

  lemma SameSeam(a: seq<CodePoint>, b: seq<CodePoint>, n: nat)
    requires n < |a| || (0 < n == |a| && !IsHigh(a[|a| - 1]))
    ensures Seam(a[n..], b) == Seam(a, b)
  {
  }

  lemma ExtraCharacterShows(x: seq<CodePoint>, seam: seq<CodePoint>, y: seq<CodePoint>)
    ensures x + seam + y == x + y <==> seam == []
  {
    assert |x + seam + y| == |x| + |seam| + |y| && |x + y| == |x| + |y|;
    assert x + [] + y == x + y;
  }

  /** Sanitizing is concatenative exactly when no pair is split at the seam; a split pair costs exactly its one
      character. */
  lemma SanitizeConcat(a: seq<CodePoint>, b: seq<CodePoint>, bigEndian: bool)
    ensures SanitizeText(a + b, bigEndian) == SanitizeText(a, bigEndian) + Seam(a, b) + SanitizeText(b, bigEndian)
    ensures SanitizeText(a + b, bigEndian) == SanitizeText(a, bigEndian) + SanitizeText(b, bigEndian) <==>
            !SplitPair(a, b)
  {
    hide SanitizeText, Repair, Combine;
    SanitizeRefines(a, bigEndian);
    SanitizeRefines(b, bigEndian);
    SanitizeRefines(a + b, bigEndian);
    RepairConcat(a, b);
    ExtraCharacterShows(Repair(a), Seam(a, b), Repair(b));
  }

  // ---- the same on code points -------------------------------------------------------------------------------------

  /** Alone, a surrogate disappears and any other character stays. */
  lemma SanitizeOne(c: CodePoint, bigEndian: bool)
    ensures SanitizeText([c], bigEndian) == if 0xD800 <= c <= 0xDFFF then [] else [c]
  {
    SanitizeRefines([c], bigEndian);
    assert [c][1..] == [];
  }

  /** A high and a low surrogate together become the character they encode. With `SanitizeOne` and `SanitizeConcat` this
      determines the function. */
  lemma SanitizePair(high: CodePoint, low: CodePoint, bigEndian: bool)
    requires 0xD800 <= high <= 0xDBFF && 0xDC00 <= low <= 0xDFFF
    ensures SanitizeText([high, low], bigEndian) == [0x10000 + (high % 0x400) * 0x400 + low % 0x400]
  {
    SanitizeRefines([high, low], bigEndian);
    assert [high, low][2..] == [];
    assert high % 0x400 == high - 0xD800 && low % 0x400 == low - 0xDC00;
  }

  /** Where the seam is: between a high surrogate and a low one. */
  lemma SplitPairIs(a: seq<CodePoint>, b: seq<CodePoint>)
    ensures SplitPair(a, b) <==> a != [] && b != [] && 0xD800 <= a[|a| - 1] < 0xDC00 && 0xDC00 <= b[0] < 0xE000
  {
  }
}
