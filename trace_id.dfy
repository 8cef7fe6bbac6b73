/**
 * Formatting of the trace identity that correlates a log record with the
 * enclosing root span: `f"{trace_id:032x}"` when there is a span context with
 * a non-zero trace id, and null otherwise.
 *
 * Python's `032x` writes the number in lowercase hexadecimal with as few
 * digits as it needs and pads it on the left with zeros to at least 32
 * characters; that is how it is modelled here (HexDigits, then ZeroPad).
 * HexValue reads such a string back and is the partner of the formatting.
 */
module TraceIdFormat {
  import opened Wrappers

  /** The width the format pads to. */
  const TraceIdWidth: nat := 32

  /** Trace ids are 128-bit integers: every id is below 2^128 = 16^32. */
  const TraceIdBound: nat := 0x1_0000_0000_0000_0000_0000_0000_0000_0000

  predicate IsLowerHex(c: char)
  {
    '0' <= c <= '9' || 'a' <= c <= 'f'
  }

  predicate AllLowerHex(s: string)
  {
    forall i :: 0 <= i < |s| ==> IsLowerHex(s[i])
  }

  /** The value of one hexadecimal digit (0 for a character that is not one). */
  function CharValue(c: char): nat
  {
    if '0' <= c <= '9' then c as int - '0' as int
    else if 'a' <= c <= 'f' then c as int - 'a' as int + 10
    else 0
  }

  /** The lowercase digit for d. */
  function HexChar(d: nat): (c: char)
    requires d < 16
    ensures IsLowerHex(c)
    ensures CharValue(c) == d
  {
    if d < 10 then ('0' as int + d) as char else ('a' as int + d - 10) as char
  }

  /** The shortest lowercase hexadecimal spelling of n ("0" for zero). */
  function HexDigits(n: nat): (s: string)
    ensures 1 <= |s|
    ensures AllLowerHex(s)
    decreases n
  {
    if n < 16 then [HexChar(n)] else HexDigits(n / 16) + [HexChar(n % 16)]
  }

  /** The number a string of hexadecimal digits denotes, most significant digit first. */
  function HexValue(s: string): nat
  {
    if s == [] then 0 else 16 * HexValue(s[..|s| - 1]) + CharValue(s[|s| - 1])
  }

  function Zeros(k: nat): (z: string)
    ensures |z| == k
  {
    seq(k, _ => '0')
  }

  /** s, padded on the left with zeros to at least `width` characters. */
  function ZeroPad(s: string, width: nat): (r: string)
    ensures |r| == if |s| < width then width else |s|
    ensures r[|r| - |s|..] == s
    ensures forall i :: 0 <= i < |r| - |s| ==> r[i] == '0'
  {
    if |s| < width then Zeros(width - |s|) + s else s
  }

  function Pow16(k: nat): nat
  {
    if k == 0 then 1 else 16 * Pow16(k - 1)
  }

  /**
   * `format(n, "032x")`: reads back as n, has at least 32 characters, all of
   * them lowercase hexadecimal digits.
   */
  function Hex032(n: nat): (s: string)
    ensures HexValue(s) == n
    ensures TraceIdWidth <= |s| && AllLowerHex(s)
  {
    var d := HexDigits(n);
    HexDigitsRoundTrip(n);
    LeadingZeros(if |d| < TraceIdWidth then TraceIdWidth - |d| else 0, d);
    ZeroPad(d, TraceIdWidth)
  }

  /**
   * The `trace_id` field of a log record: the formatted trace id of the current
   * span context, or None (JSON null) when there is no context or its id is 0.
   */
  function FormatTraceId(context: Option<nat>): (r: Option<string>)
    ensures r.None? <==> (context.None? || context.value == 0)
    ensures r.Some? ==> HexValue(r.value) == context.value
    ensures r.Some? ==> TraceIdWidth <= |r.value| && AllLowerHex(r.value)
    ensures r.Some? && context.value < TraceIdBound ==> |r.value| == TraceIdWidth
  {
    match context
    case None => None
    case Some(id) =>
      if id == 0 then None
      else
        Hex032Width(id);
        Some(Hex032(id))
  }

  /** Reading back the digits gives the number. */
  lemma {:induction false} HexDigitsRoundTrip(n: nat)
    ensures HexValue(HexDigits(n)) == n
    decreases n
  {
    var s := HexDigits(n);
    if n < 16 {
      assert s[..0] == [];
    } else {
      HexDigitsRoundTrip(n / 16);
      assert s[..|s| - 1] == HexDigits(n / 16);
    }
  }

  /** Leading zeros do not change the value. */
  lemma {:induction false} LeadingZeros(k: nat, s: string)
    ensures HexValue(Zeros(k) + s) == HexValue(s)
    decreases |s|, k
  {
    if s == [] {
      assert Zeros(k) + s == Zeros(k);
      if k > 0 {
        assert Zeros(k)[..k - 1] == Zeros(k - 1) + [];
        LeadingZeros(k - 1, []);
      }
    } else {
      var t := Zeros(k) + s;
      assert t[..|t| - 1] == Zeros(k) + s[..|s| - 1];
      LeadingZeros(k, s[..|s| - 1]);
    }
  }

  /** A number below 16^w needs at most w digits. */
  lemma {:induction false} HexDigitsLength(n: nat, w: nat)
    requires 1 <= w && n < Pow16(w)
    ensures |HexDigits(n)| <= w
    decreases w
  {
    assert Pow16(1) == 16;
    if n >= 16 {
      assert w != 1;
      assert n / 16 < Pow16(w - 1);
      HexDigitsLength(n / 16, w - 1);
    }
  }

  lemma {:induction false} Pow16Sum(a: nat, b: nat)
    ensures Pow16(a + b) == Pow16(a) * Pow16(b)
    decreases a
  {
    if a > 0 {
      Pow16Sum(a - 1, b);
    }
  }

  /** Every 128-bit id is rendered with exactly 32 digits. */
  lemma Hex032Width(n: nat)
    ensures n < TraceIdBound ==> |Hex032(n)| == TraceIdWidth
  {
    if n < TraceIdBound {
      Pow16Sum(1, 1);
      Pow16Sum(2, 2);
      Pow16Sum(4, 4);
      Pow16Sum(8, 8);
      Pow16Sum(16, 16);
      assert Pow16(32) == TraceIdBound;
      HexDigitsLength(n, 32);
    }
  }

  /** Distinct trace ids are never rendered as the same string. */
  lemma FormatTraceIdInjective(a: nat, b: nat)
    requires a != 0 && b != 0
    requires FormatTraceId(Some(a)) == FormatTraceId(Some(b))
    ensures a == b
  {
  }
}
