/**
 * The few pieces of Python's string handling the integration relies on:
 * `str(n)` and `f"{n:02d}"`, `bytes.hex()`, `str.upper()`, `str.strip()`
 * and the `in` test for substrings. Each formatter is paired with a reader
 * and a round-trip lemma.
 */
module Text {
  import opened Consts

  predicate IsDigit(c: char) { '0' <= c <= '9' }

  predicate AllDigits(s: string) { forall i :: 0 <= i < |s| ==> IsDigit(s[i]) }

  function DigitChar(d: nat): (c: char)
    requires d < 10
    ensures IsDigit(c) && c as int - '0' as int == d
  {
    ('0' as int + d) as char
  }

  /** `str(n)`, equivalently `f"{n:d}"`, for a non-negative integer. */
  function Decimal(n: nat): (r: string)
    ensures 1 <= |r| && AllDigits(r)
    ensures n < 10 ==> |r| == 1
    ensures 10 <= n < 100 ==> |r| == 2
  {
    if n < 10 then [DigitChar(n)] else Decimal(n / 10) + [DigitChar(n % 10)]
  }

  /** `int(s)` for a string of decimal digits, read most significant digit first. */
  function DecimalValue(s: string): int
  {
    if s == [] then 0 else DecimalValue(s[..|s| - 1]) * 10 + (s[|s| - 1] as int - '0' as int)
  }

  lemma {:induction false} DecimalRoundTrip(n: nat)
    ensures DecimalValue(Decimal(n)) == n
  {
    if n >= 10 {
      var s := Decimal(n);
      assert s[..|s| - 1] == Decimal(n / 10);
      DecimalRoundTrip(n / 10);
    }
  }

  /** `f"{n:02d}"`: at least two digits, zero-padded on the left. */
  function Pad2(n: nat): (r: string)
    ensures AllDigits(r)
    ensures n < 100 ==> |r| == 2
  {
    if n < 10 then "0" + Decimal(n) else Decimal(n)
  }

  lemma Pad2RoundTrip(n: nat)
    ensures DecimalValue(Pad2(n)) == n
  {
    DecimalRoundTrip(n);
    if n < 10 {
      var s := Pad2(n);
      assert s[..|s| - 1] == "0";
    }
  }

  // ---- hexadecimal ----

  /** The lower-case hexadecimal digit of `d`. */
  function HexDigit(d: nat): (c: char)
    requires d < 16
  {
    if d < 10 then ('0' as int + d) as char else ('a' as int + d - 10) as char
  }

  /** The value of a hexadecimal digit of either case (0 for anything else). */
  function HexValue(c: char): nat
  {
    if '0' <= c <= '9' then c as int - '0' as int
    else if 'a' <= c <= 'f' then c as int - 'a' as int + 10
    else if 'A' <= c <= 'F' then c as int - 'A' as int + 10
    else 0
  }

  predicate IsLowerHex(c: char) { '0' <= c <= '9' || 'a' <= c <= 'f' }

  /** `bytes.hex()`: two lower-case hexadecimal digits per byte, high nibble first. */
  function Hex(bs: Bytes): (r: string)
    ensures |r| == 2 * |bs|
    ensures forall i :: 0 <= i < |r| ==> IsLowerHex(r[i])
  {
    if bs == [] then [] else [HexDigit(bs[0] / 16), HexDigit(bs[0] % 16)] + Hex(bs[1..])
  }

  /** `bytes.fromhex(s)` for a string of an even number of hexadecimal digits. */
  function FromHex(s: string): seq<int>
    decreases |s|
  {
    if |s| < 2 then [] else [HexValue(s[0]) * 16 + HexValue(s[1])] + FromHex(s[2..])
  }

  lemma {:induction false} HexRoundTrip(bs: Bytes)
    ensures FromHex(Hex(bs)) == bs
  {
    if bs != [] {
      var h := Hex(bs);
      assert h[2..] == Hex(bs[1..]);
      HexRoundTrip(bs[1..]);
    }
  }

  // ---- case and whitespace ----

  /** `c.upper()` on ASCII letters; every other character is left alone. */
  function UpperChar(c: char): char
  {
    if 'a' <= c <= 'z' then (c as int - 32) as char else c
  }

  /** `s.upper()` */
  function Upper(s: string): (r: string)
    ensures |r| == |s|
    ensures forall i :: 0 <= i < |s| ==> r[i] == UpperChar(s[i])
  {
    seq(|s|, i requires 0 <= i < |s| => UpperChar(s[i]))
  }

  lemma UpperIdempotent(s: string)
    ensures Upper(Upper(s)) == Upper(s)
  {
  }

  /** The characters for which Python's `str.isspace()` is true. */
  predicate IsSpace(c: char)
  {
    || '\U{0009}' <= c <= '\U{000D}'
    || '\U{001C}' <= c <= '\U{0020}'
    || c == '\U{0085}' || c == '\U{00A0}' || c == '\U{1680}'
    || '\U{2000}' <= c <= '\U{200A}'
    || c == '\U{2028}' || c == '\U{2029}' || c == '\U{202F}' || c == '\U{205F}' || c == '\U{3000}'
  }

  /** The number of whitespace characters `s` starts with. */
  function LeadingSpaces(s: string): (n: nat)
    ensures n <= |s|
    ensures forall k :: 0 <= k < n ==> IsSpace(s[k])
    ensures n < |s| ==> !IsSpace(s[n])
  {
    if s != [] && IsSpace(s[0]) then 1 + LeadingSpaces(s[1..]) else 0
  }

  /** The number of whitespace characters `s` ends with. */
  function TrailingSpaces(s: string): (n: nat)
    ensures n <= |s|
    ensures forall k :: |s| - n <= k < |s| ==> IsSpace(s[k])
    ensures n < |s| ==> !IsSpace(s[|s| - 1 - n])
  {
    if s != [] && IsSpace(s[|s| - 1]) then 1 + TrailingSpaces(s[..|s| - 1]) else 0
  }

  /** `s.strip()`: the longest slice of `s` that neither starts nor ends with whitespace. */
  function Strip(s: string): (r: string)
    ensures r == [] || (!IsSpace(r[0]) && !IsSpace(r[|r| - 1]))
    ensures exists i, j :: (0 <= i <= j <= |s| && r == s[i..j] &&
      (forall k :: 0 <= k < i ==> IsSpace(s[k])) && (forall k :: j <= k < |s| ==> IsSpace(s[k])))
  {
    var lead := LeadingSpaces(s);
    var stop := lead + |s[lead..]| - TrailingSpaces(s[lead..]);
    StripEnds(s, lead);
    s[lead..stop]
  }

  /** The slice of `s` between its leading and its trailing whitespace. */
  lemma StripEnds(s: string, lead: nat)
    requires lead == LeadingSpaces(s)
    ensures var stop := lead + |s[lead..]| - TrailingSpaces(s[lead..]);
      && lead <= stop <= |s|
      && (forall k :: stop <= k < |s| ==> IsSpace(s[k]))
      && (lead < stop ==> !IsSpace(s[lead]) && !IsSpace(s[stop - 1]))
      && exists i, j :: (0 <= i <= j <= |s| && s[lead..stop] == s[i..j] &&
        (forall k :: 0 <= k < i ==> IsSpace(s[k])) && (forall k :: j <= k < |s| ==> IsSpace(s[k])))
  {
    var rest := s[lead..];
    var stop := lead + |rest| - TrailingSpaces(rest);
    forall k | stop <= k < |s|
      ensures IsSpace(s[k])
    {
      assert s[k] == rest[k - lead];
    }
    if lead < stop {
      assert s[stop - 1] == rest[|rest| - 1 - TrailingSpaces(rest)];
    }
    assert forall k :: 0 <= k < lead ==> IsSpace(s[k]);
    assert s[lead..stop] == s[lead..stop];
  }

  /** Whitespace in front of a string that does not start with whitespace is its leading run. */
  lemma {:induction false} LeadingOfPadded(pre: string, u: string)
    requires forall k :: 0 <= k < |pre| ==> IsSpace(pre[k])
    requires u != [] && !IsSpace(u[0])
    ensures LeadingSpaces(pre + u) == |pre|
    decreases |pre|
  {
    if pre != [] {
      assert (pre + u)[1..] == pre[1..] + u;
      LeadingOfPadded(pre[1..], u);
    } else {
      assert pre + u == u;
    }
  }

  /** Whitespace after a string that does not end with whitespace is its trailing run. */
  lemma {:induction false} TrailingOfPadded(u: string, post: string)
    requires forall k :: 0 <= k < |post| ==> IsSpace(post[k])
    requires u != [] && !IsSpace(u[|u| - 1])
    ensures TrailingSpaces(u + post) == |post|
    decreases |post|
  {
    if post != [] {
      assert (u + post)[..|u + post| - 1] == u + post[..|post| - 1];
      TrailingOfPadded(u, post[..|post| - 1]);
    } else {
      assert u + post == u;
    }
  }

  /** Whitespace around a string that neither starts nor ends with whitespace is stripped off. */
  lemma StripPadded(pre: string, t: string, post: string)
    requires forall k :: 0 <= k < |pre| ==> IsSpace(pre[k])
    requires forall k :: 0 <= k < |post| ==> IsSpace(post[k])
    requires t != [] && !IsSpace(t[0]) && !IsSpace(t[|t| - 1])
    ensures Strip(pre + t + post) == t
  {
    var s := pre + t + post;
    assert s == pre + (t + post);
    LeadingOfPadded(pre, t + post);
    assert s[|pre|..] == t + post;
    TrailingOfPadded(t, post);
    assert s[|pre|..|pre| + |t|] == t;
  }

  /** A string that neither starts nor ends with whitespace is its own strip. */
  lemma StripTrimmed(s: string)
    requires s == [] || (!IsSpace(s[0]) && !IsSpace(s[|s| - 1]))
    ensures Strip(s) == s
  {
  }

  // ---- substrings ----

  predicate OccursAt(p: string, s: string, i: nat)
  {
    i + |p| <= |s| && s[i..i + |p|] == p
  }

  /** Python's `p in s` for strings: does `p` occur in `s` starting at some index? */
  function Contains(s: string, p: string): bool
    decreases |s|
  {
    if |p| > |s| then false
    else if s[..|p|] == p then true
    else Contains(s[1..], p)
  }

  lemma {:induction false} ContainsIff(s: string, p: string)
    ensures Contains(s, p) <==> exists i: nat :: OccursAt(p, s, i)
    decreases |s|
  {
    if |p| > |s| {
    } else if s[..|p|] == p {
      assert OccursAt(p, s, 0);
    } else {
      ContainsIff(s[1..], p);
      if Contains(s[1..], p) {
        var j: nat :| OccursAt(p, s[1..], j);
        assert s[1..][j..j + |p|] == s[j + 1..j + 1 + |p|];
        assert OccursAt(p, s, j + 1);
      } else {
        forall i: nat | OccursAt(p, s, i)
          ensures false
        {
          if i > 0 {
            assert s[1..][i - 1..i - 1 + |p|] == s[i..i + |p|];
            assert OccursAt(p, s[1..], i - 1);
          }
        }
      }
    }
  }
}
