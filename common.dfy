/** Helpers shared by the client and server modules: an Option type, the two
    whitespace-trimming functions the code relies on (JavaScript's String.trim on
    the client, Python's str.strip on the server), and decimal rendering of
    integers as JavaScript template literals produce it. */
module Common {

  datatype Option<+T> = None | Some(value: T)

  /** WhiteSpace and LineTerminator code points removed by String.prototype.trim. */
  predicate IsJsSpace(c: char) {
    c == ' ' || c == '\t' || c == '\n' || c == '\r' || c == '\U{B}' || c == '\U{C}'
    || c == '\U{A0}' || c == '\U{1680}' || ('\U{2000}' <= c <= '\U{200A}')
    || c == '\U{2028}' || c == '\U{2029}' || c == '\U{202F}' || c == '\U{205F}'
    || c == '\U{3000}' || c == '\U{FEFF}'
  }

  /** Code points for which Python's str.isspace holds, removed by str.strip(). */
  predicate IsPySpace(c: char) {
    c == ' ' || ('\t' <= c <= '\r') || ('\U{1C}' <= c <= '\U{1F}') || c == '\U{85}'
    || c == '\U{A0}' || c == '\U{1680}' || ('\U{2000}' <= c <= '\U{200A}')
    || c == '\U{2028}' || c == '\U{2029}' || c == '\U{202F}' || c == '\U{205F}'
    || c == '\U{3000}'
  }

  /** Every character of s is whitespace according to sp. */
  predicate AllSpace(s: string, sp: char -> bool) {
    forall i :: 0 <= i < |s| ==> sp(s[i])
  }

  /** s with its leading whitespace removed: it does not start with whitespace,
      and (TrimStartSuffix) it is a suffix of s whose dropped prefix was all
      whitespace. */
  function TrimStart(s: string, sp: char -> bool): (r: string)
    ensures |r| <= |s|
    ensures r == [] || !sp(r[0])
  {
    if s != [] && sp(s[0]) then TrimStart(s[1..], sp) else s
  }

  /** s with its trailing whitespace removed: it does not end with whitespace,
      and (TrimEndPrefix) it is a prefix of s whose dropped suffix was all
      whitespace. */
  function TrimEnd(s: string, sp: char -> bool): (r: string)
    ensures |r| <= |s|
    ensures r == [] || !sp(r[|r| - 1])
  {
    if s != [] && sp(s[|s| - 1]) then TrimEnd(s[..|s| - 1], sp) else s
  }

  /** TrimStart removes a whitespace prefix and keeps the rest. */
  lemma {:induction false} TrimStartSuffix(s: string, sp: char -> bool)
    ensures var r := TrimStart(s, sp);
      r == s[|s| - |r|..] && AllSpace(s[..|s| - |r|], sp)
  {
    if s != [] && sp(s[0]) {
      TrimStartSuffix(s[1..], sp);
      var r := TrimStart(s, sp);
      assert s[1..][|s| - 1 - |r|..] == s[|s| - |r|..];
      assert s[..|s| - |r|] == [s[0]] + s[1..][..|s| - 1 - |r|];
    }
  }

  /** TrimEnd removes a whitespace suffix and keeps the rest. */
  lemma {:induction false} TrimEndPrefix(s: string, sp: char -> bool)
    ensures var r := TrimEnd(s, sp);
      r == s[..|r|] && AllSpace(s[|r|..], sp)
  {
    if s != [] && sp(s[|s| - 1]) {
      var t := s[..|s| - 1];
      TrimEndPrefix(t, sp);
      var r := TrimEnd(s, sp);
      assert t[..|r|] == s[..|r|];
      assert s[|r|..] == t[|r|..] + [s[|s| - 1]];
    }
  }

  /** Removes whitespace at both ends. */
  function Trim(s: string, sp: char -> bool): string {
    TrimEnd(TrimStart(s, sp), sp)
  }

  /** JavaScript `s.trim()`. */
  function JsTrim(s: string): string { Trim(s, IsJsSpace) }

  /** Python `s.strip()`. */
  function PyStrip(s: string): string { Trim(s, IsPySpace) }

  /** The trimmed string has no whitespace at either end. */
  lemma TrimEdges(s: string, sp: char -> bool)
    ensures var r := Trim(s, sp); r == [] || (!sp(r[0]) && !sp(r[|r| - 1]))
  {
    var t := TrimStart(s, sp);
    var r := TrimEnd(t, sp);
    TrimEndPrefix(t, sp);
    if r != [] {
      assert r[0] == t[0];
    }
  }

  /** Trimming yields the empty string exactly when the input is all whitespace;
      this is JavaScript's `!s.trim()` test. */
  lemma {:induction false} TrimEmptyIff(s: string, sp: char -> bool)
    ensures Trim(s, sp) == [] <==> AllSpace(s, sp)
  {
    var t := TrimStart(s, sp);
    if AllSpace(s, sp) {
      AllSpaceTrimStart(s, sp);
    } else {
      TrimStartSuffix(s, sp);
      assert s[..|s| - 0] == s;
      assert t != [];
      TrimEndKeepsNonSpaceHead(t, sp);
    }
  }

  lemma {:induction false} AllSpaceTrimStart(s: string, sp: char -> bool)
    requires AllSpace(s, sp)
    ensures TrimStart(s, sp) == []
  {
    if s != [] {
      AllSpaceTrimStart(s[1..], sp);
    }
  }

  lemma {:induction false} TrimEndKeepsNonSpaceHead(t: string, sp: char -> bool)
    requires t != [] && !sp(t[0])
    ensures |TrimEnd(t, sp)| >= 1
  {
    if |t| > 1 && sp(t[|t| - 1]) {
      TrimEndKeepsNonSpaceHead(t[..|t| - 1], sp);
    }
  }

  /** Trimming is idempotent. */
  lemma TrimIdempotent(s: string, sp: char -> bool)
    ensures Trim(Trim(s, sp), sp) == Trim(s, sp)
  {
    TrimEdges(s, sp);
    NoEdgeSpaceTrimFixed(Trim(s, sp), sp);
  }

  /** A string with no whitespace at either end is left unchanged by trimming. */
  lemma NoEdgeSpaceTrimFixed(s: string, sp: char -> bool)
    requires s == [] || (!sp(s[0]) && !sp(s[|s| - 1]))
    ensures Trim(s, sp) == s
  {
  }

  /** The decimal digit character of d. */
  function DigitChar(d: nat): (c: char)
    requires d < 10
    ensures '0' <= c <= '9' && c as int - '0' as int == d
  {
    ('0' as int + d) as char
  }

  /** The value of a string of decimal digits. */
  function DigitsValue(s: string): nat
    requires forall i :: 0 <= i < |s| ==> '0' <= s[i] <= '9'
  {
    if s == [] then 0 else 10 * DigitsValue(s[..|s| - 1]) + (s[|s| - 1] as int - '0' as int)
  }

  /** Decimal rendering of a natural number: non-empty, all digits, no leading zero. */
  function NatToString(n: nat): (r: string)
    ensures |r| >= 1 && forall i :: 0 <= i < |r| ==> '0' <= r[i] <= '9'
    ensures |r| > 1 ==> r[0] != '0'
  {
    if n < 10 then [DigitChar(n)] else NatToString(n / 10) + [DigitChar(n % 10)]
  }

  /** NatToString is decoded back by DigitsValue. */
  lemma {:induction false} NatToStringRoundTrip(n: nat)
    ensures DigitsValue(NatToString(n)) == n
  {
    var s := NatToString(n);
    if n < 10 {
      assert s[..|s| - 1] == [];
    } else {
      NatToStringRoundTrip(n / 10);
      assert s[..|s| - 1] == NatToString(n / 10);
      assert s[|s| - 1] == DigitChar(n % 10);
    }
  }

  /** Decimal rendering of an integer as `${i}` gives it, with a leading '-' for
      negative values. */
  function IntToString(i: int): string {
    if i < 0 then "-" + NatToString(-i) else NatToString(i)
  }
}
