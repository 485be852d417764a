/** The three Python string builtins the core relies on: `str()` of an
    integer (region ids), `int()` of a string (inline task ids) and
    `str.split` with a one-character separator (the comma-separated task
    list). */
module Text {
  import opened Wrappers

  predicate IsDigit(c: char) {
    '0' <= c <= '9'
  }

  predicate AllDigits(s: string) {
    forall k :: 0 <= k < |s| ==> IsDigit(s[k])
  }

  function DigitChar(d: nat): (c: char)
    requires d < 10
    ensures IsDigit(c)
  {
    ('0' as int + d) as char
  }

  function DigitValue(c: char): (d: nat)
    requires IsDigit(c)
    ensures d < 10
  {
    c as int - '0' as int
  }

  /** `str(n)` for a non-negative integer: its decimal digits. */
  function NatToString(n: nat): (s: string)
    ensures |s| > 0 && AllDigits(s)
  {
    if n < 10 then [DigitChar(n)] else NatToString(n / 10) + [DigitChar(n % 10)]
  }

  /** `str(i)` for any integer. */
  function IntToString(i: int): string {
    if i < 0 then "-" + NatToString(-i) else NatToString(i)
  }

  /** The number a string of decimal digits denotes (leading zeros allowed). */
  function DigitsValue(s: string): nat
    requires AllDigits(s)
  {
    if |s| == 0 then 0 else 10 * DigitsValue(s[..|s| - 1]) + DigitValue(s[|s| - 1])
  }

  /** Reading back the digits written by NatToString gives the number. */
  lemma {:induction false} NatToStringRoundTrip(n: nat)
    ensures DigitsValue(NatToString(n)) == n
  {
    if n >= 10 {
      var s := NatToString(n);
      assert s[..|s| - 1] == NatToString(n / 10);
      NatToStringRoundTrip(n / 10);
    }
  }

  /** Distinct numbers have distinct decimal renderings. */
  lemma NatToStringInjective(m: nat, n: nat)
    ensures NatToString(m) == NatToString(n) ==> m == n
  {
    NatToStringRoundTrip(m);
    NatToStringRoundTrip(n);
  }

  // ---------------------------------------------------------------------
  // int(s), base 10

  /** The ASCII characters Python's `int()` strips around its argument:
      the whitespace characters and the four information separators. */
  predicate IsSpace(c: char) {
    || c == ' ' || c == '\t' || c == '\n' || c == '\r' || c as int == 11 || c as int == 12
    || 28 <= c as int <= 31  // the file, group, record and unit separators
  }

  function TrimStart(s: string): string {
    if |s| > 0 && IsSpace(s[0]) then TrimStart(s[1..]) else s
  }

  function TrimEnd(s: string): string {
    if |s| > 0 && IsSpace(s[|s| - 1]) then TrimEnd(s[..|s| - 1]) else s
  }

  function Strip(s: string): string {
    TrimEnd(TrimStart(s))
  }

  predicate DigitsOrUnderscores(s: string) {
    forall k :: 0 <= k < |s| ==> IsDigit(s[k]) || s[k] == '_'
  }

  /** Digits, where a single `_` may stand between two digits (`1_000`). */
  predicate DigitGroups(s: string) {
    && |s| > 0
    && DigitsOrUnderscores(s)
    && forall k :: 0 <= k < |s| && s[k] == '_' ==>
         0 < k < |s| - 1 && IsDigit(s[k - 1]) && IsDigit(s[k + 1])
  }

  /** The digits of a digit-group string, with the underscores dropped. */
  function RemoveUnderscores(s: string): (t: string)
    ensures '_' !in t
    ensures |t| == |s| - Occurrences(s, '_')
    ensures DigitsOrUnderscores(s) ==> AllDigits(t)
    ensures AllDigits(s) ==> t == s
  {
    if |s| == 0 then ""
    else (if s[0] == '_' then "" else [s[0]]) + RemoveUnderscores(s[1..])
  }

  /** Every character other than `_` is kept, in order: the character at
      position k of s lands at position k minus the underscores before it. */
  lemma RemoveUnderscoresKeepsOthers(s: string)
    ensures forall k :: 0 <= k < |s| && s[k] != '_' ==>
      && Occurrences(s[..k], '_') <= k
      && k - Occurrences(s[..k], '_') < |RemoveUnderscores(s)|
      && RemoveUnderscores(s)[k - Occurrences(s[..k], '_')] == s[k]
  {
    forall k | 0 <= k < |s| && s[k] != '_'
      ensures && Occurrences(s[..k], '_') <= k
              && k - Occurrences(s[..k], '_') < |RemoveUnderscores(s)|
              && RemoveUnderscores(s)[k - Occurrences(s[..k], '_')] == s[k]
    {
      RemoveUnderscoresAt(s, k);
    }
  }

  lemma {:induction false} RemoveUnderscoresAt(s: string, k: nat)
    requires k < |s| && s[k] != '_'
    ensures Occurrences(s[..k], '_') <= k
    ensures k - Occurrences(s[..k], '_') < |RemoveUnderscores(s)|
    ensures RemoveUnderscores(s)[k - Occurrences(s[..k], '_')] == s[k]
  {
    var head: string := if s[0] == '_' then "" else [s[0]];
    assert RemoveUnderscores(s) == head + RemoveUnderscores(s[1..]);
    if k == 0 {
      assert s[..k] == "";
    } else {
      assert s[1..][k - 1] == s[k];
      RemoveUnderscoresAt(s[1..], k - 1);
      var skipped := if s[0] == '_' then 1 else 0;
      assert Occurrences(s[..k], '_') == skipped + Occurrences(s[1..][..k - 1], '_') by {
        assert s[..k][0] == s[0];
        assert s[..k][1..] == s[1..][..k - 1];
      }
      assert |head| + skipped == 1;
    }
  }

  /** `int("1_000") == 1000`: a single underscore between digit groups is
      allowed and ignored. */
  lemma GroupedDigitsExample()
    ensures ParseInt("1_000") == Some(1000)
  {
    var s := "1_000";
    StripDigitsEnd(s);
    GroupedDigitsShape();
    GroupedDigitsValue();
  }

  lemma GroupedDigitsShape()
    ensures DigitGroups("1_000")
    ensures RemoveUnderscores("1_000") == "1000"
  {
    var s := "1_000";
    assert s[1..] == "_000";
    assert s[1..][1..] == "000";
    assert RemoveUnderscores("000") == "000";
  }

  lemma GroupedDigitsValue()
    ensures DigitsValue("1000") == 1000
  {
    assert "1000"[..3] == "100";
    assert "100"[..2] == "10";
    assert "10"[..1] == "1";
    assert "1"[..0] == "";
  }

  /** `int(s)`: surrounding whitespace, then an optional sign, then digit
      groups. None where Python raises ValueError. */
  function ParseInt(s: string): Option<int> {
    var t := Strip(s);
    if |t| > 0 && (t[0] == '-' || t[0] == '+') then
      if DigitGroups(t[1..]) then
        var v: int := DigitsValue(RemoveUnderscores(t[1..]));
        Some(if t[0] == '-' then -v else v)
      else None
    else if DigitGroups(t) then Some(DigitsValue(RemoveUnderscores(t)))
    else None
  }

  lemma StripDigitsEnd(s: string)
    requires |s| > 0 && !IsSpace(s[0]) && !IsSpace(s[|s| - 1])
    ensures Strip(s) == s
  {
  }

  /** `int(str(i)) == i` for every integer. */
  lemma ParseIntOfIntToString(i: int)
    ensures ParseInt(IntToString(i)) == Some(i)
  {
    var digits := if i < 0 then NatToString(-i) else NatToString(i);
    NatToStringRoundTrip(if i < 0 then -i else i);
    var s := IntToString(i);
    assert s[|s| - 1] == digits[|digits| - 1];
    StripDigitsEnd(s);
    if i < 0 {
      assert s[1..] == digits;
    }
  }

  /** `int("")` and `int("  ")` raise: an empty piece of a split is never an id. */
  lemma ParseIntRejectsBlank(s: string)
    requires forall k :: 0 <= k < |s| ==> IsSpace(s[k])
    ensures ParseInt(s) == None
  {
    assert |TrimStart(s)| == 0 by { TrimStartOfBlank(s); }
  }

  lemma {:induction false} TrimStartOfBlank(s: string)
    requires forall k :: 0 <= k < |s| ==> IsSpace(s[k])
    ensures TrimStart(s) == ""
  {
    if |s| > 0 {
      TrimStartOfBlank(s[1..]);
    }
  }

  // ---------------------------------------------------------------------
  // s.split(sep)

  /** `s.split(sep)` for a one-character separator: the pieces between
      occurrences of sep, so k separators give k + 1 pieces. */
  function Split(s: string, sep: char): (parts: seq<string>)
    ensures |parts| > 0
    ensures forall k :: 0 <= k < |parts| ==> sep !in parts[k]
  {
    if |s| == 0 then [""]
    else
      var rest := Split(s[1..], sep);
      if s[0] == sep then [""] + rest
      else [[s[0]] + rest[0]] + rest[1..]
  }

  /** `sep.join(parts)`. */
  function Join(parts: seq<string>, sep: char): string
    requires |parts| > 0
  {
    if |parts| == 1 then parts[0] else parts[0] + [sep] + Join(parts[1..], sep)
  }

  function Occurrences(s: string, c: char): nat {
    if |s| == 0 then 0 else (if s[0] == c then 1 else 0) + Occurrences(s[1..], c)
  }

  /** A string with k separators splits into exactly k + 1 pieces. */
  lemma {:induction false} SplitPieceCount(s: string, sep: char)
    ensures |Split(s, sep)| == Occurrences(s, sep) + 1
  {
    if |s| > 0 {
      SplitPieceCount(s[1..], sep);
    }
  }

  /** Joining the pieces with the separator restores the string. */
  lemma {:induction false} JoinSplit(s: string, sep: char)
    ensures Join(Split(s, sep), sep) == s
  {
    if |s| > 0 {
      var rest := Split(s[1..], sep);
      JoinSplit(s[1..], sep);
      if s[0] == sep {
        assert Split(s, sep)[1..] == rest;
      } else {
        var parts := Split(s, sep);
        if |rest| > 1 {
          assert parts[1..] == rest[1..];
        }
      }
    }
  }

  lemma {:induction false} SplitNoSeparator(a: string, sep: char)
    requires sep !in a
    ensures Split(a, sep) == [a]
  {
    if |a| > 0 {
      SplitNoSeparator(a[1..], sep);
      assert [a[0]] + a[1..] == a;
    }
  }

  lemma {:induction false} SplitAfterPiece(a: string, b: string, sep: char)
    requires sep !in a
    ensures Split(a + [sep] + b, sep) == [a] + Split(b, sep)
  {
    if |a| == 0 {
      assert a + [sep] + b == [sep] + b;
      assert ([sep] + b)[1..] == b;
    } else {
      assert (a + [sep] + b)[1..] == a[1..] + [sep] + b;
      SplitAfterPiece(a[1..], b, sep);
      assert [a[0]] + a[1..] == a;
    }
  }

  /** Splitting a join of separator-free pieces gives the pieces back: the
      inline id list "7,8,9" splits into exactly "7", "8", "9". */
  lemma {:induction false} SplitJoin(parts: seq<string>, sep: char)
    requires |parts| > 0
    requires forall k :: 0 <= k < |parts| ==> sep !in parts[k]
    ensures Split(Join(parts, sep), sep) == parts
  {
    if |parts| == 1 {
      SplitNoSeparator(parts[0], sep);
    } else {
      SplitJoin(parts[1..], sep);
      SplitAfterPiece(parts[0], Join(parts[1..], sep), sep);
      assert [parts[0]] + parts[1..] == parts;
    }
  }
}
