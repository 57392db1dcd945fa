/** Decimal digits of every script, and the two normalizations of credentials. */
module Digits {
  import opened Prelude

  /** The value of each decimal digit, as int() and the digit class of patterns know it. */
  type DigitTable = char -> Option<nat>

  /** Digits have values below ten, and the ASCII digits their own. */
  ghost predicate Decimal(d: DigitTable) {
    && (forall c :: d(c).Some? ==> d(c).value < 10)
    && (forall c :: '0' <= c <= '9' ==> d(c) == Some(c as int - '0' as int))
  }

  function Ascii(v: nat): char {
    if v < 10 then ('0' as int + v) as char else '9'
  }

  /** `normalize_decimal_digits` */
  function AsciiDigits(d: DigitTable, s: string): (r: string)
    ensures |r| == |s|
    ensures forall i :: 0 <= i < |s| ==> r[i] == if d(s[i]).Some? then Ascii(d(s[i]).value) else s[i]
  {
    if s == [] then []
    else [if d(s[0]).Some? then Ascii(d(s[0]).value) else s[0]] + AsciiDigits(d, s[1..])
  }

  predicate AllDigits(d: DigitTable, s: string) {
    s != [] && forall i :: 0 <= i < |s| ==> d(s[i]).Some?
  }

  /** `normalize_password` */
  function NormalizePassword(d: DigitTable, s: string): string {
    if AllDigits(d, s) then AsciiDigits(d, s) else s
  }

  /** `normalize_username` */
  function NormalizeUsername(d: DigitTable, s: string): string {
    NormalizePassword(d, Strip(s))
  }

  /** Two texts normalize alike exactly when they are equal, or all digits of the same values. */
  lemma NormalizeExactly(d: DigitTable, a: string, b: string)
    requires Decimal(d)
    ensures NormalizePassword(d, a) == NormalizePassword(d, b)
       <==> a == b
            || (AllDigits(d, a) && AllDigits(d, b) && |a| == |b| && forall i :: 0 <= i < |a| ==> d(a[i]) == d(b[i]))
  {
    var r, q := NormalizePassword(d, a), NormalizePassword(d, b);
    NormalizeKeepsDigits(d, a);
    NormalizeKeepsDigits(d, b);
    if r == q && AllDigits(d, a) {
      forall i | 0 <= i < |a| ensures d(a[i]) == d(b[i]) { assert d(r[i]) == d(q[i]); }
    }
  }

  /** The normalized text has the same digits, in ASCII, and normalizes to itself. */
  lemma NormalizeKeepsDigits(d: DigitTable, s: string)
    requires Decimal(d)
    ensures var r := NormalizePassword(d, s);
            && |r| == |s| && (AllDigits(d, s) <==> AllDigits(d, r))
            && (forall i :: 0 <= i < |s| ==> d(r[i]) == d(s[i]))
            && NormalizePassword(d, r) == r
  {
    var r := NormalizePassword(d, s);
    if AllDigits(d, s) {
      forall i | 0 <= i < |s| ensures d(r[i]) == d(s[i]) && r[i] == Ascii(d(r[i]).value) {}
      assert NormalizePassword(d, r) == r;
    }
  }

  /** Spaces around a user id do not count. */
  lemma {:induction false} UsernameIgnoresSpaces(d: DigitTable, before: string, s: string, after: string)
    requires forall i :: 0 <= i < |before| ==> IsSpace(before[i])
    requires forall i :: 0 <= i < |after| ==> IsSpace(after[i])
    requires Trimmed(s)
    ensures NormalizeUsername(d, before + s + after) == NormalizePassword(d, s)
  {
    StripAround(before, s, after);
  }

  lemma {:induction false} StripAround(before: string, s: string, after: string)
    requires forall i :: 0 <= i < |before| ==> IsSpace(before[i])
    requires forall i :: 0 <= i < |after| ==> IsSpace(after[i])
    requires Trimmed(s)
    ensures Strip(before + s + after) == s
    decreases |before| + |after|
  {
    var t := before + s + after;
    if before != [] {
      assert t[0] == before[0] && t[1..] == before[1..] + s + after;
      StripAround(before[1..], s, after);
    } else if after != [] {
      var n := |after| - 1;
      assert t[|t| - 1] == after[n] && t[..|t| - 1] == before + s + after[..n];
      assert s != [] ==> t[0] == s[0];
      if IsSpace(t[0]) {
        assert t[1..] == [] + s + after[1..];
        StripAround([], s, after[1..]);
      } else {
        StripAround(before, s, after[..n]);
      }
    } else {
      assert t == s;
    }
  }
}
