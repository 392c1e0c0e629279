/** String operations of JavaScript the pages rely on: `<` on strings,
    `includes`, `startsWith`, `trim`, `toLowerCase`, `String(n)` and
    `padStart(2, "0")`. Strings are sequences of characters; JavaScript
    compares UTF-16 code units, which agree with Dafny's character order on
    the ASCII text these comparisons meet. */
module Text {

  /** JavaScript's `a < b` on strings: lexicographic, a proper prefix first. */
  predicate StrLess(a: string, b: string)
    decreases |a|
  {
    if b == [] then false
    else if a == [] then true
    else if a[0] != b[0] then a[0] < b[0]
    else StrLess(a[1..], b[1..])
  }

  /** One unfolding of `StrLess` on two non-empty strings. */
  lemma StrLessStep(a: string, b: string)
    requires a != [] && b != []
    ensures StrLess(a, b) <==> a[0] < b[0] || (a[0] == b[0] && StrLess(a[1..], b[1..]))
  {
  }

  /** No string is less than itself, so `startTime >= endTime` rejects equal times. */
  lemma {:induction false} StrLessIrreflexive(a: string)
    ensures !StrLess(a, a)
    decreases |a|
  {
    if a != [] {
      StrLessIrreflexive(a[1..]);
    }
  }

  /** Of two different strings exactly one is less than the other. */
  lemma {:induction false} StrLessTrichotomy(a: string, b: string)
    ensures a == b || StrLess(a, b) || StrLess(b, a)
    ensures !(StrLess(a, b) && StrLess(b, a))
    decreases |a|
  {
    if a != [] && b != [] && a[0] == b[0] {
      StrLessTrichotomy(a[1..], b[1..]);
      if a[1..] == b[1..] {
        assert a == [a[0]] + a[1..] && b == [b[0]] + b[1..];
      }
    }
  }

  predicate IsDigit(c: char) { '0' <= c <= '9' }

  function DigitValue(c: char): nat
    requires IsDigit(c)
  {
    (c as int) - ('0' as int)
  }

  /** A time of day as an `<input type="time">` yields it: "HH:MM", minutes below 60. */
  predicate IsClockTime(t: string) {
    |t| == 5 && IsDigit(t[0]) && IsDigit(t[1]) && t[2] == ':' && IsDigit(t[3]) && IsDigit(t[4])
    && DigitValue(t[3]) < 6
  }

  function MinutesOf(t: string): nat
    requires IsClockTime(t)
  {
    (DigitValue(t[0]) * 10 + DigitValue(t[1])) * 60 + DigitValue(t[3]) * 10 + DigitValue(t[4])
  }

  /** On "HH:MM" strings the lexicographic comparison is the order of the
      times of day, so comparing the raw strings is a sound time check. */
  lemma ClockStrLessIsTimeOrder(a: string, b: string)
    requires IsClockTime(a) && IsClockTime(b)
    ensures StrLess(a, b) <==> MinutesOf(a) < MinutesOf(b)
  {
    StrLessStep(a, b);
    StrLessStep(a[1..], b[1..]);
    StrLessStep(a[2..], b[2..]);
    StrLessStep(a[3..], b[3..]);
    StrLessStep(a[4..], b[4..]);
    assert a[1..][1..] == a[2..] && b[1..][1..] == b[2..];
    assert a[2..][1..] == a[3..] && b[2..][1..] == b[3..];
    assert a[3..][1..] == a[4..] && b[3..][1..] == b[4..];
    assert a[4..][1..] == [] && b[4..][1..] == [];
  }

  predicate HasPrefix(s: string, prefix: string) {
    |prefix| <= |s| && s[..|prefix|] == prefix
  }

  /** `hay.includes(needle)`. */
  predicate Contains(hay: string, needle: string)
    decreases |hay|
  {
    HasPrefix(hay, needle) || (hay != [] && Contains(hay[1..], needle))
  }

  /** Every string contains itself and the empty string. */
  lemma ContainsSelf(s: string)
    ensures Contains(s, s) && Contains(s, "")
  {
    assert s[..|s|] == s;
  }

  /** No string contains a longer one. */
  lemma {:induction false} ContainsLonger(hay: string, needle: string)
    requires |needle| > |hay|
    ensures !Contains(hay, needle)
    decreases |hay|
  {
    if hay != [] {
      ContainsLonger(hay[1..], needle);
    }
  }

  /** The whitespace `String.prototype.trim` removes, restricted to the
      ASCII and no-break spaces. */
  predicate IsSpace(c: char) {
    c == ' ' || c == '\t' || c == '\n' || c == '\r' || c == '\U{000B}' || c == '\U{000C}'
    || c == '\U{00A0}' || c == '\U{FEFF}'
  }

  function TrimStart(s: string): (r: string)
    ensures |r| <= |s| && r == s[|s| - |r|..]
    ensures r != [] ==> !IsSpace(r[0])
    decreases |s|
  {
    if s != [] && IsSpace(s[0]) then TrimStart(s[1..]) else s
  }

  function TrimEnd(s: string): (r: string)
    ensures |r| <= |s| && r == s[..|r|]
    ensures r != [] ==> !IsSpace(r[|r| - 1])
    decreases |s|
  {
    if s != [] && IsSpace(s[|s| - 1]) then TrimEnd(s[..|s| - 1]) else s
  }

  /** `s.trim()`. */
  function Trim(s: string): (r: string)
    ensures r != [] ==> !IsSpace(r[0]) && !IsSpace(r[|r| - 1])
  {
    var e := TrimEnd(s);
    var t := TrimStart(e);
    assert t != [] ==> t[|t| - 1] == e[|e| - 1];
    t
  }

  /** A string made only of spaces trims to the empty string. */
  lemma {:induction false} TrimAllSpaces(s: string)
    requires forall i :: 0 <= i < |s| ==> IsSpace(s[i])
    ensures Trim(s) == ""
  {
    TrimEndAllSpaces(s);
  }

  lemma {:induction false} TrimEndAllSpaces(s: string)
    requires forall i :: 0 <= i < |s| ==> IsSpace(s[i])
    ensures TrimEnd(s) == ""
    decreases |s|
  {
    if s != [] {
      TrimEndAllSpaces(s[..|s| - 1]);
    }
  }

  function LowerChar(c: char): char {
    if 'A' <= c <= 'Z' then ((c as int) + 32) as char else c
  }

  /** `s.toLowerCase()` on the ASCII letters; other characters are kept. */
  function ToLower(s: string): (r: string)
    ensures |r| == |s|
    ensures forall i :: 0 <= i < |s| ==> r[i] == LowerChar(s[i])
    decreases |s|
  {
    if s == [] then [] else [LowerChar(s[0])] + ToLower(s[1..])
  }

  function DigitChar(d: nat): (c: char)
    requires d < 10
    ensures IsDigit(c) && DigitValue(c) == d
  {
    (('0' as int) + d) as char
  }

  /** `String(n)` for a natural number: its decimal digits, no leading zero. */
  function NatToString(n: nat): (r: string)
    ensures |r| >= 1
    ensures forall i :: 0 <= i < |r| ==> IsDigit(r[i])
    decreases n
  {
    if n < 10 then [DigitChar(n)] else NatToString(n / 10) + [DigitChar(n % 10)]
  }

  /** `String(n)` for an integer. */
  function IntToString(n: int): string {
    if n < 0 then "-" + NatToString(-n) else NatToString(n)
  }

  /** The number a string of decimal digits denotes. */
  function DecimalValue(s: string): nat
    requires forall i :: 0 <= i < |s| ==> IsDigit(s[i])
    decreases |s|
  {
    if s == [] then 0 else DecimalValue(s[..|s| - 1]) * 10 + DigitValue(s[|s| - 1])
  }

  /** Reading back the digits `String(n)` produced gives `n`. */
  lemma {:induction false} NatToStringRoundTrip(n: nat)
    ensures DecimalValue(NatToString(n)) == n
    decreases n
  {
    var r := NatToString(n);
    if n >= 10 {
      NatToStringRoundTrip(n / 10);
      assert r[..|r| - 1] == NatToString(n / 10);
    }
  }

  /** `String(n)` has exactly as many digits as the decimal range of `n` says. */
  lemma {:induction false} NatToStringLength(n: nat)
    ensures n < 10 ==> |NatToString(n)| == 1
    ensures 10 <= n < 100 ==> |NatToString(n)| == 2
    ensures 1000 <= n < 10000 ==> |NatToString(n)| == 4
    decreases n
  {
    if n >= 10 {
      NatToStringLength(n / 10);
      if n >= 1000 {
        NatToStringLength(n / 100);
        NatToStringLength(n / 1000);
      }
    }
  }

  /** `String(n).padStart(2, "0")`. */
  function Pad2(n: nat): (r: string)
  {
    var s := NatToString(n);
    if |s| < 2 then "0" + s else s
  }

  /** Below 100 the padded form has two digits and reads back as `n`. */
  lemma Pad2RoundTrip(n: nat)
    requires n < 100
    ensures |Pad2(n)| == 2
    ensures forall i :: 0 <= i < 2 ==> IsDigit(Pad2(n)[i])
    ensures DecimalValue(Pad2(n)) == n
  {
    NatToStringLength(n);
    NatToStringRoundTrip(n);
    var s := NatToString(n);
    if n < 10 {
      var p := "0" + s;
      assert p[..1] == "0";
      assert DecimalValue(p[..1]) == 0 by {
        assert p[..1][..0] == [];
      }
    }
  }
}
