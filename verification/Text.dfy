/** The Python string operations the client code relies on, over ASCII text. */
module Text {

  /** The ASCII characters that str.strip removes. */
  predicate IsSpace(c: char) {
    var n := c as int;
    9 <= n <= 13 || 28 <= n <= 32
  }

  predicate Stripped(s: string) {
    s == "" || (!IsSpace(s[0]) && !IsSpace(s[|s| - 1]))
  }

  function StripLeft(s: string): string {
    if s != "" && IsSpace(s[0]) then StripLeft(s[1..]) else s
  }

  function StripRight(s: string): string {
    if s != "" && IsSpace(s[|s| - 1]) then StripRight(s[..|s| - 1]) else s
  }

  /** str.strip() */
  function Strip(s: string): string {
    StripRight(StripLeft(s))
  }

  lemma StripLeftFacts(s: string)
    ensures StripLeft(s) == "" || !IsSpace(StripLeft(s)[0])
    ensures forall c :: c in StripLeft(s) ==> c in s
  {
  }

  lemma StripRightFacts(s: string)
    ensures StripRight(s) == "" || !IsSpace(StripRight(s)[|StripRight(s)| - 1])
    ensures StripRight(s) != "" ==> s != "" && StripRight(s)[0] == s[0]
    ensures forall c :: c in StripRight(s) ==> c in s
  {
  }

  /** Stripping removes all outer blanks, invents no character, and leaves stripped text alone. */
  lemma StripFacts(s: string)
    ensures Stripped(Strip(s))
    ensures forall c :: c in Strip(s) ==> c in s
    ensures Stripped(s) ==> Strip(s) == s
  {
    StripLeftFacts(s);
    StripRightFacts(StripLeft(s));
  }

  ghost predicate AllSpace(s: string) {
    forall i :: 0 <= i < |s| ==> IsSpace(s[i])
  }

  lemma {:induction false} StripLeftShape(s: string) returns (i: nat)
    ensures i <= |s| && StripLeft(s) == s[i..] && AllSpace(s[..i])
  {
    i := 0;
    if s != "" && IsSpace(s[0]) {
      var k := StripLeftShape(s[1..]);
      i := k + 1;
      assert s[1..][k..] == s[i..];
      forall j | 0 <= j < i ensures IsSpace(s[..i][j]) {
        assert j > 0 ==> s[..i][j] == s[1..][..k][j - 1];
      }
    }
  }

  lemma {:induction false} StripRightShape(s: string) returns (j: nat)
    ensures j <= |s| && StripRight(s) == s[..j] && AllSpace(s[j..])
  {
    j := |s|;
    if s != "" && IsSpace(s[|s| - 1]) {
      var init := s[..|s| - 1];
      j := StripRightShape(init);
      assert init[..j] == s[..j];
      forall k | 0 <= k < |s| - j ensures IsSpace(s[j..][k]) {
        assert k < |s| - j - 1 ==> s[j..][k] == init[j..][k];
      }
    }
  }

  /** Stripping takes away blanks at both ends and nothing else. */
  lemma StripShape(s: string) returns (i: nat, j: nat)
    ensures i <= j <= |s| && Strip(s) == s[i..j] && AllSpace(s[..i]) && AllSpace(s[j..]) && Stripped(s[i..j])
  {
    i := StripLeftShape(s);
    var k := StripRightShape(s[i..]);
    j := i + k;
    assert s[i..][..k] == s[i..j] && s[i..][k..] == s[j..];
    StripFacts(s);
  }

  lemma {:induction false} BlanksAreStripped(blanks: string, rest: string)
    requires AllSpace(blanks) && (rest == "" || !IsSpace(rest[0]))
    ensures StripLeft(blanks + rest) == rest
  {
    if blanks == "" {
      assert blanks + rest == rest;
    } else {
      assert (blanks + rest)[0] == blanks[0] && (blanks + rest)[1..] == blanks[1..] + rest;
      BlanksAreStripped(blanks[1..], rest);
    }
  }

  lemma {:induction false} TailBlanksAreStripped(rest: string, blanks: string)
    requires AllSpace(blanks) && (rest == "" || !IsSpace(rest[|rest| - 1]))
    ensures StripRight(rest + blanks) == rest
  {
    if blanks == "" {
      assert rest + blanks == rest;
    } else {
      var init := blanks[..|blanks| - 1];
      assert (rest + blanks)[..|rest + blanks| - 1] == rest + init;
      TailBlanksAreStripped(rest, init);
    }
  }

  /** Whatever stands between the outer blanks is what stripping leaves. */
  lemma StripBetween(s: string, i: nat, j: nat)
    requires i < j <= |s| && AllSpace(s[..i]) && AllSpace(s[j..]) && Stripped(s[i..j])
    ensures Strip(s) == s[i..j]
  {
    assert s[i..j][0] == s[i] && s[i..j][j - i - 1] == s[j - 1];
    BlanksAreStripped(s[..i], s[i..]);
    assert s[..i] + s[i..] == s;
    TailBlanksAreStripped(s[i..j], s[j..]);
    assert s[i..j] + s[j..] == s[i..];
  }

  /** str.split(c) for a one-character separator; never empty. */
  function Split(s: string, c: char): (pieces: seq<string>)
    ensures |pieces| >= 1
    ensures forall p, x :: p in pieces && x in p ==> x in s && x != c
  {
    if s == "" then [""]
    else
      var rest := Split(s[1..], c);
      if s[0] == c then [""] + rest else [[s[0]] + rest[0]] + rest[1..]
  }

  lemma {:induction false} SplitAtFirst(a: string, c: char, rest: string)
    requires c !in a
    ensures Split(a + [c] + rest, c) == [a] + Split(rest, c)
  {
    var s := a + [c] + rest;
    if a == "" {
      assert s[0] == c && s[1..] == rest;
    } else {
      assert s[0] == a[0] && s[1..] == a[1..] + [c] + rest;
      SplitAtFirst(a[1..], c, rest);
      assert [a[0]] + a[1..] == a;
    }
  }

  /** Every separator separates. */
  lemma {:induction false} SplitConcat(a: string, c: char, b: string)
    ensures Split(a + [c] + b, c) == Split(a, c) + Split(b, c)
  {
    var s := a + [c] + b;
    if a == "" {
      assert s[0] == c && s[1..] == b;
    } else {
      assert s[0] == a[0] && s[1..] == a[1..] + [c] + b;
      SplitConcat(a[1..], c, b);
    }
  }

  lemma {:induction false} SplitWhole(a: string, c: char)
    requires c !in a
    ensures Split(a, c) == [a]
  {
    if a != "" {
      SplitWhole(a[1..], c);
      assert [a[0]] + a[1..] == a;
    }
  }

  function UpperChar(c: char): char {
    if 'a' <= c <= 'z' then (c as int - 32) as char else c
  }

  function LowerChar(c: char): char {
    if 'A' <= c <= 'Z' then (c as int + 32) as char else c
  }

  /** str.upper() */
  function Upper(s: string): string {
    seq(|s|, i requires 0 <= i < |s| => UpperChar(s[i]))
  }

  /** str.lower() */
  function Lower(s: string): string {
    seq(|s|, i requires 0 <= i < |s| => LowerChar(s[i]))
  }

  /** separator.join(items) */
  function Join(items: seq<string>, separator: string): string {
    if items == [] then ""
    else if |items| == 1 then items[0]
    else items[0] + separator + Join(items[1..], separator)
  }

  predicate IsDigit(c: char) {
    '0' <= c <= '9'
  }

  predicate AllDigits(s: string) {
    forall c :: c in s ==> IsDigit(c)
  }

  function Digit(d: nat): (c: char)
    requires d < 10
    ensures IsDigit(c) && c as int - '0' as int == d
  {
    (d + '0' as int) as char
  }

  /** str(n) */
  function Decimal(n: nat): (s: string)
    ensures AllDigits(s) && s != ""
  {
    if n < 10 then [Digit(n)] else Decimal(n / 10) + [Digit(n % 10)]
  }

  /** int(s) */
  function Value(s: string): nat
    requires AllDigits(s)
  {
    if s == "" then 0
    else
      assert s[|s| - 1] in s;
      Value(s[..|s| - 1]) * 10 + (s[|s| - 1] as int - '0' as int)
  }

  lemma {:induction false} ValueOfDecimal(n: nat)
    ensures Value(Decimal(n)) == n
  {
    if n >= 10 {
      ValueOfDecimal(n / 10);
      assert Decimal(n)[..|Decimal(n)| - 1] == Decimal(n / 10);
    } else {
      assert Decimal(n)[..|Decimal(n)| - 1] == "";
    }
  }

  /** Different numbers are printed differently. */
  lemma DecimalInjective(m: nat, n: nat)
    requires Decimal(m) == Decimal(n)
    ensures m == n
  {
    ValueOfDecimal(m);
    ValueOfDecimal(n);
  }

  /** A printed number has exactly four digits when it lies between 1000 and 9999. */
  lemma FourDigits(n: nat)
    ensures |Decimal(n)| == 4 <==> 1000 <= n < 10000
    ensures |Decimal(n)| < 4 <==> n < 1000
  {
    if n >= 10 {
      DecimalLength(n);
      if n / 10 >= 10 {
        DecimalLength(n / 10);
        if n / 10 / 10 >= 10 {
          DecimalLength(n / 10 / 10);
          if n / 10 / 10 / 10 >= 10 {
            DecimalLength(n / 10 / 10 / 10);
          }
        }
      }
    }
  }

  lemma DecimalLength(n: nat)
    requires n >= 10
    ensures |Decimal(n)| == |Decimal(n / 10)| + 1
  {
  }

  function DigitValue(c: char): int {
    c as int - '0' as int
  }

  lemma FourDigitValue(s: string)
    requires AllDigits(s) && |s| == 4
    ensures Value(s) ==
      1000 * DigitValue(s[0]) + 100 * DigitValue(s[1]) + 10 * DigitValue(s[2]) + DigitValue(s[3])
    ensures Value(s) < 10000
  {
    assert s[3] in s && s[2] in s && s[1] in s && s[0] in s;
    var t := s[..3];
    var u := t[..2];
    var v := u[..1];
    assert t[2] == s[2] && u[1] == s[1] && v[0] == s[0] && v[..0] == "";
    assert Value(v) == Value(v[..0]) * 10 + DigitValue(v[0]);
    assert Value(u) == Value(v) * 10 + DigitValue(u[1]);
    assert Value(t) == Value(u) * 10 + DigitValue(t[2]);
  }
}
