/**
 Decimal numerals and separator-joined strings, as produced by template literals and
 Array.join and taken apart again by String.split and Number.
 */
module Text {
  datatype Option<+T> = None | Some(value: T)

  // ------------------------------------------------------------------- numerals

  predicate IsDigit(c: char) {
    '0' <= c <= '9'
  }

  predicate AllDigits(s: string) {
    forall i :: 0 <= i < |s| ==> IsDigit(s[i])
  }

  function DigitChar(d: int): (c: char)
    requires 0 <= d < 10
    ensures IsDigit(c)
  {
    '0' + d as char
  }

  function DigitValue(c: char): (d: int)
    requires IsDigit(c)
    ensures 0 <= d < 10
  {
    c as int - '0' as int
  }

  /** The decimal numeral of a natural number, without leading zeros. */
  function Numeral(n: nat): (s: string)
    ensures |s| > 0 && AllDigits(s)
    ensures s[0] == '0' ==> s == "0"
  {
    if n < 10 then [DigitChar(n)] else Numeral(n / 10) + [DigitChar(n % 10)]
  }

  function ValueOf(s: string): nat
    requires AllDigits(s)
  {
    if s == "" then 0 else 10 * ValueOf(s[..|s| - 1]) + DigitValue(s[|s| - 1])
  }

  /** Reading a numeral back gives the number. */
  lemma {:induction false} NumeralRoundTrip(n: nat)
    ensures ValueOf(Numeral(n)) == n
  {
    if n >= 10 {
      var s := Numeral(n);
      assert s[..|s| - 1] == Numeral(n / 10);
      NumeralRoundTrip(n / 10);
    } else {
      assert Numeral(n)[..0] == "";
    }
  }

  /** A digit string without a superfluous leading zero is the numeral of its value. */
  lemma {:induction false} CanonicalNumeral(s: string)
    requires s != "" && AllDigits(s)
    requires s[0] == '0' ==> |s| == 1
    ensures Numeral(ValueOf(s)) == s
  {
    var front := s[..|s| - 1];
    if |s| == 1 {
      assert front == "";
      assert s == [s[0]];
    } else {
      assert front[0] == s[0];
      CanonicalNumeral(front);
      PositiveValue(front);
      assert s == front + [s[|s| - 1]];
    }
  }

  lemma {:induction false} PositiveValue(s: string)
    requires s != "" && AllDigits(s) && s[0] != '0'
    ensures ValueOf(s) > 0
  {
    if |s| > 1 {
      PositiveValue(s[..|s| - 1]);
    }
  }

  /** A template literal applied to an integer. */
  function IntText(n: int): string {
    if n < 0 then "-" + Numeral(-n) else Numeral(n)
  }

  /** String(n).padStart(2, '0') */
  function PadStart2(s: string): string {
    if |s| == 0 then "00" else if |s| == 1 then "0" + s else s
  }

  /** Two digits are the padded numeral of their value. */
  lemma PaddedNumeral(s: string)
    requires |s| == 2 && AllDigits(s)
    ensures PadStart2(Numeral(ValueOf(s))) == s
    ensures ValueOf(s) < 100
  {
    assert s[..1][..0] == "";
    assert ValueOf(s[..1]) == DigitValue(s[0]);
    assert s == [s[0], s[1]];
    if s[0] != '0' {
      CanonicalNumeral(s);
    }
  }

  lemma PaddedRoundTrip(n: nat)
    requires n < 100
    ensures AllDigits(PadStart2(Numeral(n))) && |PadStart2(Numeral(n))| == 2
    ensures ValueOf(PadStart2(Numeral(n))) == n
  {
    NumeralRoundTrip(n);
    if n < 10 {
      var s := "0" + Numeral(n);
      assert s[..1] == "0" && s[..1][..0] == "";
      assert ValueOf(s) == 10 * ValueOf(s[..1]) + DigitValue(s[1]);
    }
  }

  /** Number(s) for a blank string or a digit string; None stands for NaN. */
  function NumberOf(s: string): Option<int> {
    if AllDigits(s) then Some(ValueOf(s)) else None
  }

  // ------------------------------------------------------------- split and join

  /** parts.join(sep) */
  function Join(parts: seq<string>, sep: char): string {
    if parts == [] then ""
    else if |parts| == 1 then parts[0]
    else parts[0] + [sep] + Join(parts[1..], sep)
  }

  /** s.split(sep) */
  function Split(s: string, sep: char): (parts: seq<string>)
    ensures parts != []
    ensures forall i :: 0 <= i < |parts| ==> sep !in parts[i]
  {
    if s == "" then [""]
    else if s[0] == sep then [""] + Split(s[1..], sep)
    else var rest := Split(s[1..], sep); [[s[0]] + rest[0]] + rest[1..]
  }

  lemma JoinOfThree(a: string, b: string, c: string, sep: char)
    ensures Join([a, b, c], sep) == a + [sep] + b + [sep] + c
  {
    assert [a, b, c][1..] == [b, c] && [b, c][1..] == [c];
    assert Join([b, c], sep) == b + [sep] + Join([c], sep);
    assert a + [sep] + (b + [sep] + c) == a + [sep] + b + [sep] + c;
  }

  /** Splitting a joined text gives the parts back when no part holds the separator. */
  lemma {:induction false} SplitJoin(parts: seq<string>, sep: char)
    requires parts != []
    requires forall i :: 0 <= i < |parts| ==> sep !in parts[i]
    ensures Split(Join(parts, sep), sep) == parts
  {
    if |parts| == 1 {
      SplitWhole(parts[0], sep);
    } else {
      SplitJoin(parts[1..], sep);
      SplitPrefix(parts[0], Join(parts[1..], sep), sep);
    }
  }

  lemma {:induction false} SplitWhole(s: string, sep: char)
    requires sep !in s
    ensures Split(s, sep) == [s]
  {
    if s != "" {
      SplitWhole(s[1..], sep);
      assert s[0] in s;
      assert s == [s[0]] + s[1..];
    }
  }

  lemma {:induction false} SplitPrefix(head: string, tail: string, sep: char)
    requires sep !in head
    ensures Split(head + [sep] + tail, sep) == [head] + Split(tail, sep)
  {
    var s := head + [sep] + tail;
    if head == "" {
      assert s[1..] == tail;
    } else {
      assert s[1..] == head[1..] + [sep] + tail;
      SplitPrefix(head[1..], tail, sep);
      assert head[0] in head;
      assert head == [head[0]] + head[1..];
      assert Split(s, sep) == [[head[0]] + head[1..]] + Split(tail, sep);
    }
  }
}
