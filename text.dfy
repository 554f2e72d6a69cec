/**
 * The handful of Python string operations the converters rely on: ASCII
 * lower-casing, decimal formatting (str(n) and f"{n:02}"), int() on a
 * string, str.split with a one-character separator, str.join and
 * str.replace(c, "").
 */
module Text {
  import opened Wrappers

  // ---------------------------------------------------------------------
  // Case

  /** str.lower() on one character, for the ASCII letters. */
  function LowerChar(c: char): char {
    if 'A' <= c <= 'Z' then (c as int + 32) as char else c
  }

  /** str.lower(), for the ASCII letters. */
  function Lower(s: string): string {
    seq(|s|, i requires 0 <= i < |s| => LowerChar(s[i]))
  }

  // ---------------------------------------------------------------------
  // Decimal formatting

  predicate IsDigit(c: char) {
    '0' <= c <= '9'
  }

  predicate AllDigits(s: string) {
    forall i :: 0 <= i < |s| ==> IsDigit(s[i])
  }

  /** Text made only of digits and minus signs: it holds no letter and no separator. */
  predicate Numeric(s: string) {
    forall i :: 0 <= i < |s| ==> IsDigit(s[i]) || s[i] == '-'
  }

  function DigitChar(d: nat): char
    requires d < 10
  {
    ('0' as int + d) as char
  }

  /** The decimal digits of n, without leading zeros. */
  function Digits(n: nat): string
    decreases n
  {
    if n < 10 then [DigitChar(n)] else Digits(n / 10) + [DigitChar(n % 10)]
  }

  /** str(n) */
  function Str(n: int): string {
    if n < 0 then "-" + Digits(-n) else Digits(n)
  }

  /** s preceded by as many '0' as it takes to be width characters long. */
  function ZeroPad(s: string, width: nat): string
    decreases width - |s|
  {
    if |s| >= width then s else ZeroPad("0" + s, width)
  }

  /**
   * f"{n:0<width>}": the zero padding goes between the sign and the digits,
   * and the sign counts towards the width (f"{-5:02}" is "-5").
   */
  function Pad(n: int, width: nat): string {
    if n < 0 then "-" + ZeroPad(Digits(-n), if width > 0 then width - 1 else 0)
    else ZeroPad(Digits(n), width)
  }

  // ---------------------------------------------------------------------
  // Parsing

  /** The number a string of decimal digits denotes. */
  function Value(s: string): nat
    requires AllDigits(s)
    decreases |s|
  {
    if s == [] then 0 else Value(s[..|s| - 1]) * 10 + (s[|s| - 1] as int - '0' as int)
  }

  /**
   * int(s) for an optional sign followed by ASCII digits; None stands for
   * the ValueError int() raises on anything else.
   */
  function ParseInt(s: string): Option<int> {
    if |s| >= 2 && s[0] == '-' && AllDigits(s[1..]) then Some(-(Value(s[1..]) as int))
    else if |s| >= 2 && s[0] == '+' && AllDigits(s[1..]) then Some(Value(s[1..]))
    else if |s| >= 1 && AllDigits(s) then Some(Value(s))
    else None
  }

  lemma {:induction false} DigitsValue(n: nat)
    ensures |Digits(n)| > 0 && AllDigits(Digits(n)) && Value(Digits(n)) == n
    decreases n
  {
    if n >= 10 {
      DigitsValue(n / 10);
      var s := Digits(n);
      assert s[..|s| - 1] == Digits(n / 10);
    }
  }

  lemma {:induction false} LeadingZero(s: string)
    requires AllDigits(s)
    ensures AllDigits("0" + s) && Value("0" + s) == Value(s)
    decreases |s|
  {
    if s != [] {
      var t := "0" + s;
      assert t[..|t| - 1] == "0" + s[..|s| - 1];
      LeadingZero(s[..|s| - 1]);
    }
  }

  lemma {:induction false} ZeroPadValue(s: string, width: nat)
    requires AllDigits(s) && |s| > 0
    ensures AllDigits(ZeroPad(s, width)) && Value(ZeroPad(s, width)) == Value(s)
    ensures |ZeroPad(s, width)| == if |s| >= width then |s| else width
    decreases width - |s|
  {
    if |s| < width {
      LeadingZero(s);
      ZeroPadValue("0" + s, width);
    }
  }

  /** int() reads back any integer written with f"{n:0<width>}". */
  lemma ParsePad(n: int, width: nat)
    ensures ParseInt(Pad(n, width)) == Some(n)
    ensures Numeric(Pad(n, width))
    ensures |Pad(n, width)| >= width
  {
    if n < 0 {
      var w := if width > 0 then width - 1 else 0;
      var digits := ZeroPad(Digits(-n), w);
      DigitsValue(-n);
      ZeroPadValue(Digits(-n), w);
      var s := Pad(n, width);
      assert s == "-" + digits;
      assert s[1..] == digits;
      assert |s| >= 2 && s[0] == '-' && AllDigits(s[1..]);
    } else {
      var s := ZeroPad(Digits(n), width);
      DigitsValue(n);
      ZeroPadValue(Digits(n), width);
      assert |s| >= 1 && IsDigit(s[0]);
      assert ParseInt(s) == Some(Value(s));
    }
  }

  /** int(str(n)) == n */
  lemma ParseStr(n: int)
    ensures ParseInt(Str(n)) == Some(n)
    ensures Numeric(Str(n))
  {
    ParsePad(n, 0);
    if n < 0 {
      DigitsValue(-n);
      assert Pad(n, 0) == Str(n);
    } else {
      DigitsValue(n);
      assert Pad(n, 0) == Str(n);
    }
  }

  /** f"{n:02}" for 0 <= n < 100 is exactly two digits. */
  lemma TwoDigits(n: int)
    requires 0 <= n < 100
    ensures |Pad(n, 2)| == 2 && AllDigits(Pad(n, 2)) && Value(Pad(n, 2)) == n
  {
    DigitsValue(n);
    ZeroPadValue(Digits(n), 2);
    if n >= 10 {
      assert Digits(n / 10) == [DigitChar(n / 10)];
    }
  }

  /** The value of a digit string followed by two more digits. */
  lemma ValueTwoMore(a: string, b: string)
    requires AllDigits(a) && AllDigits(b) && |b| == 2
    ensures AllDigits(a + b) && Value(a + b) == Value(a) * 100 + Value(b)
  {
    var s := a + b;
    var d0, d1 := b[0] as int - '0' as int, b[1] as int - '0' as int;
    var v := Value(a);
    assert AllDigits(s);
    assert s[..|s| - 1] == a + [b[0]];
    assert (a + [b[0]])[..|a|] == a;
    assert Value(a + [b[0]]) == v * 10 + d0;
    assert Value(s) == (v * 10 + d0) * 10 + d1;
    assert b[..1] == [b[0]] && [b[0]][..0] == [];
    assert Value([b[0]]) == d0;
    assert Value(b) == d0 * 10 + d1;
  }

  // ---------------------------------------------------------------------
  // Split, join and replace

  /** s.split(sep) for a one-character separator. */
  function Split(s: string, sep: char): (parts: seq<string>)
    ensures |parts| >= 1
    decreases |s|
  {
    if s == [] then [""] else SplitStep(Split(s[..|s| - 1], sep), s[|s| - 1], sep)
  }

  /** One more character opens a new piece when it is the separator, and extends the last piece otherwise. */
  function SplitStep(init: seq<string>, x: char, sep: char): (parts: seq<string>)
    ensures |parts| >= 1
  {
    if x == sep then init + [""]
    else if init == [] then [[x]]
    else init[..|init| - 1] + [init[|init| - 1] + [x]]
  }

  /** sep.join(parts) */
  function Join(parts: seq<string>, sep: string): string {
    if parts == [] then ""
    else if |parts| == 1 then parts[0]
    else Join(parts[..|parts| - 1], sep) + sep + parts[|parts| - 1]
  }

  /** s.replace(c, "") */
  function Remove(s: string, c: char): string
    decreases |s|
  {
    if s == [] then []
    else Remove(s[..|s| - 1], c) + (if s[|s| - 1] == c then [] else [s[|s| - 1]])
  }

  /** `replace(c, "")` leaves no `c`, and changes nothing in a text without one. */
  lemma {:induction false} RemoveFree(s: string, c: char)
    ensures c !in Remove(s, c)
    ensures c !in s ==> Remove(s, c) == s
    decreases |s|
  {
    if s != [] {
      var t, x := s[..|s| - 1], s[|s| - 1];
      RemoveFree(t, c);
      LastApart(s);
      RemoveSnoc(t, x, c);
    }
  }

  /** Removing a character from two texts joined is removing it from each. */
  lemma {:induction false} RemoveConcat(a: string, b: string, c: char)
    ensures Remove(a + b, c) == Remove(a, c) + Remove(b, c)
    decreases |b|
  {
    if b != [] {
      var b', x := b[..|b| - 1], b[|b| - 1];
      RemoveConcat(a, b', c);
      LastApart(b);
      ConcatApart(a, b);
      RemoveSnoc(a + b', x, c);
      RemoveSnoc(b', x, c);
    } else {
      assert a + b == a;
    }
  }

  /** One more character is kept unless it is the one removed. */
  lemma {:induction false} RemoveSnoc(t: string, x: char, c: char)
    ensures Remove(t + [x], c) == Remove(t, c) + (if x == c then [] else [x])
  {
    assert (t + [x])[..|t|] == t;
  }

  /** No piece of a split holds the separator. */
  lemma {:induction false} SplitFree(s: string, sep: char)
    ensures forall i :: 0 <= i < |Split(s, sep)| ==> sep !in Split(s, sep)[i]
    decreases |s|
  {
    if s != [] {
      var t, x := s[..|s| - 1], s[|s| - 1];
      SplitFree(t, sep);
      LastApart(s);
      SplitSnoc(t, x, sep);
      var init := Split(t, sep);
      if x != sep {
        assert sep !in init[|init| - 1] + [x];
      }
    }
  }

  /** A non-empty sequence is its front followed by its last element. */
  lemma LastApart<T>(s: seq<T>)
    requires s != []
    ensures s[..|s| - 1] + [s[|s| - 1]] == s
  {
  }

  /** Appending a non-empty sequence is appending its front, then its last element. */
  lemma ConcatApart<T>(a: seq<T>, b: seq<T>)
    requires b != []
    ensures (a + b[..|b| - 1]) + [b[|b| - 1]] == a + b
  {
    LastApart(b);
  }

  /** Joining the pieces of a split with the separator gives the text back. */
  lemma {:induction false} JoinSplit(s: string, sep: char)
    ensures Join(Split(s, sep), [sep]) == s
    decreases |s|
  {
    if s != [] {
      var prefix, c := s[..|s| - 1], s[|s| - 1];
      JoinSplit(prefix, sep);
      JoinSplitSnoc(prefix, c, sep);
      LastApart(s);
    }
  }

  lemma {:induction false} JoinSplitSnoc(prefix: string, c: char, sep: char)
    requires Join(Split(prefix, sep), [sep]) == prefix
    ensures Join(Split(prefix + [c], sep), [sep]) == prefix + [c]
  {
    SplitSnoc(prefix, c, sep);
    JoinStep(Split(prefix, sep), prefix, c, sep);
  }

  /** Joining after one more character, which opens a new piece or extends the last one. */
  lemma {:induction false} JoinStep(init: seq<string>, prefix: string, c: char, sep: char)
    requires |init| >= 1 && Join(init, [sep]) == prefix
    ensures Join(SplitStep(init, c, sep), [sep]) == prefix + [c]
  {
    var parts := SplitStep(init, c, sep);
    if c == sep {
      assert parts == init + [""];
      JoinSnoc(init, "", [sep]);
    } else if |init| == 1 {
      assert parts == [init[0] + [c]] by {
        assert init[..0] + [init[0] + [c]] == [init[0] + [c]];
      }
    } else {
      var front, last := init[..|init| - 1], init[|init| - 1];
      assert parts == front + [last + [c]];
      assert init == front + [last];
      JoinSnoc(front, last, [sep]);
      JoinSnoc(front, last + [c], [sep]);
    }
  }

  /** One more piece is joined after the separator. */
  lemma {:induction false} JoinSnoc(front: seq<string>, last: string, sep: string)
    requires front != []
    ensures Join(front + [last], sep) == Join(front, sep) + sep + last
  {
    assert (front + [last])[..|front|] == front;
  }

  /** A text without the separator is a single piece. */
  lemma {:induction false} SplitWhole(s: string, sep: char)
    requires sep !in s
    ensures Split(s, sep) == [s]
    decreases |s|
  {
    if s != [] {
      SplitWhole(s[..|s| - 1], sep);
      assert s[..|s| - 1] + [s[|s| - 1]] == s;
    }
  }

  /** One more character takes one step of the split. */
  lemma {:induction false} SplitSnoc(t: string, c: char, sep: char)
    ensures Split(t + [c], sep) == SplitStep(Split(t, sep), c, sep)
  {
    assert (t + [c])[..|t|] == t;
  }


  /** Splitting at a separator splits the two sides independently. */
  lemma {:induction false} SplitAt(a: string, b: string, sep: char)
    ensures Split(a + [sep] + b, sep) == Split(a, sep) + Split(b, sep)
    decreases |b|
  {
    if b == [] {
      SplitSnoc(a, sep, sep);
      assert a + [sep] + b == a + [sep];
    } else {
      var b', c := b[..|b| - 1], b[|b| - 1];
      SplitAt(a, b', sep);
      SplitAtStep(a, b', c, sep);
      LastApart(b);
    }
  }

  /** One more character on the right side of the separator. */
  lemma {:induction false} SplitAtStep(a: string, b': string, c: char, sep: char)
    requires Split(a + [sep] + b', sep) == Split(a, sep) + Split(b', sep)
    ensures Split(a + [sep] + (b' + [c]), sep) == Split(a, sep) + Split(b' + [c], sep)
  {
    var t := a + [sep] + b';
    SplitSnocAfter(Split(a, sep), b', t, c, sep);
    assert t + [c] == a + [sep] + (b' + [c]);
  }

  /** The pieces of a text after `left`, extended by one character, as `left` and the pieces of the extended part. */
  lemma {:induction false} SplitSnocAfter(left: seq<string>, b': string, t: string, c: char, sep: char)
    requires Split(t, sep) == left + Split(b', sep)
    ensures Split(t + [c], sep) == left + Split(b' + [c], sep)
  {
    SplitSnoc(t, c, sep);
    SplitSnoc(b', c, sep);
    StepAfter(left, Split(b', sep), c, sep);
  }

  /** A step after the pieces of two texts affects only the pieces of the second. */
  lemma {:induction false} StepAfter(left: seq<string>, right: seq<string>, c: char, sep: char)
    requires |right| >= 1
    ensures SplitStep(left + right, c, sep) == left + SplitStep(right, c, sep)
  {
    var all := left + right;
    if c == sep {
      assert all + [""] == left + (right + [""]);
    } else {
      assert all[..|all| - 1] == left + right[..|right| - 1];
      assert all[|all| - 1] == right[|right| - 1];
    }
  }

  /** Pieces free of the separator survive a join followed by a split. */
  lemma {:induction false} SplitJoin(parts: seq<string>, sep: char)
    requires |parts| >= 1
    requires forall i :: 0 <= i < |parts| ==> sep !in parts[i]
    ensures Split(Join(parts, [sep]), sep) == parts
    decreases |parts|
  {
    if |parts| == 1 {
      SplitWhole(parts[0], sep);
    } else {
      var init, last := parts[..|parts| - 1], parts[|parts| - 1];
      assert forall i :: 0 <= i < |init| ==> init[i] == parts[i];
      SplitJoin(init, sep);
      SplitWhole(last, sep);
      assert Join(parts, [sep]) == Join(init, [sep]) + [sep] + last;
      SplitAt(Join(init, [sep]), last, sep);
      LastApart(parts);
    }
  }
}
