/**
 * Free-text normal form, decimal numbers, and text made of labelled, newline-ended fields.
 */
module LabelledText {

  // Text ------------------------------------------------------------------------------

  const NEWLINE: char := '\n'

  /** The characters Go's unicode.IsSpace accepts. */
  predicate IsSpace(c: char) {
    var u := c as int;
    || 9 <= u <= 13 || u == 0x20 || u == 0x85 || u == 0xA0 || u == 0x1680 || 0x2000 <= u <= 0x200A
    || u == 0x2028 || u == 0x2029 || u == 0x202F || u == 0x205F || u == 0x3000
  }

  /** The length of the leading run of non-space characters. */
  function WordLength(s: string): (k: nat)
    ensures k <= |s| && (forall i :: 0 <= i < k ==> !IsSpace(s[i])) && (k < |s| ==> IsSpace(s[k]))
  {
    if s == "" || IsSpace(s[0]) then 0 else 1 + WordLength(s[1..])
  }

  /** The maximal space-free runs of s, in order. */
  function Words(s: string): seq<string>
    decreases |s|
  {
    if s == "" then []
    else if IsSpace(s[0]) then Words(s[1..])
    else [s[..WordLength(s)]] + Words(s[WordLength(s)..])
  }

  function Join(words: seq<string>): string {
    if words == [] then ""
    else if |words| == 1 then words[0]
    else words[0] + " " + Join(words[1..])
  }

  function Normalize(s: string): string {
    Join(Words(s))
  }

  predicate IsWord(w: string) {
    w != "" && forall i :: 0 <= i < |w| ==> !IsSpace(w[i])
  }

  lemma {:induction false} WordsAreWords(s: string)
    ensures forall k :: 0 <= k < |Words(s)| ==> IsWord(Words(s)[k])
    decreases |s|
  {
    if s == "" {
    } else if IsSpace(s[0]) {
      WordsAreWords(s[1..]);
    } else {
      WordsAreWords(s[WordLength(s)..]);
    }
  }

  lemma {:induction false} WordLengthOf(w: string, rest: string)
    requires IsWord(w) && (rest == "" || IsSpace(rest[0]))
    ensures WordLength(w + rest) == |w|
  {
    if |w| > 1 {
      WordLengthOf(w[1..], rest);
      assert (w + rest)[1..] == w[1..] + rest;
    } else {
      assert (w + rest)[1..] == rest;
    }
  }

  /** Splitting what was joined gives the words back. */
  lemma {:induction false} JoinedWordsSplit(words: seq<string>)
    requires forall k :: 0 <= k < |words| ==> IsWord(words[k])
    ensures Words(Join(words)) == words
  {
    if words != [] {
      var rest := words[1..];
      var tail := if rest == [] then "" else " " + Join(rest);
      var s := Join(words);
      assert s == words[0] + tail;
      WordLengthOf(words[0], tail);
      assert s[..|words[0]|] == words[0] && s[|words[0]|..] == tail;
      JoinedWordsSplit(rest);
      if rest != [] {
        assert tail[1..] == Join(rest);
        assert Words(tail) == rest;
      }
      assert s[0] == words[0][0];
      assert words == [words[0]] + rest;
    }
  }

  /** Normalizing twice changes nothing, and two texts normalize alike exactly when their words agree. */
  lemma NormalizeIsCanonical(s: string, t: string)
    ensures Normalize(Normalize(s)) == Normalize(s)
    ensures Normalize(s) == Normalize(t) <==> Words(s) == Words(t)
  {
    WordsAreWords(s);
    WordsAreWords(t);
    JoinedWordsSplit(Words(s));
    JoinedWordsSplit(Words(t));
  }

  /** The normal form is one line whose only white space is single blanks between words. */
  lemma NormalizeIsOneLine(s: string)
    ensures NEWLINE !in Normalize(s)
    ensures var n := Normalize(s); forall i :: 0 <= i < |n| && IsSpace(n[i]) ==>
              n[i] == ' ' && 0 < i < |n| - 1 && !IsSpace(n[i - 1]) && !IsSpace(n[i + 1])
  {
    WordsAreWords(s);
    JoinedIsOneLine(Words(s));
  }

  predicate SingleBlanks(n: string) {
    forall i :: 0 <= i < |n| && IsSpace(n[i]) ==>
      n[i] == ' ' && 0 < i < |n| - 1 && !IsSpace(n[i - 1]) && !IsSpace(n[i + 1])
  }

  lemma {:induction false} JoinedIsOneLine(words: seq<string>)
    requires forall k :: 0 <= k < |words| ==> IsWord(words[k])
    ensures SingleBlanks(Join(words)) && (words != [] ==> Join(words) != "" && !IsSpace(Join(words)[0]))
  {
    if |words| > 1 {
      JoinedIsOneLine(words[1..]);
      var w, rest, n := words[0], Join(words[1..]), Join(words);
      assert n == w + " " + rest;
      forall i | 0 <= i < |n| && IsSpace(n[i])
        ensures n[i] == ' ' && 0 < i < |n| - 1 && !IsSpace(n[i - 1]) && !IsSpace(n[i + 1])
      {
        assert i >= |w|;
        if i > |w| {
          var j := i - |w| - 1;
          assert n[i] == rest[j] && n[i - 1] == (if j == 0 then ' ' else rest[j - 1]);
          assert n[i + 1] == rest[j + 1];
        }
      }
    }
  }

  // Numbers ---------------------------------------------------------------------------

  function Digit(d: nat): char
    requires d < 10
  {
    (d + 48) as char
  }

  function Digits(n: nat): string {
    if n < 10 then [Digit(n)] else Digits(n / 10) + [Digit(n % 10)]
  }

  function Decimal(n: int): string {
    if n < 0 then "-" + Digits(-n) else Digits(n)
  }

  lemma {:induction false} DigitsAreDigits(n: nat)
    ensures |Digits(n)| > 0 && forall i :: 0 <= i < |Digits(n)| ==> '0' <= Digits(n)[i] <= '9'
  {
    if n >= 10 {
      DigitsAreDigits(n / 10);
    }
  }

  lemma {:induction false} DigitsInjective(m: nat, n: nat)
    requires Digits(m) == Digits(n)
    ensures m == n
  {
    var s, t := Digits(m), Digits(n);
    DigitsAreDigits(m / 10);
    DigitsAreDigits(n / 10);
    assert s[|s| - 1] == Digit(m % 10) && t[|t| - 1] == Digit(n % 10);
    if m >= 10 && n >= 10 {
      assert s[..|s| - 1] == Digits(m / 10) && t[..|t| - 1] == Digits(n / 10);
      DigitsInjective(m / 10, n / 10);
    }
  }

  /** What a string of digits is worth. */
  function ValueOf(s: string): int {
    if s == "" then 0 else ValueOf(s[..|s| - 1]) * 10 + (s[|s| - 1] as int - '0' as int)
  }

  /** Written in digits and read back, a number is itself; and it is written without leading zeros. */
  lemma {:induction false} DigitsReadBack(n: nat)
    ensures ValueOf(Digits(n)) == n
    ensures |Digits(n)| > 1 ==> Digits(n)[0] != '0'
  {
    if n >= 10 {
      DigitsReadBack(n / 10);
      DigitsAreDigits(n / 10);
      assert Digits(n)[..|Digits(n)| - 1] == Digits(n / 10);
    } else {
      assert [Digit(n)][..0] == "";
    }
  }

  lemma DecimalInjective(m: int, n: int)
    requires Decimal(m) == Decimal(n)
    ensures m == n
  {
    DigitsAreDigits(if m < 0 then -m else m);
    DigitsAreDigits(if n < 0 then -n else n);
    assert m >= 0 <==> Decimal(m)[0] != '-';
    assert n >= 0 <==> Decimal(n)[0] != '-';
    if m < 0 && n < 0 {
      assert Decimal(m)[1..] == Digits(-m) && Decimal(n)[1..] == Digits(-n);
      DigitsInjective(-m, -n);
    } else if m >= 0 && n >= 0 {
      DigitsInjective(m, n);
    }
  }

  /** Two decimals after the point. */
  function Hundredths(q: nat): string {
    Digits(q / 100) + "." + [Digit(q / 10 % 10), Digit(q % 10)]
  }

  /** Two decimals are written: the whole part, a point, and the hundredths in two digits. */
  lemma HundredthsReadBack(q: nat)
    ensures var s := Hundredths(q);
      |s| > 3 && s[|s| - 3] == '.' && ValueOf(s[..|s| - 3]) * 100 + ValueOf(s[|s| - 2..]) == q
  {
    var s, whole := Hundredths(q), Digits(q / 100);
    DigitsReadBack(q / 100);
    DigitsAreDigits(q / 100);
    var tail := [Digit(q / 10 % 10), Digit(q % 10)];
    assert s[..|s| - 3] == whole && s[|s| - 2..] == tail;
    assert tail[..1] == [Digit(q / 10 % 10)] && tail[..1][..0] == "";
    assert ValueOf(tail) == ValueOf(tail[..1]) * 10 + q % 10;
    Recompose(q);
  }

  lemma HundredthsParts(a: string, b: string, c: char, d: char, e: char, f: char)
    requires a + "." + [c, d] == b + "." + [e, f]
    ensures a == b && c == e && d == f
  {
    var s := a + "." + [c, d];
    assert |s| == |a| + 3 == |b| + 3;
    assert s[..|a|] == a && s[..|b|] == b;
    assert s[|a| + 1] == c && s[|b| + 1] == e && s[|a| + 2] == d && s[|b| + 2] == f;
  }

  lemma DigitInjective(d: nat, e: nat)
    requires d < 10 && e < 10 && Digit(d) == Digit(e)
    ensures d == e
  {
    assert Digit(d) as int == d + 48 && Digit(e) as int == e + 48;
  }

  lemma HundredthsInjective(p: nat, q: nat)
    requires Hundredths(p) == Hundredths(q)
    ensures p == q
  {
    HundredthsParts(Digits(p / 100), Digits(q / 100), Digit(p / 10 % 10), Digit(p % 10), Digit(q / 10 % 10), Digit(q % 10));
    DigitsInjective(p / 100, q / 100);
    DigitInjective(p / 10 % 10, q / 10 % 10);
    DigitInjective(p % 10, q % 10);
    Recompose(p);
    Recompose(q);
  }

  lemma Recompose(p: nat)
    ensures p == p / 100 * 100 + p / 10 % 10 * 10 + p % 10
  {
    assert p / 100 == p / 10 / 10;
  }

  lemma DecimalIsClean(n: int)
    ensures NEWLINE !in Decimal(n) && '=' !in Decimal(n)
  {
    DigitsAreDigits(if n < 0 then -n else n);
  }

  // Labelled fields -------------------------------------------------------------------

  datatype Field = Field(name: string, value: string)

  function Line(f: Field): string {
    f.name + "=" + f.value + "\n"
  }

  function Render(fs: seq<Field>): string {
    if fs == [] then "" else Render(fs[..|fs| - 1]) + Line(fs[|fs| - 1])
  }

  predicate CleanName(name: string) {
    forall i :: 0 <= i < |name| ==> name[i] != NEWLINE && name[i] != '='
  }

  predicate Clean(f: Field) {
    CleanName(f.name) && NEWLINE !in f.value
  }

  predicate AllClean(fs: seq<Field>) {
    forall k :: 0 <= k < |fs| ==> Clean(fs[k])
  }

  lemma AppendField(fs: seq<Field>, f: Field)
    ensures Render(fs + [f]) == Render(fs) + Line(f)
  {
    assert (fs + [f])[..|fs|] == fs;
  }

  lemma {:induction false} RenderConcat(fs: seq<Field>, gs: seq<Field>)
    ensures Render(fs + gs) == Render(fs) + Render(gs)
  {
    if gs == [] {
      assert fs + gs == fs;
    } else {
      var init, last := gs[..|gs| - 1], gs[|gs| - 1];
      calc {
        Render(fs + gs);
        { assert fs + gs == fs + init + [last]; }
        Render(fs + init + [last]);
        { AppendField(fs + init, last); }
        Render(fs + init) + Line(last);
        { RenderConcat(fs, init); }
        Render(fs) + (Render(init) + Line(last));
        Render(fs) + Render(gs);
      }
    }
  }

  /** Text up to the first occurrence of a separator, and text after it, are determined. */
  lemma {:induction false} SplitAtFirst(a: string, b: string, c: string, d: string, sep: char)
    requires a + [sep] + b == c + [sep] + d && sep !in a && sep !in c
    ensures a == c && b == d
  {
    var s := a + [sep] + b;
    assert s[0] == (if a == "" then sep else a[0]);
    assert s[0] == (if c == "" then sep else c[0]);
    if a == "" {
      assert s[1..] == b && s[1..] == d;
    } else {
      assert s[1..] == a[1..] + [sep] + b && s[1..] == c[1..] + [sep] + d;
      SplitAtFirst(a[1..], b, c[1..], d, sep);
      assert a == [a[0]] + a[1..] && c == [c[0]] + c[1..];
    }
  }

  lemma LineInjective(f: Field, g: Field, r: string, s: string)
    requires Clean(f) && Clean(g) && Line(f) + r == Line(g) + s
    ensures f == g && r == s
  {
    var a, c := f.name + "=" + f.value, g.name + "=" + g.value;
    assert Line(f) + r == a + [NEWLINE] + r && Line(g) + s == c + [NEWLINE] + s;
    SplitAtFirst(a, r, c, s, NEWLINE);
    SplitAtFirst(f.name, f.value, g.name, g.value, '=');
  }

  /** Rendering is injective on lists of clean fields. */
  lemma {:induction false} RenderInjective(fs: seq<Field>, gs: seq<Field>)
    requires AllClean(fs) && AllClean(gs) && Render(fs) == Render(gs)
    ensures fs == gs
    decreases |fs|
  {
    if fs != [] && gs != [] {
      assert fs == fs[..1] + fs[1..] && gs == gs[..1] + gs[1..];
      RenderConcat(fs[..1], fs[1..]);
      RenderConcat(gs[..1], gs[1..]);
      assert Render(fs[..1]) == Line(fs[0]) && Render(gs[..1]) == Line(gs[0]);
      LineInjective(fs[0], gs[0], Render(fs[1..]), Render(gs[1..]));
      RenderInjective(fs[1..], gs[1..]);
    }
  }

  lemma PrefixLine(fs: seq<Field>, k: nat)
    requires k < |fs|
    ensures Render(fs[..k + 1]) == Render(fs[..k]) + Line(fs[k])
  {
    assert fs[..k + 1][..k] == fs[..k];
  }

  /** A string builder; `fs` and `k` say which field of which list comes next. */
  class Builder {
    var text: string

    constructor ()
      ensures text == ""
    {
      text := "";
    }

    method WriteField(name: string, value: string, ghost fs: seq<Field>, ghost k: nat)
      requires k < |fs| && fs[k] == Field(name, value) && text == Render(fs[..k])
      modifies this
      ensures text == Render(fs[..k + 1])
    {
      PrefixLine(fs, k);
      text := text + name;
      text := text + "=";
      text := text + value;
      text := text + "\n";
    }
  }
}
