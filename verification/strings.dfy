/** The few JavaScript string primitives the client relies on:
    `split` on a one-character separator, `join`, `trim`, `slice`,
    prefix matching and `Number()` on decimal text. */
module Strings {

  /** Characters `String.prototype.trim` removes (the ASCII and Latin-1 ones). */
  predicate IsJsSpace(c: char) {
    c == ' ' || c == '\t' || c == '\n' || c == '\r' || c == 11 as char || c == 12 as char || c == 0xA0 as char
  }

  predicate StartsWith(s: string, prefix: string) {
    |prefix| <= |s| && s[..|prefix|] == prefix
  }

  /** Unanchored search, as `str.match('text')` with a regex free of metacharacters. */
  predicate Contains(s: string, part: string)
    decreases |s|
  {
    StartsWith(s, part) || (|s| > 0 && Contains(s[1..], part))
  }

  /** `s.slice(n)` for a non-negative `n`. */
  function Drop(s: string, n: nat): (r: string)
    ensures |r| == if n <= |s| then |s| - n else 0
    ensures n <= |s| ==> s == s[..n] + r
  {
    if n <= |s| then s[n..] else ""
  }

  /** `s.split(sep)`: the maximal separator-free runs of `s`, in order. */
  function Split(s: string, sep: char): (parts: seq<string>)
    ensures |parts| >= 1
    ensures forall i :: 0 <= i < |parts| ==> sep !in parts[i]
    ensures sep !in s ==> parts == [s]
    ensures sep in s ==> |parts| >= 2
    decreases |s|
  {
    if |s| == 0 then [""]
    else
      var rest := Split(s[1..], sep);
      if s[0] == sep then [""] + rest
      else
        assert s == [s[0]] + s[1..];
        [[s[0]] + rest[0]] + rest[1..]
  }

  /** `parts.join(sep)`. */
  function Join(parts: seq<string>, sep: char): string
    decreases |parts|
  {
    if |parts| == 0 then ""
    else if |parts| == 1 then parts[0]
    else parts[0] + [sep] + Join(parts[1..], sep)
  }

  function TrimStart(s: string): (r: string)
    ensures |r| <= |s| && r == s[|s| - |r|..]
    ensures |r| > 0 ==> !IsJsSpace(r[0])
    ensures forall i :: 0 <= i < |s| - |r| ==> IsJsSpace(s[i])
    decreases |s|
  {
    if |s| > 0 && IsJsSpace(s[0]) then TrimStart(s[1..]) else s
  }

  function TrimEnd(s: string): (r: string)
    ensures |r| <= |s| && r == s[..|r|]
    ensures |r| > 0 ==> !IsJsSpace(r[|r| - 1])
    ensures forall i :: |r| <= i < |s| ==> IsJsSpace(s[i])
    decreases |s|
  {
    if |s| > 0 && IsJsSpace(s[|s| - 1]) then TrimEnd(s[..|s| - 1]) else s
  }

  /** `s.trim()`. */
  function Trim(s: string): string {
    TrimEnd(TrimStart(s))
  }

  predicate IsDigit(c: char) {
    '0' <= c <= '9'
  }

  predicate AllDigits(s: string) {
    forall i :: 0 <= i < |s| ==> IsDigit(s[i])
  }

  function DigitValue(c: char): nat
    requires IsDigit(c)
  {
    c as int - '0' as int
  }

  function DigitChar(d: nat): (c: char)
    requires d < 10
    ensures IsDigit(c) && DigitValue(c) == d
  {
    ('0' as int + d) as char
  }

  /** Value of a decimal digit string, most significant digit first. */
  function DigitsValue(s: string): nat
    requires AllDigits(s)
    decreases |s|
  {
    if |s| == 0 then 0 else DigitsValue(s[..|s| - 1]) * 10 + DigitValue(s[|s| - 1])
  }

  /** Decimal rendering of a natural number, as the server writes it. */
  function NatToString(n: nat): (s: string)
    ensures |s| >= 1 && AllDigits(s)
    decreases n
  {
    if n < 10 then [DigitChar(n)] else NatToString(n / 10) + [DigitChar(n % 10)]
  }

  /** The result of JavaScript's `Number(text)` restricted to integers. */
  datatype JsNumber = Num(n: int) | NaN

  /** `Number(s)`: surrounding white space is ignored, empty text is 0, an
      optionally signed run of decimal digits is its value, anything else NaN. */
  function ToNumber(s: string): JsNumber {
    var t := Trim(s);
    if |t| == 0 then Num(0)
    else if AllDigits(t) then Num(DigitsValue(t))
    else if |t| > 1 && (t[0] == '-' || t[0] == '+') && AllDigits(t[1..]) then
      (if t[0] == '-' then Num(-(DigitsValue(t[1..]) as int)) else Num(DigitsValue(t[1..])))
    else NaN
  }

  /** `Boolean(n)` of a number: false exactly for 0 and NaN. */
  function Truthy(n: JsNumber): bool {
    n.Num? && n.n != 0
  }

  // ---------------------------------------------------------------------
  // Facts about the primitives

  /** One unfolding of `Split`. */
  lemma SplitCons(s: string, sep: char)
    requires |s| > 0
    ensures s[0] == sep ==> Split(s, sep) == [""] + Split(s[1..], sep)
    ensures s[0] != sep ==> Split(s, sep) == [[s[0]] + Split(s[1..], sep)[0]] + Split(s[1..], sep)[1..]
  {
  }

  /** Splitting at a separator occurrence splits the two sides independently. */
  lemma {:induction false} SplitAround(a: string, b: string, sep: char)
    ensures Split(a + [sep] + b, sep) == Split(a, sep) + Split(b, sep)
    decreases |a|
  {
    var s := a + [sep] + b;
    if |a| == 0 {
      assert s == [sep] + b;
      assert s[1..] == b;
      SplitCons(s, sep);
    } else {
      assert s[0] == a[0];
      assert s[1..] == a[1..] + [sep] + b;
      SplitAround(a[1..], b, sep);
      SplitCons(s, sep);
      SplitCons(a, sep);
    }
  }

  /** `join` undoes `split`. */
  lemma {:induction false} JoinSplit(s: string, sep: char)
    ensures Join(Split(s, sep), sep) == s
    decreases |s|
  {
    if |s| > 0 {
      JoinSplit(s[1..], sep);
      JoinSplitStep(s, sep);
    }
  }

  /** One more character in front of a string that splits and joins back. */
  lemma JoinSplitStep(s: string, sep: char)
    requires |s| > 0 && Join(Split(s[1..], sep), sep) == s[1..]
    ensures Join(Split(s, sep), sep) == s
  {
    var rest := Split(s[1..], sep);
    assert s == [s[0]] + s[1..];
    if s[0] == sep {
      assert Split(s, sep) == [""] + rest;
    } else {
      var p := Split(s, sep);
      assert p == [[s[0]] + rest[0]] + rest[1..];
      if |rest| > 1 {
        assert p[1..] == rest[1..];
        assert Join(rest, sep) == rest[0] + [sep] + Join(rest[1..], sep);
      }
    }
  }

  /** `split` undoes `join` when no part contains the separator. */
  lemma {:induction false} SplitJoin(parts: seq<string>, sep: char)
    requires |parts| >= 1
    requires forall i :: 0 <= i < |parts| ==> sep !in parts[i]
    ensures Split(Join(parts, sep), sep) == parts
    decreases |parts|
  {
    assert sep !in parts[0];
    if |parts| > 1 {
      var rest := parts[1..];
      assert forall i :: 0 <= i < |rest| ==> rest[i] == parts[i + 1];
      SplitJoin(rest, sep);
      SplitJoinStep(parts, sep);
    }
  }

  /** One more separator-free part in front of parts that join and split back. */
  lemma SplitJoinStep(parts: seq<string>, sep: char)
    requires |parts| > 1 && sep !in parts[0]
    requires Split(Join(parts[1..], sep), sep) == parts[1..]
    ensures Split(Join(parts, sep), sep) == parts
  {
    var rest := parts[1..];
    assert Join(parts, sep) == parts[0] + [sep] + Join(rest, sep);
    SplitAround(parts[0], Join(rest, sep), sep);
    assert parts == [parts[0]] + rest;
  }

  /** The first part of a split is the longest separator-free prefix. */
  lemma {:induction false} SplitHead(s: string, sep: char)
    ensures var h := Split(s, sep)[0];
      StartsWith(s, h) && (|h| < |s| ==> s[|h|] == sep)
    decreases |s|
  {
    if |s| > 0 {
      SplitCons(s, sep);
      if s[0] != sep {
        SplitHead(s[1..], sep);
        var h := Split(s, sep)[0];
        var t := Split(s[1..], sep)[0];
        assert h == [s[0]] + t;
        assert s[1..][..|t|] == t;
        assert s[..|h|] == [s[0]] + s[1..][..|t|];
      }
    }
  }

  /** The last part of a split is the longest separator-free suffix. */
  lemma {:induction false} SplitLast(s: string, sep: char)
    ensures var p := Split(s, sep); var l := p[|p| - 1];
      |l| <= |s| && s[|s| - |l|..] == l && (|l| < |s| ==> s[|s| - |l| - 1] == sep)
    decreases |s|
  {
    if |s| > 0 {
      SplitCons(s, sep);
      var rest := Split(s[1..], sep);
      SplitLast(s[1..], sep);
      var p := Split(s, sep);
      if s[0] == sep {
        assert p[|p| - 1] == rest[|rest| - 1];
      } else if |rest| == 1 {
        assert rest == [s[1..]];
        assert p == [s];
      } else {
        assert p[|p| - 1] == rest[|rest| - 1];
      }
    }
  }

  /** A prefix free of the separator that ends at a separator (or at the end)
      is the first part of the split. */
  lemma HeadUnique(s: string, sep: char, h: string)
    requires StartsWith(s, h) && sep !in h && (|h| < |s| ==> s[|h|] == sep)
    ensures h == Split(s, sep)[0]
  {
    var f := Split(s, sep)[0];
    SplitHead(s, sep);
  }

  /** A suffix free of the separator that starts after a separator (or at the
      start) is the last part of the split. */
  lemma LastUnique(s: string, sep: char, l: string)
    requires |l| <= |s| && s[|s| - |l|..] == l && sep !in l
    requires |l| < |s| ==> s[|s| - |l| - 1] == sep
    ensures var p := Split(s, sep); l == p[|p| - 1]
  {
    var p := Split(s, sep);
    var f := p[|p| - 1];
    SplitLast(s, sep);
  }

  lemma TrimStartNoSpace(s: string)
    requires |s| > 0 && !IsJsSpace(s[0])
    ensures TrimStart(s) == s
  {
  }

  lemma TrimEndNoSpace(s: string)
    requires |s| > 0 && !IsJsSpace(s[|s| - 1])
    ensures TrimEnd(s) == s
  {
  }

  /** Trimmed text neither starts nor ends with white space and is no longer
      than the original. */
  lemma TrimEdges(s: string)
    ensures var r := Trim(s);
      && |r| <= |s|
      && (|r| > 0 ==> !IsJsSpace(r[0]) && !IsJsSpace(r[|r| - 1]))
  {
    var t := TrimStart(s);
    var r := TrimEnd(t);
    if |r| > 0 {
      assert r[0] == t[0];
    }
  }

  /** What trimming cuts off is white space: the `k` characters before the
      result and everything after it. */
  lemma TrimCutsSpace(s: string)
    ensures var r := Trim(s); var k := |s| - |TrimStart(s)|;
      && (forall i :: 0 <= i < k ==> IsJsSpace(s[i]))
      && (forall i :: k + |r| <= i < |s| ==> IsJsSpace(s[i]))
  {
    var t := TrimStart(s);
    var r := TrimEnd(t);
    var k := |s| - |t|;
    forall i | k + |r| <= i < |s| ensures IsJsSpace(s[i]) {
      assert s[i] == t[i - k];
    }
  }

  /** Text whose first and last characters are not white space is its own trim. */
  lemma TrimNoSpace(s: string)
    requires |s| > 0 && !IsJsSpace(s[0]) && !IsJsSpace(s[|s| - 1])
    ensures Trim(s) == s
  {
    TrimStartNoSpace(s);
    TrimEndNoSpace(s);
  }

  /** Trimming twice is trimming once. */
  lemma TrimIdempotent(s: string)
    ensures Trim(Trim(s)) == Trim(s)
  {
    TrimEdges(s);
    if |Trim(s)| > 0 {
      TrimNoSpace(Trim(s));
    }
  }

  /** `DigitsValue` reads back what `NatToString` writes. */
  lemma {:induction false} DigitsRoundTrip(n: nat)
    ensures DigitsValue(NatToString(n)) == n
    decreases n
  {
    if n >= 10 {
      DigitsRoundTrip(n / 10);
      var s := NatToString(n);
      assert s[..|s| - 1] == NatToString(n / 10);
    }
  }

  /** What `Number()` makes of text: blank text is 0, a negative value was
      written with a minus sign, and NaN only comes from non-blank text that
      is not a plain run of digits. */
  lemma NumberShape(s: string)
    ensures |Trim(s)| == 0 ==> ToNumber(s) == Num(0)
    ensures ToNumber(s).Num? && ToNumber(s).n < 0 ==> |Trim(s)| > 1 && Trim(s)[0] == '-'
    ensures ToNumber(s).NaN? ==> |Trim(s)| > 0 && !AllDigits(Trim(s))
  {
  }

  /** `Number()` of a rendered natural number is that number. */
  lemma NumberOfNat(n: nat)
    ensures ToNumber(NatToString(n)) == Num(n)
  {
    var s := NatToString(n);
    assert !IsJsSpace(s[0]) && !IsJsSpace(s[|s| - 1]);
    TrimNoSpace(s);
    DigitsRoundTrip(n);
  }
}
