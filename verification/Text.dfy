/** String operations shared by the other modules: decimal rendering, trimming and
    lower-casing. Characters are ASCII; Unicode case folding is not modelled. */
module Text {

  datatype Option<+T> = None | Some(value: T)

  /** `s and ...`: present and not empty. */
  predicate Given(s: Option<string>) { s.Some? && s.value != "" }

  /** `s or other`, for a text and for a number. */
  function OrText(s: Option<string>, other: string): string { if Given(s) then s.value else other }

  function OrNumber(n: Option<int>, other: int): int { if n.Some? && n.value != 0 then n.value else other }

  predicate IsDigit(c: char) { '0' <= c <= '9' }

  predicate Digits(s: string) { forall i | 0 <= i < |s| :: IsDigit(s[i]) }

  function DigitChar(d: nat): (c: char)
    requires d < 10
    ensures IsDigit(c)
  {
    '0' + d as char
  }

  /** The decimal rendering of a natural number, as `str(n)` writes it. */
  function Decimal(n: nat): (s: string)
    ensures |s| > 0 && Digits(s)
  {
    if n < 10 then [DigitChar(n)] else Decimal(n / 10) + [DigitChar(n % 10)]
  }

  lemma {:induction false} DecimalInjective(m: nat, n: nat)
    requires Decimal(m) == Decimal(n)
    ensures m == n
  {
    assert Decimal(m)[|Decimal(m)| - 1] == Decimal(n)[|Decimal(n)| - 1];
    if m >= 10 && n >= 10 {
      assert Decimal(m)[..|Decimal(m)| - 1] == Decimal(m / 10);
      assert Decimal(n)[..|Decimal(n)| - 1] == Decimal(n / 10);
      DecimalInjective(m / 10, n / 10);
    }
  }

  /** The number that a string of digits writes. */
  function Reading(s: string): nat
    requires Digits(s)
  {
    if s == [] then 0 else 10 * Reading(s[..|s| - 1]) + (s[|s| - 1] as int - '0' as int)
  }

  /** A rendering reads back as its number, and starts with no zero but that of 0 itself. */
  lemma {:induction false} DecimalReads(n: nat)
    ensures Reading(Decimal(n)) == n
    ensures n > 0 ==> Decimal(n)[0] != '0'
    ensures Decimal(0) == "0"
  {
    var d := Decimal(n);
    if n < 10 {
      assert d[..|d| - 1] == [];
    } else {
      DecimalReads(n / 10);
      assert d[..|d| - 1] == Decimal(n / 10);
    }
  }

  predicate IsSpace(c: char) {
    c == ' ' || 9 as char <= c <= 13 as char || 28 as char <= c <= 31 as char
  }

  /** Blank, tab, line feed, vertical tab, form feed, carriage return and four separators. */
  lemma WhitespaceIs(c: char)
    ensures IsSpace(c) <==> c as int in {32, 9, 10, 11, 12, 13, 28, 29, 30, 31}
  {}

  function StripLeft(s: string): string {
    if s != [] && IsSpace(s[0]) then StripLeft(s[1..]) else s
  }

  function StripRight(s: string): string {
    if s != [] && IsSpace(s[|s| - 1]) then StripRight(s[..|s| - 1]) else s
  }

  function Strip(s: string): string { StripRight(StripLeft(s)) }

  /** No whitespace at either edge. */
  predicate Trimmed(s: string) {
    s != [] ==> !IsSpace(s[0]) && !IsSpace(s[|s| - 1])
  }

  lemma StripLeftEdge(s: string)
    ensures StripLeft(s) != [] ==> !IsSpace(StripLeft(s)[0])
    ensures s != [] && !IsSpace(s[|s| - 1]) ==> StripLeft(s) != [] && !IsSpace(StripLeft(s)[|StripLeft(s)| - 1])
  {}

  lemma StripRightEdge(s: string)
    ensures StripRight(s) != [] ==> !IsSpace(StripRight(s)[|StripRight(s)| - 1])
    ensures s != [] && !IsSpace(s[0]) ==> StripRight(s) != [] && !IsSpace(StripRight(s)[0])
  {}

  lemma StripTrims(s: string)
    ensures Trimmed(Strip(s))
  {
    StripLeftEdge(s);
    StripRightEdge(StripLeft(s));
  }

  lemma StripKeepsTrimmed(s: string)
    requires Trimmed(s)
    ensures Strip(s) == s
  {}

  predicate Blank(s: string) { forall i | 0 <= i < |s| :: IsSpace(s[i]) }

  /** Stripping takes whitespace from the edges, all of it, and nothing else. */
  lemma StripTakesEdges(s: string) returns (left: string, right: string)
    ensures s == left + Strip(s) + right && Blank(left) && Blank(right) && Trimmed(Strip(s))
  {
    var rest;
    left, rest := LeftEdge(s);
    right := RightEdge(rest);
    StripTrims(s);
  }

  lemma {:induction false} LeftEdge(s: string) returns (left: string, rest: string)
    ensures s == left + rest && rest == StripLeft(s) && Blank(left)
  {
    if s != [] && IsSpace(s[0]) {
      left, rest := LeftEdge(s[1..]);
      left := [s[0]] + left;
    } else {
      left, rest := [], s;
    }
  }

  lemma {:induction false} RightEdge(s: string) returns (right: string)
    ensures s == StripRight(s) + right && Blank(right)
  {
    if s != [] && IsSpace(s[|s| - 1]) {
      right := RightEdge(s[..|s| - 1]);
      right := right + [s[|s| - 1]];
    } else {
      right := [];
    }
  }

  function LowerChar(c: char): char {
    if 'A' <= c <= 'Z' then c + 32 as char else c
  }

  function Lower(s: string): (r: string)
    ensures |r| == |s| && forall i | 0 <= i < |s| :: r[i] == LowerChar(s[i])
  {
    if s == [] then [] else [LowerChar(s[0])] + Lower(s[1..])
  }

  /** `s.strip().lower()` */
  function Normalise(s: string): string { Lower(Strip(s)) }

  /** The same character, or the two cases of one letter. */
  predicate SameLetter(c: char, d: char) {
    || c == d
    || ('A' <= c <= 'Z' && d as int == c as int + 32)
    || ('A' <= d <= 'Z' && c as int == d as int + 32)
  }

  predicate SameButCase(s: string, t: string) {
    |s| == |t| && forall i | 0 <= i < |s| :: SameLetter(s[i], t[i])
  }

  predicate IsCapital(c: char) { 'A' <= c <= 'Z' }

  lemma LowerCharIff(c: char, d: char)
    ensures SameLetter(c, LowerChar(c)) && !IsCapital(LowerChar(c))
    ensures LowerChar(c) == LowerChar(d) <==> SameLetter(c, d)
  {}

  /** Lower-casing changes nothing but the case of letters, leaves no capital, and makes two
      texts equal exactly when they differ in case alone. */
  lemma LowerIff(s: string, t: string)
    ensures SameButCase(s, Lower(s)) && forall i | 0 <= i < |s| :: !IsCapital(Lower(s)[i])
    ensures Lower(s) == Lower(t) <==> SameButCase(s, t)
  {
    hide LowerChar, SameLetter, IsCapital;
    forall i | 0 <= i < |s|
      ensures SameLetter(s[i], Lower(s)[i]) && !IsCapital(Lower(s)[i])
    {
      LowerCharIff(s[i], s[i]);
    }
    if |s| == |t| {
      forall i | 0 <= i < |s| ensures Lower(s)[i] == Lower(t)[i] <==> SameLetter(s[i], t[i]) {
        LowerCharIff(s[i], t[i]);
      }
    }
  }

  lemma LowerKeeps(s: string)
    requires forall i | 0 <= i < |s| :: !IsCapital(s[i])
    ensures Lower(s) == s
  {}

  lemma NormaliseIff(s: string, t: string)
    ensures Normalise(s) == Normalise(t) <==> SameButCase(Strip(s), Strip(t))
  {
    LowerIff(Strip(s), Strip(t));
  }

  /** Stripping and lower-casing commute. */
  lemma StripLower(s: string)
    ensures Strip(Lower(s)) == Lower(Strip(s))
  {
    StripLeftLower(s);
    StripRightLower(StripLeft(s));
  }

  lemma SpacesHaveNoCase(c: char)
    ensures IsSpace(LowerChar(c)) <==> IsSpace(c)
  {}

  lemma {:induction false} StripLeftLower(s: string)
    ensures StripLeft(Lower(s)) == Lower(StripLeft(s))
  {
    hide IsSpace, LowerChar, Lower;
    if s != [] {
      SpacesHaveNoCase(s[0]);
    }
    if s != [] && IsSpace(s[0]) {
      assert Lower(s)[1..] == Lower(s[1..]);
      StripLeftLower(s[1..]);
    }
  }

  lemma {:induction false} StripRightLower(s: string)
    ensures StripRight(Lower(s)) == Lower(StripRight(s))
  {
    hide IsSpace, LowerChar, Lower;
    if s != [] {
      SpacesHaveNoCase(s[|s| - 1]);
    }
    if s != [] && IsSpace(s[|s| - 1]) {
      assert Lower(s)[..|s| - 1] == Lower(s[..|s| - 1]);
      StripRightLower(s[..|s| - 1]);
    }
  }

  lemma NormaliseIdempotent(s: string)
    ensures Normalise(Normalise(s)) == Normalise(s)
  {
    StripTrims(s);
    var t := Normalise(s);
    assert Trimmed(t);
    StripKeepsTrimmed(t);
    assert Lower(t) == t;
  }

  /** Everything up to a separator is determined by the whole string: two strings that
      agree, and whose prefixes do not contain the separator, split at the same place. */
  lemma SplitAtFirst(a: string, x: string, b: string, y: string, sep: char)
    requires sep !in a && sep !in b
    requires a + [sep] + x == b + [sep] + y
    ensures a == b && x == y
  {
    var s := a + [sep] + x;
    var t := b + [sep] + y;
    assert s[|a|] == sep && t[|b|] == sep;
    assert forall i | 0 <= i < |a| :: s[i] != sep by { assert forall i | 0 <= i < |a| :: s[i] == a[i]; }
    assert forall i | 0 <= i < |b| :: t[i] != sep by { assert forall i | 0 <= i < |b| :: t[i] == b[i]; }
    assert a == s[..|a|] && b == t[..|b|];
    assert x == s[|a| + 1..] && y == t[|b| + 1..];
  }

  /** Likewise from the right: the parts after the last separator agree. */
  lemma SplitAtLast(a: string, x: string, b: string, y: string, sep: char)
    requires sep !in x && sep !in y
    requires a + [sep] + x == b + [sep] + y
    ensures a == b && x == y
  {
    var s := a + [sep] + x;
    var t := b + [sep] + y;
    assert |s| == |a| + 1 + |x| && |t| == |b| + 1 + |y|;
    assert s[|a|] == sep && t[|b|] == sep;
    assert forall i | |a| < i < |s| :: s[i] != sep by { assert forall i | |a| < i < |s| :: s[i] == x[i - |a| - 1]; }
    assert forall i | |b| < i < |t| :: t[i] != sep by { assert forall i | |b| < i < |t| :: t[i] == y[i - |b| - 1]; }
    assert a == s[..|a|] && b == t[..|b|];
    assert x == s[|a| + 1..] && y == t[|b| + 1..];
  }
}
