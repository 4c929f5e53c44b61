/** Placeholder interpolation in blueprint values. */
module Interpolation {

  predicate IsNameChar(c: char) { 'a' <= c <= 'z' || 'A' <= c <= 'Z' || '0' <= c <= '9' || c == '_' }

  predicate IsName(s: string) { s != [] && forall i | 0 <= i < |s| :: IsNameChar(s[i]) }

  /** The length of the longest prefix made of name characters. */
  function NameLength(s: string): (n: nat)
    ensures n <= |s|
    ensures forall i | 0 <= i < n :: IsNameChar(s[i])
  {
    if s != [] && IsNameChar(s[0]) then 1 + NameLength(s[1..]) else 0
  }

  /** The text starts with a placeholder. */
  predicate HoleAhead(s: string) {
    "{{" <= s && NameLength(s[2..]) > 0 && "}}" <= s[2 + NameLength(s[2..])..]
  }

  function Lookup(vars: map<string, string>, name: string): string {
    if name in vars then vars[name] else "{{" + name + "}}"
  }

  /** `_interpolate`: one scan from the left; what a variable brings in is not scanned. */
  function Interpolate(vars: map<string, string>, s: string): string
    decreases |s|
  {
    if s == [] then []
    else if HoleAhead(s) then
      var n := NameLength(s[2..]);
      Lookup(vars, s[2..2 + n]) + Interpolate(vars, s[4 + n..])
    else [s[0]] + Interpolate(vars, s[1..])
  }

  datatype Part = Literal(text: string) | Hole(name: string)

  /** The value as an author writes it. */
  function Source(parts: seq<Part>): string {
    if parts == [] then []
    else (match parts[0] case Literal(t) => t case Hole(x) => "{{" + x + "}}") + Source(parts[1..])
  }

  /** No placeholder starts inside the text, not even one that ends in what follows it. */
  predicate HoleFree(text: string, rest: string) { forall i | 0 <= i < |text| :: !HoleAhead((text + rest)[i..]) }

  /** The parts are those a reader sees: names are names, and literals hide no placeholder. */
  predicate WellFormed(parts: seq<Part>) {
    parts == []
    || (WellFormed(parts[1..])
        && match parts[0] case Literal(t) => HoleFree(t, Source(parts[1..])) case Hole(x) => IsName(x))
  }

  /** The value with each hole replaced by the value of its variable, and by itself when
      there is no such variable. */
  function Filled(vars: map<string, string>, parts: seq<Part>): string {
    if parts == [] then []
    else
      (match parts[0]
       case Literal(t) => t
       case Hole(x) => if x in vars then vars[x] else "{{" + x + "}}") + Filled(vars, parts[1..])
  }

  lemma {:induction false} NameLengthIs(name: string, rest: string)
    requires forall i | 0 <= i < |name| :: IsNameChar(name[i])
    requires rest != [] && !IsNameChar(rest[0])
    ensures NameLength(name + rest) == |name|
  {
    if name == [] {
      assert name + rest == rest;
    } else {
      assert (name + rest)[1..] == name[1..] + rest;
      NameLengthIs(name[1..], rest);
    }
  }

  lemma {:induction false} PlainText(vars: map<string, string>, t: string, rest: string)
    requires HoleFree(t, rest)
    ensures Interpolate(vars, t + rest) == t + Interpolate(vars, rest)
  {
    hide HoleAhead;
    if t == [] {
      assert t + rest == rest && t + Interpolate(vars, rest) == Interpolate(vars, rest);
    } else {
      var s := t + rest;
      assert s[0..] == s && s[0] == t[0] && s[1..] == t[1..] + rest;
      forall i | 0 <= i < |t[1..]| ensures !HoleAhead((t[1..] + rest)[i..]) {
        assert (t[1..] + rest)[i..] == s[i + 1..];
      }
      PlainText(vars, t[1..], rest);
    }
  }

  lemma OneHole(vars: map<string, string>, name: string, rest: string)
    requires IsName(name)
    ensures Interpolate(vars, "{{" + name + "}}" + rest) == Lookup(vars, name) + Interpolate(vars, rest)
  {
    var s := "{{" + name + "}}" + rest;
    assert s[2..] == name + ("}}" + rest);
    NameLengthIs(name, "}}" + rest);
    assert s[2..2 + |name|] == name && s[2 + |name|..] == "}}" + rest && s[4 + |name|..] == rest;
  }

  /** Every hole of a value is filled exactly once, whatever text the variables hold, and
      nothing else changes. */
  lemma {:induction false} HolesFilledOnce(vars: map<string, string>, parts: seq<Part>)
    requires WellFormed(parts)
    ensures Interpolate(vars, Source(parts)) == Filled(vars, parts)
  {
    if parts != [] {
      HolesFilledOnce(vars, parts[1..]);
      match parts[0]
      case Literal(t) => PlainText(vars, t, Source(parts[1..]));
      case Hole(x) => OneHole(vars, x, Source(parts[1..]));
    }
  }

  /** And every text is the source of such parts, so that covers all values. */
  lemma {:induction false} EveryValueHasParts(s: string) returns (parts: seq<Part>)
    ensures WellFormed(parts) && Source(parts) == s
    decreases |s|
  {
    if s == [] {
      parts := [];
    } else if HoleAhead(s) {
      var n := NameLength(s[2..]);
      var rest := EveryValueHasParts(s[4 + n..]);
      parts := [Hole(s[2..2 + n])] + rest;
      assert parts[1..] == rest;
      assert s[2..2 + n] == s[2..][..n];
      assert s == "{{" + s[2..2 + n] + "}}" + s[4 + n..];
    } else {
      var rest := EveryValueHasParts(s[1..]);
      parts := [Literal([s[0]])] + rest;
      assert parts[1..] == rest;
      assert ([s[0]] + s[1..])[0..] == s;
    }
  }

  /** A value with its placeholders filled, whatever parts one takes it to be made of. */
  ghost function FilledText(vars: map<string, string>, value: string): (r: string)
    ensures r == Interpolate(vars, value)
  {
    HasParts(value);
    var parts :| WellFormed(parts) && Source(parts) == value;
    HolesFilledOnce(vars, parts);
    Filled(vars, parts)
  }

  lemma HasParts(value: string)
    ensures exists parts :: WellFormed(parts) && Source(parts) == value
  {
    var parts := EveryValueHasParts(value);
  }

  lemma FilledTextIs(vars: map<string, string>, parts: seq<Part>)
    requires WellFormed(parts)
    ensures FilledText(vars, Source(parts)) == Filled(vars, parts)
  {
    HolesFilledOnce(vars, parts);
  }
}
