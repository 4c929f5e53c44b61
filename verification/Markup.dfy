/** What a reader makes of the cleaned markup: a scanner of tags, written without the
    functions that write them, finds every element with its number and its attributes. */
module Markup {
  import opened Text
  import opened DomTree
  import DomCleaner

  // ----------------------------------------------------------------------------- a reader

  /** A character of a tag or attribute name. */
  predicate NameChar(c: char) { !IsSpace(c) && c !in {'=', '"', '<', '>', '/', '&'} }

  predicate IsName(s: string) { s != [] && forall i | 0 <= i < |s| :: NameChar(s[i]) }

  function NameLength(s: string): (n: nat)
    ensures n <= |s|
  {
    if s != [] && NameChar(s[0]) then 1 + NameLength(s[1..]) else 0
  }

  /** How far it is to the next quote. */
  function ToQuote(s: string): (n: nat)
    ensures n <= |s|
  {
    if s != [] && s[0] != '"' then 1 + ToQuote(s[1..]) else 0
  }

  /** Attributes up to the end of the tag, and what follows it. */
  function ReadAttrs(s: string): (r: Option<(Dict, string)>)
    ensures r.Some? ==> |r.value.1| < |s|
    decreases |s|
  {
    if s == [] then None
    else if s[0] == '>' then Some(([], s[1..]))
    else if s[0] != ' ' then None
    else
      var n := NameLength(s[1..]);
      var value := s[1 + n..];
      if n == 0 || !("=\"" <= value) || ToQuote(value[2..]) == |value[2..]| then None
      else
        var q := ToQuote(value[2..]);
        match ReadAttrs(value[3 + q..])
        case None => None
        case Some((d, rest)) => Some(([(s[1..1 + n], Unescape(value[2..2 + q]))] + d, rest))
  }

  datatype Token = Open(tag: string, attrs: Dict) | Close(tag: string)

  /** A tag at the start of the text, and what follows it. */
  function ReadTag(s: string): (r: Option<(Token, string)>)
    ensures r.Some? ==> |r.value.1| < |s|
  {
    if "</" <= s then
      var n := NameLength(s[2..]);
      if n == 0 || !(">" <= s[2 + n..]) then None else Some((Close(s[2..2 + n]), s[3 + n..]))
    else if "<" <= s then
      var n := NameLength(s[1..]);
      if n == 0 then None
      else
        match ReadAttrs(s[1 + n..])
        case None => None
        case Some((d, rest)) => Some((Open(s[1..1 + n], d), rest))
    else None
  }

  /** All the tags of a markup, in order. */
  function Scan(s: string): seq<Token>
    decreases |s|
  {
    if s == [] then []
    else
      match ReadTag(s)
      case None => Scan(s[1..])
      case Some((token, rest)) => [token] + Scan(rest)
  }

  /** The value of an attribute. */
  function Get(d: Dict, k: string): Option<string> {
    if d == [] then None else if d[0].0 == k then Some(d[0].1) else Get(d[1..], k)
  }

  function Opens(tokens: seq<Token>): seq<Token> {
    if tokens == [] then []
    else (if tokens[0].Open? then [tokens[0]] else []) + Opens(tokens[1..])
  }

  // ------------------------------------------------------------------------ reading a tag

  predicate NamesOnly(d: Dict) { forall i | 0 <= i < |d| :: IsName(d[i].0) }

  lemma {:induction false} NameEnds(name: string, rest: string)
    requires forall i | 0 <= i < |name| :: NameChar(name[i])
    requires rest != [] && !NameChar(rest[0])
    ensures NameLength(name + rest) == |name|
  {
    if name == [] {
      assert name + rest == rest;
    } else {
      assert (name + rest)[1..] == name[1..] + rest;
      NameEnds(name[1..], rest);
    }
  }

  lemma {:induction false} QuoteEnds(value: string, rest: string)
    requires '"' !in value
    ensures ToQuote(value + "\"" + rest) == |value|
  {
    var s := value + "\"" + rest;
    if value != [] {
      assert s[0] == value[0] && s[1..] == value[1..] + "\"" + rest;
      QuoteEnds(value[1..], rest);
    }
  }

  lemma {:induction false} EscapedIsQuoteFree(value: string)
    ensures '"' !in EscapeAttr(value)
  {
    EscapeIsPerChar(value);
    if value != [] {
      EscapedIsQuoteFree(value[1..]);
      EscapeIsPerChar(value[1..]);
    }
  }

  /** The attributes of a tag, each after a blank. */
  function AttrsMarkup(d: Dict): string {
    if d == [] then "" else OneAttr(d[0].0, d[0].1, AttrsMarkup(d[1..]))
  }

  function OneAttr(name: string, value: string, more: string): string {
    " " + (name + ("=\"" + (EscapeAttr(value) + ("\"" + more))))
  }

  lemma OneAttrThen(name: string, value: string, more: string, rest: string)
    ensures OneAttr(name, value, more) + rest == OneAttr(name, value, more + rest)
  {
    var e := EscapeAttr(value);
    Regroup("\"", more, rest);
    Regroup(e, "\"" + more, rest);
    Regroup("=\"", e + ("\"" + more), rest);
    Regroup(name, "=\"" + (e + ("\"" + more)), rest);
    Regroup(" ", name + ("=\"" + (e + ("\"" + more))), rest);
  }

  lemma Regroup(a: string, b: string, c: string)
    ensures (a + b) + c == a + (b + c)
  {}

  lemma {:induction false} AttrsMarkupSnoc(d: Dict, a: (string, string))
    ensures AttrsMarkup(d + [a]) == AttrsMarkup(d) + AttrsMarkup([a])
  {
    if d == [] {
      assert d + [a] == [a];
    } else {
      assert (d + [a])[1..] == d[1..] + [a];
      AttrsMarkupSnoc(d[1..], a);
      OneAttrThen(d[0].0, d[0].1, AttrsMarkup(d[1..]), AttrsMarkup([a]));
    }
  }

  lemma OneAttrText(a: (string, string))
    ensures AttrsMarkup([a]) == " " + AttrText([a])
  {
    assert [a][1..] == [];
    assert AttrText([a]) == a.0 + "=\"" + EscapeAttr(a.1) + "\"";
  }

  lemma {:induction false} AttrTextIs(d: Dict)
    requires d != []
    ensures AttrsMarkup(d) == " " + AttrText(d)
  {
    hide OneAttr, EscapeAttr;
    var n := |d| - 1;
    assert d == d[..n] + [d[n]] && d[n..] == [d[n]];
    OneAttrText(d[n]);
    if n > 0 {
      AttrTextIs(d[..n]);
      AttrsMarkupSnoc(d[..n], d[n]);
      assert (" " + AttrText(d[..n])) + (" " + AttrText([d[n]])) == " " + (AttrText(d[..n]) + " " + AttrText([d[n]]));
    }
  }

  lemma OpenTagIs(tag: string, d: Dict)
    ensures OpenTag(tag, d) == "<" + tag + AttrsMarkup(d) + ">"
  {
    if d != [] {
      AttrTextIs(d);
      assert AttrText(d) != [] by {
        var n := |d| - 1;
        assert AttrText(d[n..]) != [] || n == 0;
      }
    }
  }

  lemma Cut(a: string, b: string)
    ensures (a + b)[|a|..] == b && (a + b)[..|a|] == a
  {}

  /** One attribute is read, whatever its value. */
  lemma OneAttrRead(name: string, value: string, more: string)
    requires IsName(name)
    ensures ReadAttrs(OneAttr(name, value, more))
         == match ReadAttrs(more)
            case None => None
            case Some((d, rest)) => Some(([(name, value)] + d, rest))
  {
    var e := EscapeAttr(value);
    var closing := "\"" + more;
    var after := "=\"" + (e + closing);
    var s := " " + (name + after);
    Cut(" ", name + after);
    Cut(name, after);
    Cut("=\"", e + closing);
    Cut(e, closing);
    Cut("\"", more);
    NameEnds(name, after);
    EscapedIsQuoteFree(value);
    QuoteEnds(e, more);
    assert e + "\"" + more == e + closing;
    EscapeRoundTrip(value);
    ReadStep(s, name, after, e, closing, more);
  }

  /** One round of the reader, on slices. */
  lemma ReadStep(s: string, name: string, after: string, e: string, closing: string, more: string)
    requires s != [] && s[0] == ' ' && s[1..] == name + after && name != []
    requires NameLength(name + after) == |name|
    requires "=\"" <= after && after[2..] == e + closing && closing == "\"" + more
    requires ToQuote(e + closing) == |e|
    ensures ReadAttrs(s) == match ReadAttrs(more)
                            case None => None
                            case Some((d, rest)) => Some(([(name, Unescape(e))] + d, rest))
  {
    hide Unescape;
    Cut(name, after);
    Cut(e, closing);
    assert s[1 + |name|..] == s[1..][|name|..] == after;
    assert s[1..1 + |name|] == s[1..][..|name|] == name;
    assert after[2..2 + |e|] == after[2..][..|e|] == e;
    assert after[3 + |e|..] == after[2..][|e|..][1..] == more;
  }

  lemma {:induction false} AttrsRead(d: Dict, rest: string)
    requires NamesOnly(d)
    ensures ReadAttrs(AttrsMarkup(d) + ">" + rest) == Some((d, rest))
  {
    if d == [] {
      var s := ">" + rest;
      assert AttrsMarkup(d) + ">" + rest == s && s[1..] == rest;
    } else {
      var more := AttrsMarkup(d[1..]) + ">" + rest;
      AttrsRead(d[1..], rest);
      OneAttrRead(d[0].0, d[0].1, more);
      hide ReadAttrs, OneAttr;
      OneAttrThen(d[0].0, d[0].1, AttrsMarkup(d[1..]), ">" + rest);
      Regroup(AttrsMarkup(d), ">", rest);
      Regroup(AttrsMarkup(d[1..]), ">", rest);
      assert [(d[0].0, d[0].1)] + d[1..] == d;
    }
  }

  /** The reader gets the tag name and every attribute back, unescaped, whatever the values
      hold. */
  lemma OpenTagReads(tag: string, d: Dict, rest: string)
    requires IsName(tag) && NamesOnly(d)
    ensures ReadTag(OpenTag(tag, d) + rest) == Some((Open(tag, d), rest))
  {
    var more := AttrsMarkup(d) + ">" + rest;
    OpenTagIs(tag, d);
    var s := "<" + tag + more;
    assert OpenTag(tag, d) + rest == s;
    assert s[1] == tag[0] && NameChar(tag[0]);
    assert s[1..] == tag + more;
    assert more[0] == ' ' || more[0] == '>';
    NameEnds(tag, more);
    assert s[1..1 + |tag|] == tag && s[1 + |tag|..] == more;
    AttrsRead(d, rest);
  }

  lemma CloseTagReads(tag: string, rest: string)
    requires IsName(tag)
    ensures ReadTag(CloseTag(tag) + rest) == Some((Close(tag), rest))
  {
    var s, more := CloseTag(tag) + rest, ">" + rest;
    assert s == "</" + tag + more;
    assert s[2..] == tag + more;
    NameEnds(tag, more);
    assert s[2..2 + |tag|] == tag && s[2 + |tag|..] == more && s[3 + |tag|..] == rest;
  }

  lemma {:induction false} TextIsNoTag(t: string, rest: string)
    requires '<' !in t
    ensures Scan(t + rest) == Scan(rest)
  {
    if t == [] {
      assert t + rest == rest;
    } else {
      var s := t + rest;
      assert s[0] == t[0] && s[1..] == t[1..] + rest;
      TextIsNoTag(t[1..], rest);
    }
  }

  // ------------------------------------------------------------------- the whole document

  /** Tags have names, and no text looks like a tag. */
  predicate Readable(k: Kept) {
    match k
    case Box(tag, _, children) => IsName(tag) && AllReadable(children)
    case Leaf(tag, _) => IsName(tag)
    case Words(text) => '<' !in text
  }

  predicate AllReadable(ks: seq<Kept>) { ks == [] || (Readable(ks[0]) && AllReadable(ks[1..])) }

  /** The i-th tag that opens is that of the i-th element: same tag name, same attributes,
      and the number of the element as its pid. */
  ghost predicate Tells(opens: seq<Token>, rows: seq<ElementInfo>, n: nat) {
    |opens| == |rows| && forall i | 0 <= i < |rows| :: TellsOne(opens[i], rows[i], n + i)
  }

  predicate TellsOne(token: Token, row: ElementInfo, n: nat) {
    && token.Open? && token.tag == row.tag
    && Without(token.attrs, PID) == row.attrs
    && Get(token.attrs, PID) == Some("p" + Decimal(n))
  }

  lemma {:induction false} GetSet(d: Dict, k: string, v: string)
    ensures Get(DictSet(d, k, v), k) == Some(v)
  {
    if d != [] && d[0].0 != k {
      GetSet(d[1..], k, v);
    }
  }

  lemma {:induction false} SetNames(d: Dict, k: string, v: string)
    requires NamesOnly(d) && IsName(k)
    ensures NamesOnly(DictSet(d, k, v))
  {
    if d != [] && d[0].0 != k {
      SetNames(d[1..], k, v);
    }
  }

  lemma KeptIsName(name: string)
    requires IsKept(name)
    ensures IsName(name)
  {
    hide IsSpace;
    assert forall c: char | 'a' <= c <= 'z' || c == '-' :: NameChar(c) by { LettersAreNameChars(); }
    assert forall i | 0 <= i < |name| :: 'a' <= name[i] <= 'z' || name[i] == '-';
  }

  lemma LettersAreNameChars()
    ensures forall c: char | 'a' <= c <= 'z' || c == '-' :: NameChar(c)
  {}

  lemma PidNames(attrs: Dict, n: nat)
    requires CleanDict(attrs)
    ensures NamesOnly(Tagged(attrs, n)) && Get(Tagged(attrs, n), PID) == Some("p" + Decimal(n))
  {
    forall i | 0 <= i < |attrs| ensures IsName(attrs[i].0) {
      KeptIsName(attrs[i].0);
    }
    SetNames(attrs, PID, PidName(n));
    GetSet(attrs, PID, PidName(n));
  }

  lemma {:induction false} OpensConcat(a: seq<Token>, b: seq<Token>)
    ensures Opens(a + b) == Opens(a) + Opens(b)
  {
    if a == [] {
      assert a + b == b;
    } else {
      assert (a + b)[1..] == a[1..] + b;
      OpensConcat(a[1..], b);
    }
  }

  lemma TellsConcat(a: seq<Token>, r: seq<ElementInfo>, b: seq<Token>, q: seq<ElementInfo>, n: nat)
    requires Tells(a, r, n) && Tells(b, q, n + |r|)
    ensures Tells(a + b, r + q, n)
  {
    hide TellsOne;
    forall i | |r| <= i < |r + q| ensures TellsOne((a + b)[i], (r + q)[i], n + i) {
      assert TellsOne(b[i - |r|], q[i - |r|], n + |r| + (i - |r|));
    }
  }

  lemma TellsRow(token: Token, row: ElementInfo, n: nat)
    requires TellsOne(token, row, n)
    ensures Tells([token], [row], n) && Opens([token]) == [token]
  {
    assert [token][1..] == [];
  }

  /** The tags of a piece, read in front of anything else. */
  lemma {:induction false} PieceScans(k: Kept, n: nat, rest: string) returns (tokens: seq<Token>)
    requires Clean(k) && Readable(k)
    ensures Scan(Draw(k, n).html + rest) == tokens + Scan(rest)
    ensures Tells(Opens(tokens), Draw(k, n).rows, n)
    decreases k, 0
  {
    match k {
      case Box(tag, attrs, children) =>
        var d, inner := Tagged(attrs, n), DrawAll(children, n + 1);
        var last := CloseTag(tag) + rest;
        PidNames(attrs, n);
        OpenTagReads(tag, d, inner.html + last);
        var within := PiecesScan(children, n + 1, last);
        CloseTagReads(tag, rest);
        BoxScans(tag, d, inner, within, rest);
        tokens := [Open(tag, d)] + within + [Close(tag)];
        var row := ElementInfo(tag, inner.text, Without(d, PID), inner.kids);
        TellsRow(Open(tag, d), row, n);
        TellsConcat([Open(tag, d)], [row], Opens(within), inner.rows, n);
        OpensAround(Open(tag, d), within, Close(tag));
      case Leaf(tag, attrs) =>
        var d := Tagged(attrs, n);
        PidNames(attrs, n);
        OpenTagReads(tag, d, rest);
        tokens := [Open(tag, d)];
        assert OpenTag(tag, d) + rest != [] by { OpenTagIs(tag, d); }
        TellsRow(Open(tag, d), ElementInfo(tag, "", Without(d, PID), []), n);
      case Words(text) =>
        TextIsNoTag(text, rest);
        tokens := [];
        assert tokens + Scan(rest) == Scan(rest);
    }
  }

  lemma OpensAround(open: Token, within: seq<Token>, close: Token)
    requires open.Open? && close.Close?
    ensures Opens([open] + within + [close]) == [open] + Opens(within)
  {
    OpensConcat([open] + within, [close]);
    OpensConcat([open], within);
    assert [open][1..] == [] && [close][1..] == [];
  }

  lemma BoxScans(tag: string, d: Dict, inner: Piece, within: seq<Token>, rest: string)
    requires ReadTag(OpenTag(tag, d) + (inner.html + (CloseTag(tag) + rest)))
          == Some((Open(tag, d), inner.html + (CloseTag(tag) + rest)))
    requires Scan(inner.html + (CloseTag(tag) + rest)) == within + Scan(CloseTag(tag) + rest)
    requires ReadTag(CloseTag(tag) + rest) == Some((Close(tag), rest))
    ensures Scan(OpenTag(tag, d) + inner.html + CloseTag(tag) + rest)
         == [Open(tag, d)] + within + [Close(tag)] + Scan(rest)
  {
    hide ReadTag, OpenTag;
    var last := CloseTag(tag) + rest;
    assert OpenTag(tag, d) + inner.html + CloseTag(tag) + rest == OpenTag(tag, d) + (inner.html + last);
    assert last != [] && OpenTag(tag, d) + (inner.html + last) != [];
    assert [Open(tag, d)] + (within + ([Close(tag)] + Scan(rest)))
        == [Open(tag, d)] + within + [Close(tag)] + Scan(rest);
  }

  lemma {:induction false} PiecesScan(ks: seq<Kept>, n: nat, rest: string) returns (tokens: seq<Token>)
    requires AllClean(ks) && AllReadable(ks)
    ensures Scan(DrawAll(ks, n).html + rest) == tokens + Scan(rest)
    ensures Tells(Opens(tokens), DrawAll(ks, n).rows, n)
    decreases ks
  {
    hide Scan, Draw, Readable, Clean, Tells;
    if ks == [] {
      tokens := [];
      assert "" + rest == rest && tokens + Scan(rest) == Scan(rest);
      assert Tells([], [], n) by { TellsNothing(n); }
    } else {
      var p := Draw(ks[0], n);
      var q := DrawAll(ks[1..], n + |p.rows|);
      var first := PieceScans(ks[0], n, q.html + rest);
      var more := PiecesScan(ks[1..], n + |p.rows|, rest);
      tokens := first + more;
      assert p.html + q.html + rest == p.html + (q.html + rest);
      assert first + (more + Scan(rest)) == tokens + Scan(rest);
      OpensConcat(first, more);
      TellsConcat(Opens(first), p.rows, Opens(more), q.rows, n);
    }
  }

  lemma TellsNothing(n: nat)
    ensures Tells([], [], n)
  {}

  lemma ScanNothing()
    ensures Scan("") == []
  {}

  lemma {:induction false} DocumentScans(ks: seq<Kept>)
    requires AllClean(ks) && AllReadable(ks)
    ensures Tells(Opens(Scan(DrawAll(ks, 1).html)), DrawAll(ks, 1).rows, 1)
  {
    hide *;
    var html := DrawAll(ks, 1).html;
    var tokens := PiecesScan(ks, 1, "");
    assert html + "" == html;
    assert tokens + Scan("") == tokens by { ScanNothing(); }
  }

  /** The markup that the cleaner writes tells its element table: reading the opening tags in
      order gives the elements p1, p2, ..., pn with the tag names and attributes that the
      table holds under those numbers, unescaped. */
  lemma MarkupTellsTable(ns: seq<Node>)
    requires AllWellFormed(ns) && AllReadable(PruneAll(ns))
    ensures var st := DomCleaner.Feed(DomCleaner.FRESH, DomCleaner.EventsAll(ns));
            var opens := Opens(Scan(st.output));
            && |opens| == st.pidCounter
            && forall i | 0 <= i < |opens| :: i + 1 in st.elements && TellsOne(opens[i], st.elements[i + 1], i + 1)
  {
    hide Scan, Opens, PruneAll, AllReadable, AllWellFormed, TellsOne, DrawAll, DomCleaner.Feed, DomCleaner.EventsAll;
    PruneAllClean(ns);
    DomCleaner.CleaningIsPruning(ns);
    DocumentScans(PruneAll(ns));
    var rows := DrawAll(PruneAll(ns), 1).rows;
    forall i | 0 <= i < |rows|
      ensures i + 1 in DomCleaner.AsMap(rows, 1) && DomCleaner.AsMap(rows, 1)[i + 1] == rows[i]
    {
      assert DomCleaner.Row(rows, 1, i + 1) == rows[i];
    }
  }
}
