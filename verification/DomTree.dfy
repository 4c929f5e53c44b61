/** The cleaned document as a recursive prune of the element tree: the reference that the
    streaming cleaner is measured against. */
module DomTree {
  import opened Text

  // The tag and attribute tables of the cleaner.
  const STRIP_TAGS := {"script", "style", "svg", "noscript", "iframe", "link", "meta", "head",
                       "template", "object", "embed", "applet"}
  const SKIP_TAGS := {"br", "hr", "wbr", "col", "colgroup", "source", "track", "param"}
  const VOID_TAGS := {"area", "base", "br", "col", "embed", "hr", "img", "input", "link", "meta",
                      "param", "source", "track", "wbr"}
  const KEEP_ATTRS := {"id", "class", "name", "type", "value", "placeholder", "href", "src", "alt",
                       "title", "role", "aria-label", "aria-labelledby", "aria-describedby", "for",
                       "action", "method", "data-pid"}

  predicate IsStrip(tag: string) { tag in STRIP_TAGS }
  predicate IsSkip(tag: string) { tag in SKIP_TAGS }
  predicate IsVoid(tag: string) { tag in VOID_TAGS }
  predicate IsKept(name: string) { name in KEEP_ATTRS }

  const PID: string := "data-pid"

  function PidName(n: nat): string { "p" + Decimal(n) }

  // ------------------------------------------------------------------- attributes

  datatype Attr = Attr(name: string, value: Option<string>)

  /** A dictionary in insertion order. */
  type Dict = seq<(string, string)>

  /** Assignment keeps the place of a key that is already there. */
  function DictSet(d: Dict, k: string, v: string): Dict {
    if d == [] then [(k, v)]
    else if d[0].0 == k then [(k, v)] + d[1..]
    else [d[0]] + DictSet(d[1..], k, v)
  }

  function Without(d: Dict, k: string): Dict {
    if d == [] then [] else (if d[0].0 == k then [] else [d[0]]) + Without(d[1..], k)
  }

  /** The attributes that survive, as the loop over `attrs` builds them. */
  function KeptAttrs(attrs: seq<Attr>): Dict {
    if attrs == [] then []
    else
      var d := KeptAttrs(attrs[..|attrs| - 1]);
      var a := attrs[|attrs| - 1];
      if IsKept(Lower(a.name)) && a.value.Some? then DictSet(d, Lower(a.name), a.value.value) else d
  }

  function Tagged(d: Dict, n: nat): Dict { DictSet(d, PID, PidName(n)) }

  // ----------------------------------------------------------------- text and markup

  /** `re.sub(r"\s+", " ", s)` */
  function Squeeze(s: string): string {
    if s == [] then []
    else if !IsSpace(s[0]) then [s[0]] + Squeeze(s[1..])
    else if |s| > 1 && IsSpace(s[1]) then Squeeze(s[1..])
    else " " + Squeeze(s[1..])
  }

  function Collapse(s: string): (r: string)
    ensures Trimmed(r)
  {
    StripTrims(Squeeze(s));
    Strip(Squeeze(s))
  }

  function Replace(s: string, c: char, sub: string): string {
    if s == [] then [] else (if s[0] == c then sub else [s[0]]) + Replace(s[1..], c, sub)
  }

  function EscapeAttr(value: string): string {
    Replace(Replace(Replace(Replace(value, '&', "&amp;"), '"', "&quot;"), '<', "&lt;"), '>', "&gt;")
  }

  function AttrText(d: Dict): string {
    if d == [] then ""
    else if |d| == 1 then d[0].0 + "=\"" + EscapeAttr(d[0].1) + "\""
    else AttrText(d[..|d| - 1]) + " " + AttrText(d[|d| - 1..])
  }

  function OpenTag(tag: string, d: Dict): string {
    if AttrText(d) != [] then "<" + tag + " " + AttrText(d) + ">" else "<" + tag + ">"
  }

  function CloseTag(tag: string): string { "</" + tag + ">" }

  // ------------------------------------------------------------------ element trees

  /** An element tree as the tokeniser reports it. A void element has no end tag unless it
      was written self-closing. */
  datatype Node =
    | Element(tag: string, attrs: seq<Attr>, children: seq<Node>)
    | Void(tag: string, attrs: seq<Attr>, selfClosing: bool)
    | Characters(data: string)
    | Comment(data: string)

  predicate WellFormed(n: Node) {
    match n
    case Element(tag, _, children) => !IsVoid(Lower(tag)) && AllWellFormed(children)
    case Void(tag, _, _) => IsVoid(Lower(tag))
    case _ => true
  }

  predicate AllWellFormed(ns: seq<Node>) {
    ns == [] || (WellFormed(ns[0]) && AllWellFormed(ns[1..]))
  }

  /** What survives the prune. */
  datatype Kept =
    | Box(tag: string, attrs: Dict, children: seq<Kept>)
    | Leaf(tag: string, attrs: Dict)
    | Words(text: string)

  /** Drops STRIP subtrees and blank text, and splices the children of SKIP elements. */
  function Prune(n: Node): seq<Kept> {
    match n
    case Element(tag, attrs, children) =>
      if IsStrip(Lower(tag)) then []
      else if IsSkip(Lower(tag)) then PruneAll(children)
      else [Box(Lower(tag), KeptAttrs(attrs), PruneAll(children))]
    case Void(tag, attrs, _) =>
      if IsStrip(Lower(tag)) || IsSkip(Lower(tag)) then [] else [Leaf(Lower(tag), KeptAttrs(attrs))]
    case Characters(data) => if Collapse(data) == [] then [] else [Words(Collapse(data))]
    case Comment(_) => []
  }

  function PruneAll(ns: seq<Node>): seq<Kept> {
    if ns == [] then [] else Prune(ns[0]) + PruneAll(ns[1..])
  }

  // ------------------------------------------- preorder numbering, markup, element table

  datatype ElementInfo = ElementInfo(tag: string, text: string, attrs: Dict, children: seq<nat>)

  /** What cleaning makes of a piece of the document: its markup, the element table in the
      order of the numbers, and the text and the element numbers that stand at its top. */
  datatype Piece = Piece(html: string, rows: seq<ElementInfo>, text: string, kids: seq<nat>)

  const NOTHING := Piece("", [], "", [])

  /** Texts under one parent are joined by a blank. */
  function Spaced(s: string, t: string): string {
    if s == [] then t else if t == [] then s else s + " " + t
  }

  function Beside(a: Piece, b: Piece): Piece {
    Piece(a.html + b.html, a.rows + b.rows, Spaced(a.text, b.text), a.kids + b.kids)
  }

  /** A kept node whose elements are numbered in preorder from `n`. */
  function Draw(k: Kept, n: nat): Piece
    decreases k, 0
  {
    match k
    case Box(tag, attrs, children) =>
      var d := Tagged(attrs, n);
      var inner := DrawAll(children, n + 1);
      Piece(OpenTag(tag, d) + inner.html + CloseTag(tag),
          [ElementInfo(tag, inner.text, Without(d, PID), inner.kids)] + inner.rows, "", [n])
    case Leaf(tag, attrs) =>
      var d := Tagged(attrs, n);
      Piece(OpenTag(tag, d), [ElementInfo(tag, "", Without(d, PID), [])], "", [n])
    case Words(text) => Piece(text, [], text, [])
  }

  function DrawAll(ks: seq<Kept>, n: nat): Piece
    decreases ks
  {
    if ks == [] then NOTHING
    else
      var p := Draw(ks[0], n);
      Beside(p, DrawAll(ks[1..], n + |p.rows|))
  }

  lemma BesideAssociates(a: Piece, b: Piece, c: Piece)
    ensures Beside(Beside(a, b), c) == Beside(a, Beside(b, c))
  {
    assert (a.html + b.html) + c.html == a.html + (b.html + c.html);
    assert (a.text + " " + b.text) + " " + c.text == a.text + " " + (b.text + " " + c.text);
  }

  lemma NothingBeside(p: Piece)
    ensures Beside(NOTHING, p) == p && Beside(p, NOTHING) == p
  {
    assert "" + p.html == p.html && p.html + "" == p.html;
  }

  lemma DrawAllCons(k: Kept, ks: seq<Kept>, n: nat)
    ensures DrawAll([k] + ks, n) == Beside(Draw(k, n), DrawAll(ks, n + |Draw(k, n).rows|))
  {
    hide Draw;
    assert ([k] + ks)[1..] == ks;
  }

  lemma {:induction false} DrawConcat(a: seq<Kept>, b: seq<Kept>, n: nat)
    ensures DrawAll(a + b, n) == Beside(DrawAll(a, n), DrawAll(b, n + |DrawAll(a, n).rows|))
  {
    hide Draw, OpenTag, Tagged;
    if a == [] {
      assert a + b == b;
      NothingBeside(DrawAll(b, n));
    } else {
      var k, tail := a[0], a[1..];
      var p := Draw(k, n);
      var m := n + |p.rows|;
      assert a == [k] + tail && a + b == [k] + (tail + b);
      DrawAllCons(k, tail, n);
      DrawAllCons(k, tail + b, n);
      DrawConcat(tail, b, m);
      var x := DrawAll(tail, m);
      BesideAssociates(p, x, DrawAll(b, m + |x.rows|));
    }
  }

  lemma DrawOne(k: Kept, n: nat)
    ensures DrawAll([k], n) == Draw(k, n)
  {
    assert [k][1..] == [];
  }

  // --------------------------------------------------------------- cleaning is idempotent

  /** The attributes a cleaned tag carries: distinct kept names in lower case. */
  ghost predicate CleanDict(d: Dict) {
    && (forall i | 0 <= i < |d| :: IsKept(d[i].0) && Lower(d[i].0) == d[i].0)
    && (forall i, j | 0 <= i < j < |d| :: d[i].0 != d[j].0)
  }

  predicate Named(d: Dict, k: string) { exists i | 0 <= i < |d| :: d[i].0 == k }

  lemma {:induction false} DictSetNames(d: Dict, k: string, v: string, x: string)
    requires Named(DictSet(d, k, v), x)
    ensures x == k || Named(d, x)
  {
    if d != [] && d[0].0 != k && d[0].0 != x {
      var r := DictSet(d[1..], k, v);
      var i :| 0 <= i < |DictSet(d, k, v)| && DictSet(d, k, v)[i].0 == x;
      assert r[i - 1].0 == x;
      DictSetNames(d[1..], k, v, x);
      if x != k {
        var j :| 0 <= j < |d[1..]| && d[1..][j].0 == x;
        assert d[j + 1].0 == x;
      }
    }
  }

  lemma CleanDictCons(h: (string, string), t: Dict)
    requires IsKept(h.0) && Lower(h.0) == h.0 && CleanDict(t) && !Named(t, h.0)
    ensures CleanDict([h] + t)
  {
    hide IsKept, Lower;
  }

  lemma {:induction false} DictSetClean(d: Dict, k: string, v: string)
    requires CleanDict(d) && IsKept(k) && Lower(k) == k
    ensures CleanDict(DictSet(d, k, v))
  {
    hide IsKept, Lower;
    if d != [] && d[0].0 != k {
      assert CleanDict(d[1..]);
      DictSetClean(d[1..], k, v);
      if Named(DictSet(d[1..], k, v), d[0].0) {
        DictSetNames(d[1..], k, v, d[0].0);
      }
      CleanDictCons(d[0], DictSet(d[1..], k, v));
    }
  }

  lemma LowerIdempotent(s: string)
    ensures Lower(Lower(s)) == Lower(s)
  {}

  lemma {:induction false} KeptAttrsClean(attrs: seq<Attr>)
    ensures CleanDict(KeptAttrs(attrs))
  {
    hide IsKept, Lower;
    if attrs != [] {
      KeptAttrsClean(attrs[..|attrs| - 1]);
      var a := attrs[|attrs| - 1];
      LowerIdempotent(a.name);
      if IsKept(Lower(a.name)) && a.value.Some? {
        DictSetClean(KeptAttrs(attrs[..|attrs| - 1]), Lower(a.name), a.value.value);
      }
    }
  }

  function AsAttrs(d: Dict): (attrs: seq<Attr>)
    ensures |attrs| == |d| && forall i | 0 <= i < |d| :: attrs[i] == Attr(d[i].0, Some(d[i].1))
  {
    if d == [] then [] else [Attr(d[0].0, Some(d[0].1))] + AsAttrs(d[1..])
  }

  lemma {:induction false} DictSetNew(d: Dict, k: string, v: string)
    requires forall i | 0 <= i < |d| :: d[i].0 != k
    ensures DictSet(d, k, v) == d + [(k, v)]
  {
    if d != [] {
      DictSetNew(d[1..], k, v);
    }
  }

  lemma {:induction false} DictSetAgain(d: Dict, k: string, v: string)
    ensures DictSet(DictSet(d, k, v), k, v) == DictSet(d, k, v)
  {
    if d != [] && d[0].0 != k {
      DictSetAgain(d[1..], k, v);
    }
  }

  lemma {:induction false} KeptAttrsFixed(d: Dict)
    requires CleanDict(d)
    ensures KeptAttrs(AsAttrs(d)) == d
  {
    hide IsKept, Lower;
    if d != [] {
      var init := d[..|d| - 1];
      assert CleanDict(init);
      KeptAttrsFixed(init);
      assert AsAttrs(d)[..|d| - 1] == AsAttrs(init);
      DictSetNew(init, d[|d| - 1].0, d[|d| - 1].1);
      assert d == init + [d[|d| - 1]];
    }
  }

  /** A kept tree that a prune can have produced. */
  ghost predicate Clean(k: Kept) {
    match k
    case Box(tag, attrs, children) =>
      && Lower(tag) == tag && !IsStrip(tag) && !IsSkip(tag) && !IsVoid(tag) && CleanDict(attrs)
      && AllClean(children)
    case Leaf(tag, attrs) =>
      Lower(tag) == tag && !IsStrip(tag) && !IsSkip(tag) && IsVoid(tag) && CleanDict(attrs)
    case Words(text) => text != [] && Collapse(text) == text
  }

  ghost predicate AllClean(ks: seq<Kept>) {
    ks == [] || (Clean(ks[0]) && AllClean(ks[1..]))
  }

  lemma {:induction false} AllCleanConcat(a: seq<Kept>, b: seq<Kept>)
    requires AllClean(a) && AllClean(b)
    ensures AllClean(a + b)
  {
    if a == [] {
      assert a + b == b;
    } else {
      assert (a + b)[0] == a[0] && (a + b)[1..] == a[1..] + b;
      AllCleanConcat(a[1..], b);
    }
  }

  /** No whitespace but single blanks. */
  predicate Squeezed(s: string) {
    forall i | 0 <= i < |s| && IsSpace(s[i]) :: s[i] == ' ' && (i + 1 < |s| ==> !IsSpace(s[i + 1]))
  }

  lemma {:induction false} SqueezeSqueezes(s: string)
    ensures Squeezed(Squeeze(s))
    ensures s != [] && !IsSpace(s[0]) ==> Squeeze(s) != [] && Squeeze(s)[0] == s[0]
  {
    if s != [] {
      SqueezeSqueezes(s[1..]);
    }
  }

  lemma {:induction false} SqueezeFixed(s: string)
    requires Squeezed(s)
    ensures Squeeze(s) == s
  {
    if s != [] {
      assert Squeezed(s[1..]);
      SqueezeFixed(s[1..]);
      assert s == [s[0]] + s[1..];
    }
  }

  lemma {:induction false} StripSqueezed(s: string)
    requires Squeezed(s)
    ensures Squeezed(Strip(s))
  {
    StripLeftSqueezed(s);
    StripRightSqueezed(StripLeft(s));
  }

  lemma StripLeftSqueezed(s: string)
    requires Squeezed(s)
    ensures Squeezed(StripLeft(s))
  {
    if s != [] && IsSpace(s[0]) {
      assert Squeezed(s[1..]);
    }
  }

  lemma StripRightSqueezed(s: string)
    requires Squeezed(s)
    ensures Squeezed(StripRight(s))
  {
    if s != [] && IsSpace(s[|s| - 1]) {
      assert Squeezed(s[..|s| - 1]);
    }
  }

  /** Collapsing whitespace twice is collapsing it once. */
  lemma CollapseIdempotent(s: string)
    ensures Collapse(Collapse(s)) == Collapse(s)
  {
    SqueezeSqueezes(s);
    StripSqueezed(Squeeze(s));
    SqueezeFixed(Collapse(s));
    StripKeepsTrimmed(Collapse(s));
  }

  lemma {:induction false} PruneClean(n: Node)
    requires WellFormed(n)
    ensures AllClean(Prune(n))
    decreases n, 0
  {
    hide IsKept, IsStrip, IsSkip, IsVoid, Lower;
    match n {
      case Element(tag, attrs, children) =>
        LowerIdempotent(tag);
        KeptAttrsClean(attrs);
        PruneAllClean(children);
      case Void(tag, attrs, _) =>
        LowerIdempotent(tag);
        KeptAttrsClean(attrs);
      case Characters(data) =>
        CollapseIdempotent(data);
        assert [Words(Collapse(data))][1..] == [];
      case Comment(_) =>
    }
  }

  lemma {:induction false} PruneAllClean(ns: seq<Node>)
    requires AllWellFormed(ns)
    ensures AllClean(PruneAll(ns))
    decreases ns
  {
    if ns != [] {
      PruneClean(ns[0]);
      PruneAllClean(ns[1..]);
      AllCleanConcat(Prune(ns[0]), PruneAll(ns[1..]));
    }
  }

  /** The cleaned document read back as an element tree: every element now carries its
      number, and no comment or blank text is left. */
  function ReadBack(k: Kept, n: nat): Node {
    match k
    case Box(tag, attrs, children) => Element(tag, AsAttrs(Tagged(attrs, n)), ReadBackAll(children, n + 1))
    case Leaf(tag, attrs) => Void(tag, AsAttrs(Tagged(attrs, n)), false)
    case Words(text) => Characters(text)
  }

  function ReadBackAll(ks: seq<Kept>, n: nat): seq<Node> {
    if ks == [] then [] else [ReadBack(ks[0], n)] + ReadBackAll(ks[1..], n + |Draw(ks[0], n).rows|)
  }

  lemma PidIsKept()
    ensures IsKept(PID) && Lower(PID) == PID
  {
    var p := PID;
    assert p in KEEP_ATTRS;
  }

  lemma TaggedFixed(d: Dict, n: nat)
    requires CleanDict(d)
    ensures KeptAttrs(AsAttrs(Tagged(d, n))) == Tagged(d, n) && Tagged(Tagged(d, n), n) == Tagged(d, n)
  {
    hide IsKept, Lower;
    PidIsKept();
    DictSetClean(d, PID, PidName(n));
    KeptAttrsFixed(Tagged(d, n));
    DictSetAgain(d, PID, PidName(n));
  }

  /** Pruning the read-back document changes neither markup nor numbering nor table. */
  lemma {:induction false} Reclean(k: Kept, n: nat)
    requires Clean(k)
    ensures WellFormed(ReadBack(k, n)) && DrawAll(Prune(ReadBack(k, n)), n) == Draw(k, n)
    decreases k, 0
  {
    hide IsKept, IsStrip, IsSkip, IsVoid, Lower;
    match k {
      case Box(tag, attrs, children) =>
        TaggedFixed(attrs, n);
        RecleanAll(children, n + 1);
        DrawOne(Prune(ReadBack(k, n))[0], n);
      case Leaf(tag, attrs) =>
        TaggedFixed(attrs, n);
        DrawOne(Prune(ReadBack(k, n))[0], n);
      case Words(text) =>
        DrawOne(k, n);
    }
  }

  lemma {:induction false} RecleanAll(ks: seq<Kept>, n: nat)
    requires AllClean(ks)
    ensures AllWellFormed(ReadBackAll(ks, n)) && DrawAll(PruneAll(ReadBackAll(ks, n)), n) == DrawAll(ks, n)
    decreases ks
  {
    hide *;
    if ks == [] {
      RecleanNone(n);
    } else {
      var k, tail := ks[0], ks[1..];
      AllCleanParts(ks);
      var m := n + |Draw(k, n).rows|;
      Reclean(k, n);
      RecleanAll(tail, m);
      var head, rest := ReadBack(k, n), ReadBackAll(tail, m);
      assert ks == [k] + tail;
      ReadBackAllCons(k, tail, n);
      PruneAllCons(head, rest);
      AllWellFormedCons(head, rest);
      DrawConcat(Prune(head), PruneAll(rest), n);
      DrawAllCons(k, tail, n);
    }
  }

  lemma RecleanNone(n: nat)
    ensures AllWellFormed(ReadBackAll([], n)) && DrawAll(PruneAll(ReadBackAll([], n)), n) == DrawAll([], n)
  {}

  lemma AllCleanParts(ks: seq<Kept>)
    requires ks != [] && AllClean(ks)
    ensures Clean(ks[0]) && AllClean(ks[1..])
  {}

  lemma AllWellFormedCons(n: Node, ns: seq<Node>)
    requires WellFormed(n) && AllWellFormed(ns)
    ensures AllWellFormed([n] + ns)
  {
    hide WellFormed;
    assert ([n] + ns)[1..] == ns;
  }

  lemma ReadBackAllCons(k: Kept, tail: seq<Kept>, n: nat)
    ensures ReadBackAll([k] + tail, n) == [ReadBack(k, n)] + ReadBackAll(tail, n + |Draw(k, n).rows|)
  {
    hide Draw, ReadBack;
    assert ([k] + tail)[1..] == tail;
  }

  lemma PruneAllCons(n: Node, ns: seq<Node>)
    ensures PruneAll([n] + ns) == Prune(n) + PruneAll(ns)
  {
    assert ([n] + ns)[1..] == ns;
  }

  // ------------------------------------------------------------------------ escaping

  function EscapeChar(c: char): string {
    if c == '&' then "&amp;" else if c == '"' then "&quot;"
    else if c == '<' then "&lt;" else if c == '>' then "&gt;" else [c]
  }

  function EscapeEach(s: string): string {
    if s == [] then [] else EscapeChar(s[0]) + EscapeEach(s[1..])
  }

  lemma {:induction false} ReplaceConcat(a: string, b: string, c: char, sub: string)
    ensures Replace(a + b, c, sub) == Replace(a, c, sub) + Replace(b, c, sub)
  {
    if a == [] {
      assert a + b == b;
    } else {
      assert (a + b)[0] == a[0] && (a + b)[1..] == a[1..] + b;
      ReplaceConcat(a[1..], b, c, sub);
    }
  }

  lemma {:induction false} ReplaceAbsent(s: string, c: char, sub: string)
    requires c !in s
    ensures Replace(s, c, sub) == s
  {
    if s != [] {
      ReplaceAbsent(s[1..], c, sub);
    }
  }

  lemma EscapeAttrConcat(a: string, b: string)
    ensures EscapeAttr(a + b) == EscapeAttr(a) + EscapeAttr(b)
  {
    ReplaceConcat(a, b, '&', "&amp;");
    var (a1, b1) := (Replace(a, '&', "&amp;"), Replace(b, '&', "&amp;"));
    ReplaceConcat(a1, b1, '"', "&quot;");
    var (a2, b2) := (Replace(a1, '"', "&quot;"), Replace(b1, '"', "&quot;"));
    ReplaceConcat(a2, b2, '<', "&lt;");
    ReplaceConcat(Replace(a2, '<', "&lt;"), Replace(b2, '<', "&lt;"), '>', "&gt;");
  }

  lemma ReplaceOne(a: char, c: char, sub: string)
    ensures Replace([a], c, sub) == if a == c then sub else [a]
  {
    assert [a][1..] == [] && Replace([], c, sub) == [];
  }

  lemma EscapeAttrOne(c: char)
    ensures EscapeAttr([c]) == EscapeChar(c)
  {
    ReplaceOne(c, '&', "&amp;");
    if c == '&' {
      AmpersandStays("&amp;");
    } else {
      ReplaceOne(c, '"', "&quot;");
      EscapeAttrQuote(c);
    }
  }

  lemma AmpersandStays(s: string)
    requires '"' !in s && '<' !in s && '>' !in s
    ensures Replace(Replace(Replace(s, '"', "&quot;"), '<', "&lt;"), '>', "&gt;") == s
  {
    ReplaceAbsent(s, '"', "&quot;");
    ReplaceAbsent(s, '<', "&lt;");
    ReplaceAbsent(s, '>', "&gt;");
  }

  lemma EscapeAttrQuote(c: char)
    ensures Replace(Replace(if c == '"' then "&quot;" else [c], '<', "&lt;"), '>', "&gt;")
         == if c == '"' then "&quot;" else if c == '<' then "&lt;" else if c == '>' then "&gt;" else [c]
  {
    hide Replace;
    ReplaceOne(c, '<', "&lt;");
    ReplaceOne(c, '>', "&gt;");
    ReplaceAbsent("&quot;", '<', "&lt;");
    ReplaceAbsent("&quot;", '>', "&gt;");
    ReplaceAbsent("&lt;", '>', "&gt;");
  }

  /** The four passes over the value amount to one substitution per character. */
  lemma {:induction false} EscapeIsPerChar(s: string)
    ensures EscapeAttr(s) == EscapeEach(s)
  {
    if s == [] {
    } else {
      assert s == [s[0]] + s[1..];
      EscapeAttrConcat([s[0]], s[1..]);
      EscapeAttrOne(s[0]);
      EscapeIsPerChar(s[1..]);
    }
  }

  /** Reads the escapes back, as an attribute-value parser does. */
  function Unescape(s: string): string {
    if s == [] then []
    else if |s| >= 5 && s[..5] == "&amp;" then "&" + Unescape(s[5..])
    else if |s| >= 6 && s[..6] == "&quot;" then "\"" + Unescape(s[6..])
    else if |s| >= 4 && s[..4] == "&lt;" then "<" + Unescape(s[4..])
    else if |s| >= 4 && s[..4] == "&gt;" then ">" + Unescape(s[4..])
    else [s[0]] + Unescape(s[1..])
  }

  lemma UnescapeHead(c: char, rest: string)
    ensures Unescape(EscapeChar(c) + rest) == [c] + Unescape(rest)
  {
    var e := EscapeChar(c);
    var s := e + rest;
    assert s[|e|..] == rest && s[..|e|] == e;
    assert s != [] && s[0] == e[0];
    if c == '&' || c == '"' || c == '<' || c == '>' {
      assert s[1] == e[1];
      assert |s| >= 5 && s[..5] == "&amp;" ==> s[1] == 'a' by { if |s| >= 5 { assert s[..5][1] == s[1]; } }
      assert |s| >= 6 && s[..6] == "&quot;" ==> s[1] == 'q' by { if |s| >= 6 { assert s[..6][1] == s[1]; } }
      assert s[..4] == "&lt;" ==> s[1] == 'l' by { assert s[..4][1] == s[1]; }
    } else {
      assert e == [c];
      NoEscapeHere(s);
    }
  }

  lemma NoEscapeHere(s: string)
    requires s != [] && s[0] != '&'
    ensures Unescape(s) == [s[0]] + Unescape(s[1..])
  {
    assert |s| >= 5 ==> s[..5][0] == s[0];
    assert |s| >= 6 ==> s[..6][0] == s[0];
    assert |s| >= 4 ==> s[..4][0] == s[0];
  }

  /** Escaping loses nothing: the original value can be read back. */
  lemma {:induction false} EscapeRoundTrip(s: string)
    ensures Unescape(EscapeAttr(s)) == s
  {
    EscapeIsPerChar(s);
    if s != [] {
      EscapeRoundTrip(s[1..]);
      EscapeIsPerChar(s[1..]);
      UnescapeHead(s[0], EscapeEach(s[1..]));
    }
  }
}
