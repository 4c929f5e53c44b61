/** The streaming DOM cleaner: one pass over start, end and text events with a skip depth
    and a stack of open element numbers, proved to compute the recursive prune of DomTree. */
module DomCleaner {
  import opened Text
  import opened DomTree

  datatype Event =
    | StartTag(tag: string, attrs: seq<Attr>)
    | EndTag(tag: string)
    | Data(data: string)
    | Remark(data: string)

  /** The fields of the cleaner. Elements are keyed by the number in their pid. */
  datatype State = State(
    output: string,
    elements: map<nat, ElementInfo>,
    pidCounter: nat,
    skipDepth: nat,
    tagStack: seq<nat>)

  const FRESH := State("", map[], 0, 0, [])

  // ------------------------------------------------------------------------ handlers

  type Elements = map<nat, ElementInfo>

  /** Adds text and children to the innermost open element, if there is one. */
  function Adopt(elements: Elements, stack: seq<nat>, text: string, kids: seq<nat>): Elements {
    if stack != [] && stack[|stack| - 1] in elements then
      var e := elements[stack[|stack| - 1]];
      elements[stack[|stack| - 1] := e.(text := Spaced(e.text, text), children := e.children + kids)]
    else elements
  }

  function Opened(st: State, tag: string, attrs: seq<Attr>): State {
    var pid := st.pidCounter + 1;
    var d := Tagged(KeptAttrs(attrs), pid);
    var info := ElementInfo(tag, "", Without(d, PID), []);
    State(st.output + OpenTag(tag, d),
          Adopt(st.elements[pid := info], st.tagStack, "", [pid]),
          pid, st.skipDepth, if IsVoid(tag) then st.tagStack else st.tagStack + [pid])
  }

  function Started(st: State, rawTag: string, attrs: seq<Attr>): State {
    var tag := Lower(rawTag);
    if st.skipDepth > 0 || IsStrip(tag) then
      if IsVoid(tag) then st else st.(skipDepth := st.skipDepth + 1)
    else if IsSkip(tag) then st
    else Opened(st, tag, attrs)
  }

  function Ended(st: State, rawTag: string): State {
    var tag := Lower(rawTag);
    if st.skipDepth > 0 then
      if IsVoid(tag) then st else st.(skipDepth := st.skipDepth - 1)
    else if IsStrip(tag) || IsSkip(tag) || IsVoid(tag) then st
    else
      st.(tagStack := if st.tagStack != [] then st.tagStack[..|st.tagStack| - 1] else [],
          output := st.output + CloseTag(tag))
  }

  function AddText(existing: string, text: string): string {
    if existing != [] then Strip(existing + " " + text) else text
  }

  function Heard(st: State, data: string): State {
    var text := Collapse(data);
    if st.skipDepth > 0 || text == [] then st
    else
      st.(output := st.output + text,
          elements := AppendText(st.elements, st.tagStack, text))
  }

  function AppendText(elements: Elements, stack: seq<nat>, text: string): Elements {
    if stack != [] && stack[|stack| - 1] in elements then
      var e := elements[stack[|stack| - 1]];
      elements[stack[|stack| - 1] := e.(text := AddText(e.text, text))]
    else elements
  }

  function Handle(st: State, ev: Event): State {
    match ev
    case StartTag(tag, attrs) => Started(st, tag, attrs)
    case EndTag(tag) => Ended(st, tag)
    case Data(data) => Heard(st, data)
    case Remark(_) => st
  }

  function Feed(st: State, evs: seq<Event>): State
    decreases |evs|
  {
    if evs == [] then st else Feed(Handle(st, evs[0]), evs[1..])
  }

  lemma {:induction false} FeedConcat(st: State, x: seq<Event>, y: seq<Event>)
    ensures Feed(st, x + y) == Feed(Feed(st, x), y)
    decreases |x|
  {
    hide Handle;
    if x == [] {
      assert x + y == y;
    } else {
      assert (x + y)[0] == x[0] && (x + y)[1..] == x[1..] + y;
      FeedConcat(Handle(st, x[0]), x[1..], y);
    }
  }

  lemma FeedOne(st: State, ev: Event)
    ensures Feed(st, [ev]) == Handle(st, ev)
  {
    hide Handle;
    assert [ev][1..] == [];
  }

  // ----------------------------------------------------------------- arbitrary streams

  predicate Increasing(s: seq<nat>) { forall i, j | 0 <= i < j < |s| :: s[i] < s[j] }

  /** The children lists form a forest over the numbers up to `n`: ordered, every child
      younger than its parent, and no child in two lists. */
  ghost predicate Families(elements: Elements, n: nat) {
    && (forall p | p in elements :: Increasing(elements[p].children))
    && (forall p, c | p in elements && c in elements[p].children :: p < c <= n)
    && (forall p, q, c | p in elements && q in elements && c in elements[p].children
        && c in elements[q].children :: p == q)
  }

  /** What holds whatever events arrive, balanced or not: the pids are exactly p1 to pn, the
      children lists form a forest, and the open elements are nested by age. */
  ghost predicate Forest(st: State) {
    && (forall i: nat :: i in st.elements <==> 1 <= i <= st.pidCounter)
    && Increasing(st.tagStack)
    && (forall i | 0 <= i < |st.tagStack| :: 1 <= st.tagStack[i] <= st.pidCounter)
    && Families(st.elements, st.pidCounter)
    && (forall p | p in st.elements :: Trimmed(st.elements[p].text))
  }

  lemma SpacedIsAddText(s: string, t: string)
    requires Trimmed(s) && Trimmed(t) && t != []
    ensures AddText(s, t) == Spaced(s, t) && Trimmed(AddText(s, t))
  {
    if s != [] {
      var r := s + " " + t;
      assert r[0] == s[0] && r[|r| - 1] == t[|t| - 1];
      StripKeepsTrimmed(r);
    }
  }

  lemma FamiliesGrow(elements: Elements, n: nat, info: ElementInfo, stack: seq<nat>)
    requires Families(elements, n) && (forall i: nat :: i in elements <==> 1 <= i <= n)
    requires info.children == [] && (stack != [] ==> stack[|stack| - 1] <= n)
    ensures Families(Adopt(elements[n + 1 := info], stack, "", [n + 1]), n + 1)
  {
    var t := Adopt(elements[n + 1 := info], stack, "", [n + 1]);
    forall p | p in elements
      ensures forall c | c in t[p].children ::
          c in elements[p].children || (c == n + 1 && stack != [] && p == stack[|stack| - 1])
      ensures Increasing(t[p].children)
    {
      assert forall i | 0 <= i < |elements[p].children| :: elements[p].children[i] in elements[p].children;
    }
    assert t[n + 1].children == [];
  }

  lemma ForestOpened(st: State, tag: string, attrs: seq<Attr>)
    requires Forest(st)
    ensures Forest(Opened(st, tag, attrs))
  {
    hide Tagged, KeptAttrs, Without, OpenTag, IsVoid, Families;
    var pid := st.pidCounter + 1;
    FamiliesGrow(st.elements, st.pidCounter, ElementInfo(tag, "", Without(Tagged(KeptAttrs(attrs), pid), PID), []),
        st.tagStack);
  }

  lemma ForestHandle(st: State, ev: Event)
    requires Forest(st)
    ensures Forest(Handle(st, ev))
  {
    hide IsVoid, IsStrip, IsSkip, CloseTag, Lower;
    match ev {
      case StartTag(tag, attrs) =>
        ForestOpened(st, Lower(tag), attrs);
        hide Opened;
      case EndTag(tag) =>
      case Data(data) => ForestHeard(st, data);
      case Remark(_) =>
    }
  }

  lemma ForestHeard(st: State, data: string)
    requires Forest(st)
    ensures Forest(Heard(st, data))
  {
    hide AddText;
    var text := Collapse(data);
    if text != [] {
      forall p | p in st.elements
        ensures Trimmed(AddText(st.elements[p].text, text))
      {
        SpacedIsAddText(st.elements[p].text, text);
      }
    }
  }

  /** On any event stream the cleaner keeps a forest of consecutively numbered elements. */
  lemma {:induction false} AnyStreamForest(st: State, evs: seq<Event>)
    requires Forest(st)
    ensures Forest(Feed(st, evs))
    decreases |evs|
  {
    hide Handle, Forest;
    if evs != [] {
      ForestHandle(st, evs[0]);
      AnyStreamForest(Handle(st, evs[0]), evs[1..]);
    }
  }

  // --------------------------------------------------------------- refinement of the prune

  /** The events the tokeniser reports for an element tree. */
  function EventsOf(n: Node): seq<Event> {
    match n
    case Element(tag, attrs, children) => [StartTag(tag, attrs)] + EventsAll(children) + [EndTag(tag)]
    case Void(tag, attrs, selfClosing) => [StartTag(tag, attrs)] + if selfClosing then [EndTag(tag)] else []
    case Characters(data) => [Data(data)]
    case Comment(data) => [Remark(data)]
  }

  function EventsAll(ns: seq<Node>): seq<Event> {
    if ns == [] then [] else EventsOf(ns[0]) + EventsAll(ns[1..])
  }

  function Row(rows: seq<ElementInfo>, n: nat, i: nat): ElementInfo
    requires n <= i < n + |rows|
  {
    rows[i - n]
  }

  function AsMap(rows: seq<ElementInfo>, n: nat): map<nat, ElementInfo> {
    map i: nat | n <= i < n + |rows| :: Row(rows, n, i)
  }

  /** The cleaner's state after a piece has been added under the open element. */
  function Grown(st: State, p: Piece): State {
    st.(output := st.output + p.html,
        elements := Adopt(st.elements, st.tagStack, p.text, p.kids) + AsMap(p.rows, st.pidCounter + 1),
        pidCounter := st.pidCounter + |p.rows|)
  }

  lemma AdoptNothing(elements: Elements, stack: seq<nat>)
    ensures Adopt(elements, stack, "", []) == elements
  {
    assert forall e: ElementInfo :: e.children + [] == e.children;
  }

  lemma GrownNothing(st: State)
    ensures Grown(st, NOTHING) == st
  {
    AdoptNothing(st.elements, st.tagStack);
    assert st.output + "" == st.output;
    assert AsMap([], st.pidCounter + 1) == map[];
  }

  lemma AdoptTwice(elements: Elements, stack: seq<nat>, t: string, k: seq<nat>, t': string, k': seq<nat>)
    ensures Adopt(Adopt(elements, stack, t, k), stack, t', k') == Adopt(elements, stack, Spaced(t, t'), k + k')
  {
    if stack != [] && stack[|stack| - 1] in elements {
      var e := elements[stack[|stack| - 1]];
      assert (e.children + k) + k' == e.children + (k + k');
      assert (e.text + " " + t) + " " + t' == e.text + " " + (t + " " + t');
    }
  }

  /** New rows do not concern the open element. */
  lemma AdoptBelow(elements: Elements, rows: Elements, stack: seq<nat>, t: string, k: seq<nat>)
    requires stack != [] ==> stack[|stack| - 1] !in rows
    ensures Adopt(elements + rows, stack, t, k) == Adopt(elements, stack, t, k) + rows
  {
    hide Spaced;
  }

  lemma AsMapConcat(a: seq<ElementInfo>, b: seq<ElementInfo>, n: nat)
    ensures AsMap(a + b, n) == AsMap(a, n) + AsMap(b, n + |a|)
  {}

  lemma GrownBeside(st: State, a: Piece, b: Piece)
    requires Forest(st)
    ensures Grown(Grown(st, a), b) == Grown(st, Beside(a, b))
  {
    hide Adopt, AsMap, Spaced;
    var n := st.pidCounter + 1;
    var (ra, rb) := (AsMap(a.rows, n), AsMap(b.rows, n + |a.rows|));
    OlderThanRows(a.rows, n, st.tagStack);
    AdoptBelow(Adopt(st.elements, st.tagStack, a.text, a.kids), ra, st.tagStack, b.text, b.kids);
    AdoptTwice(st.elements, st.tagStack, a.text, a.kids, b.text, b.kids);
    AsMapConcat(a.rows, b.rows, n);
    var e := Adopt(st.elements, st.tagStack, Spaced(a.text, b.text), a.kids + b.kids);
    assert (e + ra) + rb == e + (ra + rb);
    assert (st.output + a.html) + b.html == st.output + (a.html + b.html);
  }

  lemma OlderThanRows(rows: seq<ElementInfo>, n: nat, stack: seq<nat>)
    requires stack != [] ==> stack[|stack| - 1] < n
    ensures stack != [] ==> stack[|stack| - 1] !in AsMap(rows, n)
  {}

  /** Inside a stripped subtree the events of a whole tree change nothing. */
  lemma {:induction false} SkipTree(st: State, n: Node)
    requires st.skipDepth > 0 && WellFormed(n)
    ensures Feed(st, EventsOf(n)) == st
    decreases n, 0
  {
    hide IsVoid, IsStrip, IsSkip, Lower, Opened, Prune, Collapse;
    match n {
      case Element(tag, attrs, children) =>
        var st1 := Handle(st, StartTag(tag, attrs));
        SkipTrees(st1, children);
        FeedElement(st, tag, attrs, children);
      case Void(tag, attrs, selfClosing) => FeedVoid(st, tag, attrs, selfClosing);
      case Characters(data) => FeedOne(st, Data(data));
      case Comment(data) => FeedOne(st, Remark(data));
    }
  }

  lemma {:induction false} SkipTrees(st: State, ns: seq<Node>)
    requires st.skipDepth > 0 && AllWellFormed(ns)
    ensures Feed(st, EventsAll(ns)) == st
    decreases ns
  {
    hide Handle, EventsOf, WellFormed;
    if ns != [] {
      SkipTree(st, ns[0]);
      SkipTrees(st, ns[1..]);
      FeedConcat(st, EventsOf(ns[0]), EventsAll(ns[1..]));
    }
  }

  lemma FeedElement(st: State, tag: string, attrs: seq<Attr>, children: seq<Node>)
    ensures Feed(st, EventsOf(Element(tag, attrs, children)))
         == Handle(Feed(Handle(st, StartTag(tag, attrs)), EventsAll(children)), EndTag(tag))
  {
    hide Handle;
    var st1 := Handle(st, StartTag(tag, attrs));
    FeedConcat(st, [StartTag(tag, attrs)] + EventsAll(children), [EndTag(tag)]);
    FeedConcat(st, [StartTag(tag, attrs)], EventsAll(children));
    FeedOne(st, StartTag(tag, attrs));
    FeedOne(Feed(st1, EventsAll(children)), EndTag(tag));
  }

  lemma FeedVoid(st: State, tag: string, attrs: seq<Attr>, selfClosing: bool)
    ensures Feed(st, EventsOf(Void(tag, attrs, selfClosing)))
         == (var st1 := Handle(st, StartTag(tag, attrs)); if selfClosing then Handle(st1, EndTag(tag)) else st1)
  {
    hide Handle;
    FeedOne(st, StartTag(tag, attrs));
    if selfClosing {
      FeedConcat(st, [StartTag(tag, attrs)], [EndTag(tag)]);
      FeedOne(Handle(st, StartTag(tag, attrs)), EndTag(tag));
    } else {
      assert EventsOf(Void(tag, attrs, selfClosing)) == [StartTag(tag, attrs)];
    }
  }

  /** A kept element around an inner piece: what opening, growing and closing come to. */
  lemma BoxGrows(st: State, tag: string, attrs: seq<Attr>, inner: Piece)
    requires Forest(st) && st.skipDepth == 0 && Lower(tag) == tag && !IsVoid(tag) && !IsStrip(tag) && !IsSkip(tag)
    ensures
      var n := st.pidCounter + 1;
      var d := Tagged(KeptAttrs(attrs), n);
      Ended(Grown(Opened(st, tag, attrs), inner), tag)
        == Grown(st, Piece(OpenTag(tag, d) + inner.html + CloseTag(tag),
                           [ElementInfo(tag, inner.text, Without(d, PID), inner.kids)] + inner.rows, "", [n]))
  {
    hide IsVoid, IsStrip, IsSkip, Tagged, KeptAttrs, Without, OpenTag, CloseTag, Adopt, AsMap, Spaced, Lower, Grown;
    var n := st.pidCounter + 1;
    var d := Tagged(KeptAttrs(attrs), n);
    AroundGrows(st, OpenTag(tag, d), ElementInfo(tag, "", Without(d, PID), []), inner, CloseTag(tag));
    GrownStack(Opened(st, tag, attrs), inner);
    PushPop(st.tagStack, n);
  }

  lemma GrownStack(st: State, p: Piece)
    ensures Grown(st, p).tagStack == st.tagStack && Grown(st, p).skipDepth == st.skipDepth
  {}

  lemma AroundGrows(st: State, opening: string, open: ElementInfo, inner: Piece, closing: string)
    requires Forest(st) && open.text == "" && open.children == []
    ensures
      var n := st.pidCounter + 1;
      var st1 := State(st.output + opening, Adopt(st.elements[n := open], st.tagStack, "", [n]), n, st.skipDepth,
          st.tagStack + [n]);
      var st2 := Grown(st1, inner);
      st2.(tagStack := st.tagStack, output := st2.output + closing)
        == Grown(st,
            Piece(opening + inner.html + closing, [open.(text := inner.text, children := inner.kids)] + inner.rows,
                "", [n]))
  {
    var n := st.pidCounter + 1;
    assert n !in st.elements && (st.tagStack != [] ==> st.tagStack[|st.tagStack| - 1] != n);
    hide *;
    AroundElements(st.elements, st.tagStack, n, open, inner);
    Associate(st.output, opening, inner.html, closing);
    AroundState(st, opening, open, inner, closing);
  }

  lemma AroundState(st: State, opening: string, open: ElementInfo, inner: Piece, closing: string)
    requires
      var n := st.pidCounter + 1;
      var info := open.(text := inner.text, children := inner.kids);
      && Adopt(Adopt(st.elements[n := open], st.tagStack, "", [n]), st.tagStack + [n], inner.text, inner.kids) +
          AsMap(inner.rows, n + 1)
         == Adopt(st.elements, st.tagStack, "", [n]) + AsMap([info] + inner.rows, n)
      && ((st.output + opening) + inner.html) + closing == st.output + ((opening + inner.html) + closing)
    ensures
      var n := st.pidCounter + 1;
      var st1 := State(st.output + opening, Adopt(st.elements[n := open], st.tagStack, "", [n]), n, st.skipDepth,
          st.tagStack + [n]);
      var st2 := Grown(st1, inner);
      st2.(tagStack := st.tagStack, output := st2.output + closing)
        == Grown(st,
            Piece(opening + inner.html + closing, [open.(text := inner.text, children := inner.kids)] + inner.rows,
                "", [n]))
  {
    hide Adopt, AsMap;
    assert |[open.(text := inner.text, children := inner.kids)] + inner.rows| == 1 + |inner.rows|;
  }

  lemma AroundElements(elements: Elements, stack: seq<nat>, n: nat, open: ElementInfo, inner: Piece)
    requires n !in elements && (stack != [] ==> stack[|stack| - 1] != n) && open.text == "" && open.children == []
    ensures Adopt(Adopt(elements[n := open], stack, "", [n]), stack + [n], inner.text, inner.kids) +
        AsMap(inner.rows, n + 1)
         == Adopt(elements, stack, "", [n]) + AsMap([open.(text := inner.text, children := inner.kids)] + inner.rows, n)
  {
    hide Adopt, AsMap;
    var info := open.(text := inner.text, children := inner.kids);
    BoxElements(elements, stack, n, open, info, AsMap(inner.rows, n + 1), inner.text, inner.kids);
    AsMapOne(info, n);
    AsMapConcat([info], inner.rows, n);
  }

  lemma PushPop(stack: seq<nat>, n: nat)
    ensures (stack + [n])[..|stack + [n]| - 1] == stack
  {}

  lemma Associate(a: string, b: string, c: string, d: string)
    ensures ((a + b) + c) + d == a + ((b + c) + d)
  {}

  lemma BoxElements(elements: Elements, stack: seq<nat>, n: nat, open: ElementInfo, info: ElementInfo,
      inner: Elements, text: string, kids: seq<nat>)
    requires n !in elements && (stack != [] ==> stack[|stack| - 1] != n)
    requires open.text == "" && open.children == [] && info == open.(text := text, children := kids)
    ensures Adopt(Adopt(elements[n := open], stack, "", [n]), stack + [n], text, kids) + inner
         == Adopt(elements, stack, "", [n]) + (map[n := info] + inner)
  {
    hide Spaced;
    var outer := Adopt(elements, stack, "", [n]);
    assert elements[n := open] == elements + map[n := open];
    AdoptBelow(elements, map[n := open], stack, "", [n]);
    AdoptLast(outer, n, stack, open, text, kids);
    assert (outer + map[n := info]) + inner == outer + (map[n := info] + inner);
  }

  lemma AsMapOne(row: ElementInfo, n: nat)
    ensures AsMap([row], n) == map[n := row]
  {}

  lemma AdoptLast(elements: Elements, n: nat, stack: seq<nat>, e: ElementInfo, text: string, kids: seq<nat>)
    requires e.text == "" && e.children == []
    ensures Adopt(elements + map[n := e], stack + [n], text, kids)
        == elements + map[n := e.(text := text, children := kids)]
  {
    assert [] + kids == kids;
  }

  lemma LeafGrows(st: State, tag: string, attrs: seq<Attr>)
    requires Forest(st) && IsVoid(tag)
    ensures
      var n := st.pidCounter + 1;
      var d := Tagged(KeptAttrs(attrs), n);
      Opened(st, tag, attrs) == Grown(st, Piece(OpenTag(tag, d), [ElementInfo(tag, "", Without(d, PID), [])], "", [n]))
  {
    hide Tagged, KeptAttrs, Without, OpenTag, IsVoid, Adopt, AsMap, Spaced;
    var n := st.pidCounter + 1;
    var d := Tagged(KeptAttrs(attrs), n);
    var info := ElementInfo(tag, "", Without(d, PID), []);
    OlderThanRows([info], n, st.tagStack);
    AsMapOne(info, n);
    assert st.elements[n := info] == st.elements + AsMap([info], n);
    AdoptBelow(st.elements, AsMap([info], n), st.tagStack, "", [n]);
  }

  lemma WordsGrow(st: State, data: string)
    requires Forest(st) && st.skipDepth == 0 && Collapse(data) != []
    ensures Heard(st, data) == Grown(st, Piece(Collapse(data), [], Collapse(data), []))
  {
    hide Collapse, AddText, Spaced;
    var text := Collapse(data);
    if st.tagStack != [] {
      var e := st.elements[st.tagStack[|st.tagStack| - 1]];
      SpacedIsAddText(e.text, text);
      assert e.children + [] == e.children;
    }
    assert AsMap([], st.pidCounter + 1) == map[];
  }

  lemma {:induction false} TreeGrows(st: State, n: Node)
    requires Forest(st) && st.skipDepth == 0 && WellFormed(n)
    ensures Feed(st, EventsOf(n)) == Grown(st, DrawAll(Prune(n), st.pidCounter + 1))
    decreases n, 0
  {
    hide IsVoid, IsStrip, IsSkip, Opened, Grown, Forest, Collapse, KeptAttrs, Tagged, Without, OpenTag, CloseTag;
    match n {
      case Element(tag, attrs, children) =>
        FeedElement(st, tag, attrs, children);
        var st1 := Handle(st, StartTag(tag, attrs));
        ForestHandle(st, StartTag(tag, attrs));
        if IsStrip(Lower(tag)) {
          SkipTrees(st1, children);
          GrownNothing(st);
        } else if IsSkip(Lower(tag)) {
          TreesGrow(st, children);
          GrownSkip(st, DrawAll(PruneAll(children), st.pidCounter + 1));
        } else {
          LowerIdempotent(tag);
          OpenedFields(st, Lower(tag), attrs);
          TreesGrow(st1, children);
          BoxGrows(st, Lower(tag), attrs, DrawAll(PruneAll(children), st.pidCounter + 2));
          DrawOne(Prune(n)[0], st.pidCounter + 1);
        }
      case Void(tag, attrs, selfClosing) =>
        FeedVoid(st, tag, attrs, selfClosing);
        if IsStrip(Lower(tag)) || IsSkip(Lower(tag)) {
          GrownNothing(st);
        } else {
          OpenedFields(st, Lower(tag), attrs);
          LeafGrows(st, Lower(tag), attrs);
          DrawOne(Prune(n)[0], st.pidCounter + 1);
        }
      case Characters(data) =>
        FeedOne(st, Data(data));
        if Collapse(data) == [] {
          GrownNothing(st);
        } else {
          WordsGrow(st, data);
          DrawOne(Words(Collapse(data)), st.pidCounter + 1);
        }
      case Comment(data) =>
        FeedOne(st, Remark(data));
        GrownNothing(st);
    }
  }

  lemma GrownSkip(st: State, p: Piece)
    ensures Grown(st, p).skipDepth == st.skipDepth && Grown(st, p).pidCounter == st.pidCounter + |p.rows|
  {}

  lemma OpenedFields(st: State, tag: string, attrs: seq<Attr>)
    ensures Opened(st, tag, attrs).skipDepth == st.skipDepth && Opened(st, tag, attrs).pidCounter == st.pidCounter + 1
  {}

  lemma {:induction false} TreesGrow(st: State, ns: seq<Node>)
    requires Forest(st) && st.skipDepth == 0 && AllWellFormed(ns)
    ensures Feed(st, EventsAll(ns)) == Grown(st, DrawAll(PruneAll(ns), st.pidCounter + 1))
    decreases ns
  {
    hide EventsOf, WellFormed, Prune, Draw, Forest, Handle, Grown;
    if ns == [] {
      GrownNothing(st);
    } else {
      var n := st.pidCounter + 1;
      TreeGrows(st, ns[0]);
      var p := DrawAll(Prune(ns[0]), n);
      var st1 := Grown(st, p);
      AnyStreamForest(st, EventsOf(ns[0]));
      GrownSkip(st, p);
      TreesGrow(st1, ns[1..]);
      FeedConcat(st, EventsOf(ns[0]), EventsAll(ns[1..]));
      var q := DrawAll(PruneAll(ns[1..]), n + |p.rows|);
      GrownBeside(st, p, q);
      DrawConcat(Prune(ns[0]), PruneAll(ns[1..]), n);
    }
  }

  lemma FreshForest()
    ensures Forest(FRESH)
  {}

  /** Streaming refines recursion: on the events of any well-formed document the cleaner's
      markup and element map are those of the numbered prune, and skip depth and stack are
      back where they started. */
  lemma CleaningIsPruning(ns: seq<Node>)
    requires AllWellFormed(ns)
    ensures var doc := DrawAll(PruneAll(ns), 1);
      Feed(FRESH, EventsAll(ns)) == State(doc.html, AsMap(doc.rows, 1), |doc.rows|, 0, [])
  {
    hide Feed, EventsAll, DrawAll, PruneAll, AllWellFormed, Forest, Adopt, AsMap;
    FreshForest();
    TreesGrow(FRESH, ns);
    FreshAdopts();
    var doc := DrawAll(PruneAll(ns), 1);
    assert "" + doc.html == doc.html;
    assert map[] + AsMap(doc.rows, 1) == AsMap(doc.rows, 1);
  }

  lemma FreshAdopts()
    ensures forall text, kids :: Adopt(map[], [], text, kids) == map[]
  {}

  /** Cleaning the cleaned document changes nothing. */
  lemma CleaningTwice(ns: seq<Node>)
    requires AllWellFormed(ns)
    ensures var again := ReadBackAll(PruneAll(ns), 1);
      AllWellFormed(again) && Feed(FRESH, EventsAll(again)) == Feed(FRESH, EventsAll(ns))
  {
    hide *;
    PruneAllClean(ns);
    RecleanAll(PruneAll(ns), 1);
    CleaningIsPruning(ns);
    CleaningIsPruning(ReadBackAll(PruneAll(ns), 1));
  }

  // --------------------------------------------------------------------- the cleaner

  class DOMCleaner {
    var output: string
    var elementMap: map<nat, ElementInfo>
    var pidCounter: nat
    var skipDepth: nat
    var tagStack: seq<nat>

    ghost function Abs(): State
      reads this
    {
      State(output, elementMap, pidCounter, skipDepth, tagStack)
    }

    constructor ()
      ensures Abs() == FRESH
    {
      output, elementMap, pidCounter, skipDepth, tagStack := "", map[], 0, 0, [];
    }

    method KeepAttrs(attrs: seq<Attr>) returns (kept: Dict)
      ensures kept == KeptAttrs(attrs)
    {
      kept := [];
      for i := 0 to |attrs|
        invariant kept == KeptAttrs(attrs[..i])
      {
        assert attrs[..i + 1][..i] == attrs[..i];
        if IsKept(Lower(attrs[i].name)) && attrs[i].value.Some? {
          kept := DictSet(kept, Lower(attrs[i].name), attrs[i].value.value);
        }
      }
      assert attrs[..|attrs|] == attrs;
    }

    method HandleStartTag(rawTag: string, attrs: seq<Attr>)
      modifies this
      ensures Abs() == Handle(old(Abs()), StartTag(rawTag, attrs))
    {
      hide IsVoid, IsStrip, IsSkip, Lower, Tagged, Without, OpenTag;
      var tag := Lower(rawTag);
      if skipDepth > 0 {
        if !IsVoid(tag) {
          skipDepth := skipDepth + 1;
        }
        return;
      }
      if IsStrip(tag) {
        if !IsVoid(tag) {
          skipDepth := skipDepth + 1;
        }
        return;
      }
      if IsSkip(tag) {
        return;
      }
      pidCounter := pidCounter + 1;
      var pid := pidCounter;
      var kept := KeepAttrs(attrs);
      kept := Tagged(kept, pid);
      elementMap := elementMap[pid := ElementInfo(tag, "", Without(kept, PID), [])];
      if tagStack != [] {
        var parent := tagStack[|tagStack| - 1];
        if parent in elementMap {
          var e := elementMap[parent];
          elementMap := elementMap[parent := e.(children := e.children + [pid])];
        }
      }
      output := output + OpenTag(tag, kept);
      if IsVoid(tag) {
        return;
      }
      tagStack := tagStack + [pid];
    }

    method HandleEndTag(rawTag: string)
      modifies this
      ensures Abs() == Handle(old(Abs()), EndTag(rawTag))
    {
      var tag := Lower(rawTag);
      if skipDepth > 0 {
        if !IsVoid(tag) {
          skipDepth := skipDepth - 1;
        }
        return;
      }
      if IsStrip(tag) || IsSkip(tag) || IsVoid(tag) {
        return;
      }
      if tagStack != [] {
        tagStack := tagStack[..|tagStack| - 1];
      }
      output := output + CloseTag(tag);
    }

    method HandleData(data: string)
      modifies this
      ensures Abs() == Handle(old(Abs()), Data(data))
    {
      if skipDepth > 0 {
        return;
      }
      var text := Collapse(data);
      if text == [] {
        return;
      }
      output := output + text;
      if tagStack != [] {
        var pid := tagStack[|tagStack| - 1];
        if pid in elementMap {
          var existing := elementMap[pid].text;
          elementMap :=
              elementMap[pid :=
                  elementMap[pid].(text := if existing != [] then Strip(existing + " " + text) else text)];
        }
      }
    }

    /** What the tokeniser does: one handler call per event. */
    method FeedEvents(evs: seq<Event>)
      modifies this
      ensures Abs() == Feed(old(Abs()), evs)
    {
      hide Handle;
      for i := 0 to |evs|
        invariant Abs() == Feed(old(Abs()), evs[..i])
      {
        FeedConcat(old(Abs()), evs[..i], [evs[i]]);
        FeedOne(Abs(), evs[i]);
        assert evs[..i + 1] == evs[..i] + [evs[i]];
        HandleEvent(evs[i]);
      }
      assert evs[..|evs|] == evs;
    }

    method HandleEvent(ev: Event)
      modifies this
      ensures Abs() == Handle(old(Abs()), ev)
    {
      match ev {
        case StartTag(tag, attrs) => HandleStartTag(tag, attrs);
        case EndTag(tag) => HandleEndTag(tag);
        case Data(data) => HandleData(data);
        case Remark(_) =>
      }
    }
  }
}
