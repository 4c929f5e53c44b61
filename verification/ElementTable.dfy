/** What the element table of a cleaned document says: whose children, which text and which
    attributes an element has, and what collapsing whitespace leaves of a text. */
module ElementTable {
  import opened Text
  import opened DomTree
  import Markup

  // ---------------------------------------------------------------- children and numbering

  /** How many elements a kept tree has. */
  function Size(k: Kept): nat
    decreases k, 0
  {
    match k
    case Box(_, _, children) => 1 + SizeAll(children)
    case Leaf(_, _) => 1
    case Words(_) => 0
  }

  function SizeAll(ks: seq<Kept>): nat
    decreases ks
  {
    if ks == [] then 0 else Size(ks[0]) + SizeAll(ks[1..])
  }

  /** The numbers of the elements at the top of a list of trees, counted from `n`: each is
      preceded by all the elements of the trees before it. */
  function TopNumbers(ks: seq<Kept>, n: nat): seq<nat> {
    if ks == [] then []
    else (if ks[0].Words? then [] else [n]) + TopNumbers(ks[1..], n + Size(ks[0]))
  }

  /** The texts at the top of a list of trees. */
  function TopTexts(ks: seq<Kept>): seq<string> {
    if ks == [] then []
    else (if ks[0].Words? && ks[0].text != "" then [ks[0].text] else []) + TopTexts(ks[1..])
  }

  function JoinBlanks(ts: seq<string>): string {
    if ts == [] then "" else if |ts| == 1 then ts[0] else ts[0] + " " + JoinBlanks(ts[1..])
  }

  /** The rows of a tree in preorder, from the trees alone. */
  ghost predicate Describes(k: Kept, n: nat, rows: seq<ElementInfo>)
    decreases k, 0
  {
    match k
    case Box(tag, attrs, children) =>
      && |rows| == 1 + SizeAll(children)
      && rows[0].tag == tag
      && rows[0].children == TopNumbers(children, n + 1)
      && rows[0].text == JoinBlanks(TopTexts(children))
      && (forall name | name != PID :: Markup.Get(rows[0].attrs, name) == Markup.Get(attrs, name))
      && Markup.Get(rows[0].attrs, PID) == None
      && DescribesAll(children, n + 1, rows[1..])
    case Leaf(tag, attrs) =>
      && |rows| == 1 && rows[0].tag == tag && rows[0].children == [] && rows[0].text == ""
      && (forall name | name != PID :: Markup.Get(rows[0].attrs, name) == Markup.Get(attrs, name))
      && Markup.Get(rows[0].attrs, PID) == None
    case Words(_) => rows == []
  }

  ghost predicate DescribesAll(ks: seq<Kept>, n: nat, rows: seq<ElementInfo>)
    decreases ks
  {
    if ks == [] then rows == []
    else
      && Size(ks[0]) <= |rows|
      && Describes(ks[0], n, rows[..Size(ks[0])])
      && DescribesAll(ks[1..], n + Size(ks[0]), rows[Size(ks[0])..])
  }

  lemma JoinFirst(t: string, ts: seq<string>)
    requires t != "" && forall i | 0 <= i < |ts| :: ts[i] != ""
    ensures Spaced(t, JoinBlanks(ts)) == JoinBlanks([t] + ts)
  {
    assert ([t] + ts)[1..] == ts;
  }

  lemma {:induction false} TopTextsGiven(ks: seq<Kept>)
    ensures forall i | 0 <= i < |TopTexts(ks)| :: TopTexts(ks)[i] != ""
  {
    if ks != [] {
      TopTextsGiven(ks[1..]);
    }
  }

  lemma {:induction false} GetOtherSet(d: Dict, k: string, v: string, name: string)
    requires name != k
    ensures Markup.Get(DictSet(d, k, v), name) == Markup.Get(d, name)
  {
    if d != [] && d[0].0 != k {
      GetOtherSet(d[1..], k, v, name);
    }
  }

  lemma {:induction false} GetWithout(d: Dict, k: string, name: string)
    ensures Markup.Get(Without(d, k), name) == if name == k then None else Markup.Get(d, name)
  {
    if d != [] {
      GetWithout(d[1..], k, name);
      var rest := Without(d[1..], k);
      assert ([d[0]] + rest)[1..] == rest && [] + rest == rest;
    }
  }

  lemma TableAttrs(attrs: Dict, n: nat)
    ensures var d := Without(Tagged(attrs, n), PID);
            && (forall name | name != PID :: Markup.Get(d, name) == Markup.Get(attrs, name))
            && Markup.Get(d, PID) == None
  {
    forall name ensures Markup.Get(Without(Tagged(attrs, n), PID), name)
                     == if name == PID then None else Markup.Get(attrs, name) {
      GetWithout(Tagged(attrs, n), PID, name);
      if name != PID {
        GetOtherSet(attrs, PID, PidName(n), name);
      }
    }
  }

  lemma {:induction false} DrawDescribes(k: Kept, n: nat)
    ensures |Draw(k, n).rows| == Size(k) && Describes(k, n, Draw(k, n).rows)
    ensures Draw(k, n).kids == if k.Words? then [] else [n]
    ensures Draw(k, n).text == if k.Words? then k.text else ""
    decreases k, 0
  {
    hide OpenTag, CloseTag, Tagged, Without;
    match k {
      case Box(tag, attrs, children) =>
        DrawAllDescribes(children, n + 1);
        TableAttrs(attrs, n);
        assert Draw(k, n).rows[1..] == DrawAll(children, n + 1).rows;
      case Leaf(tag, attrs) => TableAttrs(attrs, n);
      case Words(_) =>
    }
  }

  /** The table of a list of trees numbered from `n` is what the trees themselves say: the
      children of an element are the elements right below it, numbered in preorder, its text
      is what stands right below it joined by blanks, and its attributes are those kept. */
  lemma {:induction false} DrawAllDescribes(ks: seq<Kept>, n: nat)
    ensures |DrawAll(ks, n).rows| == SizeAll(ks) && DescribesAll(ks, n, DrawAll(ks, n).rows)
    ensures DrawAll(ks, n).kids == TopNumbers(ks, n) && DrawAll(ks, n).text == JoinBlanks(TopTexts(ks))
    decreases ks
  {
    hide Draw, Describes;
    if ks != [] {
      var p, q := Draw(ks[0], n), DrawAll(ks[1..], n + Size(ks[0]));
      DrawDescribes(ks[0], n);
      DrawAllDescribes(ks[1..], n + Size(ks[0]));
      assert (p.rows + q.rows)[..Size(ks[0])] == p.rows && (p.rows + q.rows)[Size(ks[0])..] == q.rows;
      TopTextsGiven(ks[1..]);
      if ks[0].Words? && ks[0].text != "" {
        JoinFirst(ks[0].text, TopTexts(ks[1..]));
      } else {
        assert [] + TopTexts(ks[1..]) == TopTexts(ks[1..]);
      }
    }
  }

  // --------------------------------------------------------------------------- attributes

  /** The value of the last attribute of that name, in whatever letter case, that has one. */
  function LastValue(attrs: seq<Attr>, name: string): Option<string> {
    if attrs == [] then None
    else
      var a := attrs[|attrs| - 1];
      if Lower(a.name) == name && a.value.Some? then a.value else LastValue(attrs[..|attrs| - 1], name)
  }

  /** Of the kept names the last value counts, and no other name is kept. */
  lemma {:induction false} KeptAttrsAre(attrs: seq<Attr>, name: string)
    ensures Markup.Get(KeptAttrs(attrs), name) == if name in KEEP_ATTRS then LastValue(attrs, name) else None
  {
    hide Lower;
    if attrs != [] {
      var init, a := attrs[..|attrs| - 1], attrs[|attrs| - 1];
      KeptAttrsAre(init, name);
      if IsKept(Lower(a.name)) && a.value.Some? {
        if Lower(a.name) == name {
          Markup.GetSet(KeptAttrs(init), name, a.value.value);
        } else {
          GetOtherSet(KeptAttrs(init), Lower(a.name), a.value.value, name);
        }
      }
    }
  }

  // --------------------------------------------------------------------------- whitespace

  /** The words of a text: its maximal runs without whitespace. `word` is the one being read. */
  function SplitFrom(word: string, s: string): seq<string>
    decreases |s|
  {
    if s == [] then (if word == [] then [] else [word])
    else if !IsSpace(s[0]) then SplitFrom(word + [s[0]], s[1..])
    else (if word == [] then [] else [word]) + SplitFrom([], s[1..])
  }

  lemma {:induction false} SqueezeSplit(word: string, s: string)
    ensures SplitFrom(word, Squeeze(s)) == SplitFrom(word, s)
    decreases |s|
  {
    if s != [] {
      var rest := s[1..];
      if !IsSpace(s[0]) {
        assert ([s[0]] + Squeeze(rest))[1..] == Squeeze(rest);
        SqueezeSplit(word + [s[0]], rest);
      } else if |s| > 1 && IsSpace(s[1]) {
        SqueezeSplit(word, rest);
        assert [] + SplitFrom([], rest[1..]) == SplitFrom([], rest[1..]);
      } else {
        assert (" " + Squeeze(rest))[1..] == Squeeze(rest);
        SqueezeSplit([], rest);
      }
    }
  }

  lemma {:induction false} StripLeftSplit(s: string)
    ensures SplitFrom([], StripLeft(s)) == SplitFrom([], s)
    decreases |s|
  {
    if s != [] && IsSpace(s[0]) {
      StripLeftSplit(s[1..]);
      assert [] + SplitFrom([], s[1..]) == SplitFrom([], s[1..]);
    }
  }

  lemma {:induction false} TrailingSpaceSplit(word: string, s: string, c: char)
    requires IsSpace(c)
    ensures SplitFrom(word, s + [c]) == SplitFrom(word, s)
    decreases |s|
  {
    if s == [] {
      assert s + [c] == [c] && [c][1..] == [];
    } else {
      assert (s + [c])[1..] == s[1..] + [c];
      TrailingSpaceSplit(if IsSpace(s[0]) then [] else word + [s[0]], s[1..], c);
    }
  }

  lemma {:induction false} StripRightSplit(s: string)
    ensures SplitFrom([], StripRight(s)) == SplitFrom([], s)
    decreases |s|
  {
    if s != [] && IsSpace(s[|s| - 1]) {
      var init := s[..|s| - 1];
      StripRightSplit(init);
      TrailingSpaceSplit([], init, s[|s| - 1]);
      assert init + [s[|s| - 1]] == s;
    }
  }

  /** A text without superfluous whitespace is its words joined by blanks. */
  lemma {:induction false} SqueezedIsJoin(word: string, s: string)
    requires Squeezed(s) && (s != [] ==> !IsSpace(s[|s| - 1])) && (word == [] && s != [] ==> !IsSpace(s[0]))
    ensures JoinBlanks(SplitFrom(word, s)) == word + s
    ensures word != [] || s != [] ==> SplitFrom(word, s) != []
    decreases |s|
  {
    if s == [] {
    } else if !IsSpace(s[0]) {
      SqueezedIsJoin(word + [s[0]], s[1..]);
      assert word + [s[0]] + s[1..] == word + s;
    } else {
      SqueezedIsJoin([], s[1..]);
      var ts := SplitFrom([], s[1..]);
      assert ([word] + ts)[1..] == ts;
      assert s == " " + s[1..];
    }
  }

  /** Collapsing whitespace leaves exactly the words, joined by single blanks. */
  lemma CollapseIsJoin(s: string)
    ensures Collapse(s) == JoinBlanks(SplitFrom([], s))
  {
    var t := Squeeze(s);
    SqueezeSplit([], s);
    StripLeftSplit(t);
    StripRightSplit(StripLeft(t));
    SqueezeSqueezes(s);
    StripSqueezed(t);
    StripTrims(t);
    SqueezedIsJoin([], Strip(t));
  }
}
