/** The runtime policy that keeps a session read-only once it is authenticated. */
module ReadOnlyPolicy {
  import opened Text

  datatype Action =
    | Goto | Fill | Click | Wait | Screenshot | Extract | Conditional
    | Scroll | Select | Iframe | WaitForNavigation | ExecuteJs

  datatype Phase = Auth | Mfa | Read | Cleanup

  datatype Reason = MutatingStep(action: Action) | RiskyClick(pattern: nat)

  datatype BlockedAction = BlockedAction(phase: Phase, action: Action, reason: Reason, target: Option<string>)

  // ------------------------------------------------------------------- click descriptors

  predicate IsWordChar(c: char) { 'a' <= c <= 'z' || '0' <= c <= '9' }

  /** The words of a click descriptor: maximal runs of letters and digits, in lower case.
      `word` is the run being read. */
  function WordsFrom(word: string, s: string): (ws: seq<string>)
    decreases |s|
  {
    if s == [] then (if word == [] then [] else [word])
    else if IsWordChar(LowerChar(s[0])) then WordsFrom(word + [LowerChar(s[0])], s[1..])
    else (if word == [] then [] else [word]) + WordsFrom([], s[1..])
  }

  function Words(s: string): seq<string> { WordsFrom([], s) }

  lemma {:induction false} WordsConcat(word: string, a: string, sep: char, b: string)
    requires !IsWordChar(LowerChar(sep))
    ensures WordsFrom(word, a + [sep] + b) == WordsFrom(word, a) + Words(b)
    decreases |a|
  {
    var s := a + [sep] + b;
    if a == [] {
      assert s[1..] == b;
    } else {
      assert s[0] == a[0] && s[1..] == a[1..] + [sep] + b;
      if IsWordChar(LowerChar(a[0])) {
        WordsConcat(word + [LowerChar(a[0])], a[1..], sep, b);
      } else {
        WordsConcat([], a[1..], sep, b);
      }
    }
  }

  /** A text of letters and digits alone is one word, in lower case. */
  lemma {:induction false} OneWord(word: string, s: string)
    requires forall i | 0 <= i < |s| :: IsWordChar(LowerChar(s[i]))
    ensures WordsFrom(word, s) == if word + Lower(s) == [] then [] else [word + Lower(s)]
    decreases |s|
  {
    if s == [] {
      assert word + Lower(s) == word;
    } else {
      OneWord(word + [LowerChar(s[0])], s[1..]);
      assert word + [LowerChar(s[0])] + Lower(s[1..]) == word + Lower(s);
    }
  }

  predicate LetterOrDigit(c: char) { 'a' <= c <= 'z' || 'A' <= c <= 'Z' || '0' <= c <= '9' }

  lemma WordCharsAre(c: char)
    ensures IsWordChar(LowerChar(c)) <==> LetterOrDigit(c)
  {}

  /** What the words of a text are: any character but letters and digits separates, and what
      stands between is one word in lower case, if there is anything. */
  lemma WordsAre(a: string, sep: char, b: string)
    ensures !LetterOrDigit(sep) ==> Words(a + [sep] + b) == Words(a) + Words(b)
    ensures (forall i | 0 <= i < |a| :: LetterOrDigit(a[i])) ==> Words(a) == if a == [] then [] else [Lower(a)]
  {
    hide LetterOrDigit, IsWordChar, LowerChar, WordsFrom, Lower;
    if !LetterOrDigit(sep) {
      WordCharsAre(sep);
      WordsConcat([], a, sep, b);
    }
    if forall i | 0 <= i < |a| :: LetterOrDigit(a[i]) {
      forall i | 0 <= i < |a| ensures IsWordChar(LowerChar(a[i])) {
        WordCharsAre(a[i]);
      }
      OneWord([], a);
      assert [] + Lower(a) == Lower(a);
    }
  }

  /** The risky phrases, one row a pattern; a row lists the alternatives it matches. */
  const RISKY: seq<seq<seq<string>>> := [
    [["pay", "now"]],
    [["make", "payment"], ["submit", "payment"], ["schedule", "payment"]],
    [["transfer"]],
    [["send", "money"]],
    [["withdraw"]],
    [["deposit"]],
    [["delete"]],
    [["remove"]],
    [["close", "account"]],
    [["replace", "card"]],
    [["upload"]],
    [["save", "change"], ["save", "changes"]],
    [["update", "profile"]],
    [["confirm", "payment"], ["confirm", "transfer"]],
    [["approve"]]]

  predicate OccursAt(phrase: seq<string>, ws: seq<string>, i: nat) {
    i + |phrase| <= |ws| && ws[i..i + |phrase|] == phrase
  }

  predicate Occurs(phrase: seq<string>, ws: seq<string>) {
    exists i | 0 <= i <= |ws| :: OccursAt(phrase, ws, i)
  }

  predicate Matches(pattern: seq<seq<string>>, ws: seq<string>) {
    exists k | 0 <= k < |pattern| :: Occurs(pattern[k], ws)
  }

  predicate Risky(ws: seq<string>) {
    exists p | 0 <= p < |RISKY| :: Matches(RISKY[p], ws)
  }

  /** The first pattern, from `p` on, that the words match. */
  function FirstRisky(ws: seq<string>, p: nat): (r: Option<nat>)
    requires p <= |RISKY|
    ensures r.Some? ==> p <= r.value < |RISKY| && Matches(RISKY[r.value], ws)
    ensures forall q | p <= q < (if r.Some? then r.value else |RISKY|) :: !Matches(RISKY[q], ws)
    decreases |RISKY| - p
  {
    if p == |RISKY| then None
    else if Matches(RISKY[p], ws) then Some(p)
    else FirstRisky(ws, p + 1)
  }

  /** The selector and the non-empty metadata values, joined by spaces. */
  function Descriptor(selector: string, metadata: seq<string>): string
    decreases |metadata|
  {
    if metadata == [] then selector
    else Descriptor(selector, metadata[..|metadata| - 1]) + " " + metadata[|metadata| - 1]
  }

  function WordsOfAll(texts: seq<string>): seq<string> {
    if texts == [] then [] else WordsOfAll(texts[..|texts| - 1]) + Words(texts[|texts| - 1])
  }

  /** The words of a descriptor are those of the selector and then those of every text that
      the page gives for the element, each by itself. */
  lemma {:induction false} DescriptorWords(selector: string, metadata: seq<string>)
    ensures Words(Descriptor(selector, metadata)) == Words(selector) + WordsOfAll(metadata)
  {
    hide WordsFrom;
    if metadata != [] {
      var n := |metadata| - 1;
      DescriptorWords(selector, metadata[..n]);
      WordsConcat([], Descriptor(selector, metadata[..n]), ' ', metadata[n]);
    }
  }

  /** A phrase occurs exactly where the words are some words, the phrase and some words. */
  lemma OccursIff(phrase: seq<string>, ws: seq<string>)
    ensures Occurs(phrase, ws) <==> exists a, b :: ws == a + phrase + b
  {
    if Occurs(phrase, ws) {
      var i :| 0 <= i <= |ws| && OccursAt(phrase, ws, i);
      assert ws == ws[..i] + phrase + ws[i + |phrase|..];
    }
    if a, b :| ws == a + phrase + b {
      assert OccursAt(phrase, ws, |a|);
    }
  }

  function EvaluateClick(enabled: bool, phase: Phase, selector: string, metadata: seq<string>): Option<Reason> {
    if !enabled || phase != Read then None
    else
      match FirstRisky(Words(Descriptor(selector, metadata)), 0)
      case None => None
      case Some(p) => Some(RiskyClick(p))
  }

  function EvaluateStep(enabled: bool, phase: Phase, action: Action): Option<Reason> {
    if enabled && (phase == Read || phase == Cleanup) && (action == Fill || action == Select || action == ExecuteJs)
    then Some(MutatingStep(action))
    else None
  }

  lemma OccursInMore(phrase: seq<string>, ws: seq<string>, more: seq<string>)
    requires Occurs(phrase, ws)
    ensures Occurs(phrase, ws + more)
  {
    var i :| 0 <= i <= |ws| && OccursAt(phrase, ws, i);
    assert (ws + more)[i..i + |phrase|] == ws[i..i + |phrase|];
    assert OccursAt(phrase, ws + more, i);
  }

  lemma StaysRisky(ws: seq<string>, more: seq<string>)
    requires FirstRisky(ws, 0).Some?
    ensures FirstRisky(ws + more, 0).Some?
  {
    var p := FirstRisky(ws, 0).value;
    var k :| 0 <= k < |RISKY[p]| && Occurs(RISKY[p][k], ws);
    OccursInMore(RISKY[p][k], ws, more);
    assert Matches(RISKY[p], ws + more);
  }

  /** What the page says about its own element can add a reason to block a click and never
      removes one: a click blocked on some of the metadata is blocked on all of it. */
  lemma {:induction false} MetadataOnlyAddsReasons(
      enabled: bool, phase: Phase, selector: string, metadata: seq<string>, more: seq<string>)
    requires EvaluateClick(enabled, phase, selector, metadata).Some?
    ensures EvaluateClick(enabled, phase, selector, metadata + more).Some?
    decreases |more|
  {
    hide FirstRisky, WordsFrom;
    if more == [] {
      assert metadata + more == metadata;
    } else {
      var init, last := more[..|more| - 1], more[|more| - 1];
      MetadataOnlyAddsReasons(enabled, phase, selector, metadata, init);
      var all := metadata + more;
      assert all[..|all| - 1] == metadata + init && all[|all| - 1] == last;
      var d := Descriptor(selector, metadata + init);
      WordsConcat([], d, ' ', last);
      StaysRisky(Words(d), Words(last));
    }
  }

  // -------------------------------------------------------------------------- the policy

  class ReadOnlyExecutionPolicy {
    const enabled: bool
    var phase: Phase
    var blockedActions: seq<BlockedAction>

    constructor (enabled: bool)
      ensures this.enabled == enabled && phase == Auth && blockedActions == []
    {
      this.enabled, phase, blockedActions := enabled, Auth, [];
    }

    method SetPhase(phase: Phase)
      modifies this`phase
      ensures this.phase == phase
    {
      this.phase := phase;
    }

    method RecordBlocked(action: Action, reason: Reason, target: Option<string>)
      modifies this`blockedActions
      ensures blockedActions == old(blockedActions) + [BlockedAction(phase, action, reason, target)]
    {
      blockedActions := blockedActions + [BlockedAction(phase, action, reason, target)];
    }

    /** `evaluate_click`: blocks exactly the risky clicks of the read phase, and names the
        first pattern that matches. */
    method EvaluateClickTarget(selector: string, metadata: seq<string>) returns (reason: Option<Reason>)
      ensures reason == EvaluateClick(enabled, phase, selector, metadata)
      ensures reason.Some? <==> enabled && phase == Read && Risky(Words(Descriptor(selector, metadata)))
    {
      if !enabled || phase != Read {
        return None;
      }
      var ws := Words(Descriptor(selector, metadata));
      for p := 0 to |RISKY|
        invariant FirstRisky(ws, 0) == FirstRisky(ws, p)
      {
        if Matches(RISKY[p], ws) {
          return Some(RiskyClick(p));
        }
      }
      return None;
    }
  }
}
