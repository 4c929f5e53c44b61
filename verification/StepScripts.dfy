/** What each blueprint step asks of the page, as a script of requests, and what becomes of
    it: the first bad answer ends the step. The interpreter is measured against this. */
module StepScripts {
  import opened Text
  import opened ReadOnlyPolicy
  import opened StepExecutor
  import Interpolation

  // --------------------------------------------------------------------------- the scripts

  function Limit(step: Step, default: int): int {
    match step.timeout
    case None => default
    case Some(ms) => if ms == 0 then default else ms
  }

  predicate Has(s: Option<string>) { s != None && s != Some("") }

  ghost function Typed(env: Env, s: Option<string>): string {
    match s case None => "" case Some(text) => Interpolation.FilledText(env.vars, text)
  }

  /** The step has what it needs. */
  ghost predicate Complete(env: Env, step: Step) {
    match step.action
    case Goto => Typed(env, step.url) != ""
    case Fill => Has(step.selector)
    case Click => Has(step.selector)
    case Wait => Has(step.selector)
    case Select => Has(step.selector) && Typed(env, step.value) != ""
    case Iframe => Has(step.iframeSelector) || Has(step.selector)
    case ExecuteJs => env.allowJs && Has(step.script)
    case Extract => false
    case Conditional => false
    case _ => true
  }

  /** The requests of a complete step that nothing stops. */
  ghost function Script(env: Env, step: Step): seq<Op>
    requires Complete(env, step)
  {
    match step.action
    case Goto => [OpenUrl(Typed(env, step.url), Limit(step, 30000))]
    case Fill => [WaitFor(step.selector.value, Limit(step, 10000)), FillIn(step.selector.value, Typed(env, step.value))]
    case Click =>
      [WaitFor(step.selector.value, Limit(step, 10000))]
      + (if env.policy.Some? then [Describe(step.selector.value)] else [])
      + [Press(step.selector.value)]
      + (if step.waitForNavigation then [AwaitNavigation(Limit(step, 30000))] else [])
    case Wait => [WaitFor(step.selector.value, Limit(step, 10000))]
    case Screenshot =>
      [TakeScreenshot(Sanitised(if Has(step.screenshotName) then step.screenshotName.value else "debug"))]
    case Scroll =>
      if Has(step.selector) then [ScrollTo(step.selector.value)]
      else if step.pixels.None? || step.pixels == Some(0) then [ScrollBy(500)]
      else if !Has(step.direction) || step.direction == Some("down") then [ScrollBy(step.pixels.value)]
      else [ScrollBy(-step.pixels.value)]
    case Select => [SelectOption(step.selector.value, Typed(env, step.value))]
    case WaitForNavigation => [LoadState(Limit(step, 30000))]
    case ExecuteJs => [Evaluate(step.script.value)]
    case _ => []
  }

  /** What leaves `execute_steps` when a request is answered so; None if the step goes on. */
  function Ends(op: Op, reply: Reply): Option<Exn> {
    if reply.Cancel? then Some(CancelledError)
    else if op.Describe? then None
    else if reply.NoAnswer? then Some(if op.OpenUrl? then SiteUnavailable else ConnectionFailed)
    else if reply.Failure? then Some(ConnectionFailed)
    else if op.OpenUrl? && reply.Status? && reply.code >= 500 then Some(SiteUnavailable)
    else None
  }

  /** The words of an element about to be pressed. */
  function WordsOf(selector: string, reply: Reply): seq<string> {
    Words(Descriptor(selector, if reply.Described? then reply.texts else []))
  }

  /** Requests in order, up to the first bad answer or the first risky description. */
  ghost function Play(env: Env, ops: seq<Op>, w: World): Out
    decreases |ops|
  {
    if ops == [] then Out(Ok, w)
    else
      var op := ops[0];
      var reply := env.page(w.trace + [op]);
      var w1 := World(w.trace + [op], w.blocked);
      if Ends(op, reply).Some? then Out(Raised(Ends(op, reply).value), w1)
      else if op.Describe? && env.policy.Some? && env.policy.value.enabled && env.policy.value.phase == Read
              && Risky(WordsOf(op.selector, reply)) then
        var reason := RiskyClick(FirstRisky(WordsOf(op.selector, reply), 0).value);
        Out(Raised(ReadOnlyViolation(reason)),
            World(w1.trace, w1.blocked + [BlockedAction(Read, Click, reason, Some(op.selector))]))
      else Play(env, ops[1..], w1)
  }

  predicate Denied(env: Env, action: Action) {
    && env.policy.Some? && env.policy.value.enabled
    && env.policy.value.phase in {Read, Cleanup}
    && action in {Fill, Select, ExecuteJs}
  }

  /** What a step that does not branch comes to. */
  ghost function Played(env: Env, step: Step, w: World): Out {
    if Denied(env, step.action) then
      var target := if Has(step.selector) then step.selector else step.url;
      var record := BlockedAction(env.policy.value.phase, step.action, MutatingStep(step.action), target);
      Out(Raised(ReadOnlyViolation(MutatingStep(step.action))), World(w.trace, w.blocked + [record]))
    else if !Complete(env, step) then Out(Raised(ConnectionFailed), w)
    else Play(env, Script(env, step), w)
  }

  // ---------------------------------------------------------- the handlers play the scripts

  lemma PlayOne(env: Env, op: Op, w: World)
    requires !op.Describe? && !op.OpenUrl?
    ensures Play(env, [op], w) == Closed(Ask(env, op, w))
  {
    assert [op][1..] == [];
  }

  lemma PlayFirst(env: Env, op: Op, more: seq<Op>, w: World)
    requires !op.Describe? && !op.OpenUrl?
    ensures Play(env, [op] + more, w)
         == var o := Ask(env, op, w); if o.result.Ok? then Play(env, more, o.world) else Closed(o)
  {
    assert ([op] + more)[1..] == more;
  }

  lemma PlayUrl(env: Env, op: Op, w: World)
    requires op.OpenUrl?
    ensures Play(env, [op], w) == Closed(Out(SiteAnswered(Answer(env, op, w)), Asked(op, w)))
  {
    assert [op][1..] == [];
  }

  lemma FillPlays(env: Env, step: Step, w: World)
    requires step.action == Fill && Complete(env, step)
    ensures Closed(StepFill(env, step, w)) == Play(env, Script(env, step), w)
  {
    var wait := WaitFor(step.selector.value, Limit(step, 10000));
    var fill := FillIn(step.selector.value, Typed(env, step.value));
    assert Script(env, step) == [wait] + [fill];
    PlayFirst(env, wait, [fill], w);
    PlayOne(env, fill, Asked(wait, w));
  }

  ghost function Pressing(step: Step): seq<Op>
    requires Has(step.selector)
  {
    [Press(step.selector.value)] + (if step.waitForNavigation then [AwaitNavigation(Limit(step, 30000))] else [])
  }

  lemma PressPlays(env: Env, step: Step, w: World)
    requires Has(step.selector)
    ensures Closed(Pressed(env, step, w)) == Play(env, Pressing(step), w)
  {
    var press := Press(step.selector.value);
    if step.waitForNavigation {
      PlayFirst(env, press, [AwaitNavigation(Limit(step, 30000))], w);
      PlayOne(env, AwaitNavigation(Limit(step, 30000)), Asked(press, w));
    } else {
      PlayOne(env, press, w);
    }
  }

  lemma FirstRiskyIff(ws: seq<string>)
    ensures FirstRisky(ws, 0).Some? <==> Risky(ws)
  {}

  lemma JudgedPlays(env: Env, step: Step, w: World)
    requires Has(step.selector) && env.policy.Some?
    ensures Closed(Judged(env, step, w)) == Play(env, [Describe(step.selector.value)] + Pressing(step), w)
  {
    hide Pressing, Risky, FirstRisky, Words, Descriptor;
    var describe := Describe(step.selector.value);
    var reply := Answer(env, describe, w);
    assert ([describe] + Pressing(step))[1..] == Pressing(step);
    FirstRiskyIff(WordsOf(step.selector.value, reply));
    PressPlays(env, step, Asked(describe, w));
  }

  lemma ClickPlays(env: Env, step: Step, w: World)
    requires step.action == Click && Complete(env, step)
    ensures Closed(StepClick(env, step, w)) == Play(env, Script(env, step), w)
  {
    hide Play, Pressed, Judged;
    var wait := WaitFor(step.selector.value, Limit(step, 10000));
    var describe := Describe(step.selector.value);
    var w1 := Asked(wait, w);
    if env.policy.None? {
      assert Script(env, step) == [wait] + Pressing(step);
      PlayFirst(env, wait, Pressing(step), w);
      PressPlays(env, step, w1);
    } else {
      assert Script(env, step) == [wait] + ([describe] + Pressing(step));
      PlayFirst(env, wait, [describe] + Pressing(step), w);
      JudgedPlays(env, step, w1);
    }
  }

  lemma AtomPlays(env: Env, step: Step, w: World)
    requires !Branches(step)
    ensures Closed(RunAtom(env, step, w))
         == if Complete(env, step) then Play(env, Script(env, step), w) else Out(Raised(ConnectionFailed), w)
  {
    hide Play, Pressed, Judged, Interpolation.Interpolate, Interpolation.FilledText, Sanitised;
    if Complete(env, step) {
      match step.action {
        case Fill => FillPlays(env, step, w);
        case Click => ClickPlays(env, step, w);
        case Goto => PlayUrl(env, Script(env, step)[0], w);
        case Iframe => PlayNothing(env, w);
        case Wait => PlayOne(env, Script(env, step)[0], w);
        case Screenshot => PlayOne(env, Script(env, step)[0], w);
        case Scroll => PlayOne(env, Script(env, step)[0], w);
        case Select => PlayOne(env, Script(env, step)[0], w);
        case WaitForNavigation => PlayOne(env, Script(env, step)[0], w);
        case ExecuteJs => PlayOne(env, Script(env, step)[0], w);
        case Extract =>
        case Conditional =>
      }
    }
  }

  lemma PlayNothing(env: Env, w: World)
    ensures Play(env, [], w) == Out(Ok, w)
  {}

  /** A step that does not branch makes the requests of its script, in order and with the
      texts filled in, up to the first bad answer; an incomplete one makes none, and a
      mutating one after authentication is recorded instead. */
  lemma StepPlaysItsScript(env: Env, step: Step, w: World)
    requires !Branches(step)
    ensures Straight(env, step, w) == Played(env, step, w)
  {
    hide RunAtom, Play, Complete, Script;
    AtomPlays(env, step, w);
  }

  // --------------------------------------------------------------------------- whole trees

  /** The step is in the list or nested in one that is. */
  ghost predicate InTree(steps: seq<Step>, x: Step)
    decreases steps, 1
  {
    exists i | 0 <= i < |steps| :: x == steps[i] || Within(steps[i], x)
  }

  ghost predicate Within(step: Step, x: Step)
    decreases step, 0
  {
    InTree(step.thenSteps, x) || InTree(step.elseSteps, x)
  }

  /** The request is one of the step's: of its script, or its condition. */
  ghost predicate Issues(env: Env, x: Step, op: Op) {
    || (x.action == Conditional && Has(x.conditionSelector) && op == WaitFor(x.conditionSelector.value, Limit(x, 3000)))
    || (!Denied(env, x.action) && Complete(env, x) && op in Script(env, x))
  }

  ghost predicate Issued(env: Env, steps: seq<Step>, op: Op) {
    exists x :: InTree(steps, x) && Issues(env, x, op)
  }

  ghost predicate AllIssued(env: Env, steps: seq<Step>, trace: seq<Op>, n: nat) {
    forall i | n <= i < |trace| :: Issued(env, steps, trace[i])
  }

  lemma {:induction false} PlayAsksItsOps(env: Env, ops: seq<Op>, w: World)
    ensures var t := Play(env, ops, w).world.trace;
            w.trace <= t && forall i | |w.trace| <= i < |t| :: t[i] in ops
    decreases |ops|
  {
    if ops != [] {
      PlayAsksItsOps(env, ops[1..], World(w.trace + [ops[0]], w.blocked));
    }
  }

  lemma PlayedIssues(env: Env, steps: seq<Step>, step: Step, w: World)
    requires InTree(steps, step)
    ensures var t := Played(env, step, w).world.trace; w.trace <= t && AllIssued(env, steps, t, |w.trace|)
  {
    hide Play, Script, Complete, InTree;
    if !Denied(env, step.action) && Complete(env, step) {
      PlayAsksItsOps(env, Script(env, step), w);
      var t := Played(env, step, w).world.trace;
      forall i | |w.trace| <= i < |t| ensures Issued(env, steps, t[i]) {
        assert Issues(env, step, t[i]);
      }
    }
  }

  lemma HeadInTree(steps: seq<Step>)
    requires steps != []
    ensures InTree(steps, steps[0])
  {}

  lemma IssuedByMore(env: Env, part: seq<Step>, steps: seq<Step>, trace: seq<Op>, n: nat)
    requires forall x :: InTree(part, x) ==> InTree(steps, x)
    requires AllIssued(env, part, trace, n)
    ensures AllIssued(env, steps, trace, n)
  {
    hide InTree, Issues;
    forall i | n <= i < |trace| ensures Issued(env, steps, trace[i]) {
      assert Issued(env, part, trace[i]);
      var x :| InTree(part, x) && Issues(env, x, trace[i]);
    }
  }

  lemma RestInTree(steps: seq<Step>, x: Step)
    requires steps != [] && InTree(steps[1..], x)
    ensures InTree(steps, x)
  {
    var i :| 0 <= i < |steps[1..]| && (x == steps[1..][i] || Within(steps[1..][i], x));
    assert steps[i + 1] == steps[1..][i];
  }

  lemma BranchInTree(steps: seq<Step>, reply: Reply, x: Step)
    requires steps != [] && InTree(Branch(steps[0], reply) + steps[1..], x)
    ensures InTree(steps, x)
  {
    var branch, rest := Branch(steps[0], reply), steps[1..];
    var all := branch + rest;
    var i :| 0 <= i < |all| && (x == all[i] || Within(all[i], x));
    if i < |branch| {
      assert all[i] == branch[i];
      assert InTree(branch, x);
      assert Within(steps[0], x);
    } else {
      assert all[i] == steps[i - |branch| + 1];
    }
  }

  lemma AllIssuedThen(env: Env, steps: seq<Step>, u: seq<Op>, t: seq<Op>, n: nat)
    requires n <= |u| && u <= t && AllIssued(env, steps, u, n) && AllIssued(env, steps, t, |u|)
    ensures AllIssued(env, steps, t, n)
  {
    hide Issued;
    forall i | n <= i < |t| ensures Issued(env, steps, t[i]) {
      assert i < |u| ==> t[i] == u[i];
    }
  }

  /** On every run of every tree against every page: each request is one of a step of the
      tree. In particular what is typed, selected or opened is the text of such a step with
      its placeholders filled. */
  lemma {:induction false} RequestsComeFromSteps(env: Env, steps: seq<Step>, w: World)
    ensures var t := ExecuteSteps(env, steps, w).world.trace;
            w.trace <= t && AllIssued(env, steps, t, |w.trace|)
    decreases WeightAll(steps)
  {
    hide ExecuteSteps, Straight, Played, AllIssued, InTree, WeightAll;
    TreesRunStraight(env, steps, w);
    if steps == [] {
      NothingIssued(env, steps, w);
    } else {
      var step, rest := steps[0], steps[1..];
      var t := ExecuteSteps(env, steps, w).world.trace;
      HeadInTree(steps);
      if Branches(step) {
        var reply, asked := Answer(env, ConditionOp(step), w), Asked(ConditionOp(step), w);
        ConditionIssued(env, steps, step, w);
        if !reply.Failure? && !reply.Cancel? {
          var todo := Branch(step, reply) + rest;
          BranchIsLighter(step, reply, steps);
          TreesRunStraight(env, todo, asked);
          RequestsComeFromSteps(env, todo, asked);
          forall x | InTree(todo, x) ensures InTree(steps, x) {
            BranchInTree(steps, reply, x);
          }
          IssuedByMore(env, todo, steps, t, |asked.trace|);
          AllIssuedThen(env, steps, asked.trace, t, |w.trace|);
        }
      } else {
        StepPlaysItsScript(env, step, w);
        PlayedIssues(env, steps, step, w);
        var o := Straight(env, step, w);
        if o.result.Ok? {
          RestIsLighter(steps);
          TreesRunStraight(env, rest, o.world);
          RequestsComeFromSteps(env, rest, o.world);
          forall x | InTree(rest, x) ensures InTree(steps, x) {
            RestInTree(steps, x);
          }
          IssuedByMore(env, rest, steps, t, |o.world.trace|);
          AllIssuedThen(env, steps, o.world.trace, t, |w.trace|);
        }
      }
    }
  }

  lemma RestIsLighter(steps: seq<Step>)
    requires steps != []
    ensures WeightAll(steps[1..]) < WeightAll(steps)
  {
    assert WeightAll(steps) == Weight(steps[0]) + WeightAll(steps[1..]);
  }

  lemma NothingIssued(env: Env, steps: seq<Step>, w: World)
    ensures AllIssued(env, steps, w.trace, |w.trace|)
  {}

  lemma ConditionIssued(env: Env, steps: seq<Step>, step: Step, w: World)
    requires InTree(steps, step) && Branches(step)
    ensures AllIssued(env, steps, Asked(ConditionOp(step), w).trace, |w.trace|)
  {
    hide InTree;
    assert Issues(env, step, ConditionOp(step));
  }

  /** A fill step on a page that shows its field, in a phase that allows it: it waits for the
      field and types the value with every placeholder filled. */
  lemma FillTypesItsValue(env: Env, step: Step, parts: seq<Interpolation.Part>, w: World)
    requires step.action == Fill && Has(step.selector) && step.value == Some(Interpolation.Source(parts))
    requires Interpolation.WellFormed(parts) && !Denied(env, Fill)
    ensures var wait := WaitFor(step.selector.value, Limit(step, 10000));
            var fill := FillIn(step.selector.value, Interpolation.Filled(env.vars, parts));
            env.page(w.trace + [wait]) == Done ==> ExecuteSteps(env, [step], w).world.trace == w.trace + [wait] + [fill]
  {
    var wait := WaitFor(step.selector.value, Limit(step, 10000));
    var fill := FillIn(step.selector.value, Interpolation.Filled(env.vars, parts));
    Interpolation.FilledTextIs(env.vars, parts);
    hide Interpolation.FilledText, Interpolation.Interpolate, Interpolation.Filled;
    StepPlaysItsScript(env, step, w);
    assert Script(env, step) == [wait] + [fill];
    PlayFirst(env, wait, [fill], w);
    PlayOne(env, fill, Asked(wait, w));
    OneStep(env, step, w);
  }

  lemma OneStep(env: Env, step: Step, w: World)
    requires !Branches(step)
    ensures ExecuteSteps(env, [step], w) == Straight(env, step, w)
  {
    hide RunAtom, ExecuteStep;
    OneStraight(env, step, w);
    assert [step][1..] == [];
  }
}
