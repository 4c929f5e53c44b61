/** The blueprint step interpreter: nested conditional steps, exceptions and the read-only
    policy, against a page that may answer anything. */
module StepExecutor {
  import opened Text
  import opened ReadOnlyPolicy
  import Interpolation

  datatype Step = Step(
    action: Action,
    url: Option<string>,
    selector: Option<string>,
    value: Option<string>,
    timeout: Option<int>,
    waitForNavigation: bool,
    screenshotName: Option<string>,
    script: Option<string>,
    conditionSelector: Option<string>,
    thenSteps: seq<Step>,
    elseSteps: seq<Step>,
    iframeSelector: Option<string>,
    direction: Option<string>,
    pixels: Option<int>)

  /** What the interpreter asks of the page. */
  datatype Op =
    | OpenUrl(url: string, timeout: int)
    | WaitFor(selector: string, timeout: int)
    | FillIn(selector: string, value: string)
    | Describe(selector: string)
    | Press(selector: string)
    | AwaitNavigation(timeout: int)
    | TakeScreenshot(name: string)
    | ScrollTo(selector: string)
    | ScrollBy(pixels: int)
    | SelectOption(selector: string, value: string)
    | LoadState(timeout: int)
    | Evaluate(script: string)

  /** How the page answers: done (with a status for a navigation, with the texts of the
      element for a description), one of Playwright's errors, or a cancellation. */
  datatype Reply = Done | Status(code: nat) | Described(texts: seq<string>) | NoAnswer | Failure | Cancel

  datatype Exn =
    | PlaywrightTimeout
    | OtherException
    | ConnectionFailed
    | Authentication
    | SiteUnavailable
    | ReadOnlyViolation(reason: Reason)
    | CancelledError

  datatype Result = Ok | Raised(exn: Exn)

  /** The requests made so far, and what the policy has recorded. */
  datatype World = World(trace: seq<Op>, blocked: seq<BlockedAction>)

  datatype Out = Out(result: Result, world: World)

  datatype Policy = Policy(enabled: bool, phase: Phase)

  /** A page is any function from the requests made so far to the answer to the last. */
  type Page = seq<Op> -> Reply

  datatype Env = Env(page: Page, vars: map<string, string>, allowJs: bool, policy: Option<Policy>)

  // -------------------------------------------------------------------------- one request

  function Timeout(step: Step, default: int): int {
    OrNumber(step.timeout, default)
  }

  function Answer(env: Env, op: Op, w: World): Reply { env.page(w.trace + [op]) }

  function Asked(op: Op, w: World): World { w.(trace := w.trace + [op]) }

  function AsResult(reply: Reply): Result {
    match reply
    case NoAnswer => Raised(PlaywrightTimeout)
    case Failure => Raised(OtherException)
    case Cancel => Raised(CancelledError)
    case _ => Ok
  }

  function Ask(env: Env, op: Op, w: World): Out { Out(AsResult(Answer(env, op, w)), Asked(op, w)) }

  function Refused(w: World): Out { Out(Raised(ConnectionFailed), w) }

  // ------------------------------------------------------------------------------ handlers

  function SiteAnswered(reply: Reply): Result {
    if reply.NoAnswer? || (reply.Status? && reply.code >= 500) then Raised(SiteUnavailable) else AsResult(reply)
  }

  function StepGoto(env: Env, step: Step, w: World): Out {
    if step.url.None? || Interpolation.Interpolate(env.vars, step.url.value) == "" then Refused(w)
    else
      var op := OpenUrl(Interpolation.Interpolate(env.vars, step.url.value), Timeout(step, 30000));
      Out(SiteAnswered(Answer(env, op, w)), Asked(op, w))
  }

  function Value(env: Env, step: Step): string {
    if step.value.Some? then Interpolation.Interpolate(env.vars, step.value.value) else ""
  }

  function StepFill(env: Env, step: Step, w: World): Out {
    if !Given(step.selector) then Refused(w)
    else
      var found := Ask(env, WaitFor(step.selector.value, Timeout(step, 10000)), w);
      if found.result.Raised? then found
      else Ask(env, FillIn(step.selector.value, Value(env, step)), found.world)
  }

  /** `_describe_click_target`: anything but a description counts as no metadata. */
  function Metadata(reply: Reply): seq<string> {
    if reply.Described? then reply.texts else []
  }

  function Violation(policy: Policy, action: Action, reason: Reason, target: Option<string>, w: World): Out {
    Out(Raised(ReadOnlyViolation(reason)),
        w.(blocked := w.blocked + [BlockedAction(policy.phase, action, reason, target)]))
  }

  function Pressed(env: Env, step: Step, w: World): Out
    requires Given(step.selector)
  {
    var pressed := Ask(env, Press(step.selector.value), w);
    if pressed.result.Raised? || !step.waitForNavigation then pressed
    else Ask(env, AwaitNavigation(Timeout(step, 30000)), pressed.world)
  }

  /** What a click does under a policy, once its target is visible. */
  function Judged(env: Env, step: Step, w: World): Out
    requires Given(step.selector) && env.policy.Some?
  {
    var target := step.selector.value;
    var reply := Answer(env, Describe(target), w);
    var described := Asked(Describe(target), w);
    if reply.Cancel? then Out(Raised(CancelledError), described)
    else
      match EvaluateClick(env.policy.value.enabled, env.policy.value.phase, target, Metadata(reply))
      case Some(reason) => Violation(env.policy.value, Click, reason, Some(target), described)
      case None => Pressed(env, step, described)
  }

  function StepClick(env: Env, step: Step, w: World): Out {
    if !Given(step.selector) then Refused(w)
    else
      var target := step.selector.value;
      var found := Ask(env, WaitFor(target, Timeout(step, 10000)), w);
      if found.result.Raised? then found
      else if env.policy.None? then Pressed(env, step, found.world)
      else Judged(env, step, found.world)
  }

  function StepWait(env: Env, step: Step, w: World): Out {
    if !Given(step.selector) then Refused(w)
    else Ask(env, WaitFor(step.selector.value, Timeout(step, 10000)), w)
  }

  predicate FileSafe(c: char) { Interpolation.IsNameChar(c) || c == '-' }

  function Sanitised(name: string): (r: string)
    ensures |r| == |name|
    ensures forall i | 0 <= i < |name| ::
        var c := name[i];
        r[i] == if 'a' <= c <= 'z' || 'A' <= c <= 'Z' || '0' <= c <= '9' || c == '_' || c == '-' then c else '_'
  {
    if name == [] then [] else [if FileSafe(name[0]) then name[0] else '_'] + Sanitised(name[1..])
  }

  function StepScreenshot(env: Env, step: Step, w: World): Out {
    Ask(env, TakeScreenshot(Sanitised(OrText(step.screenshotName, "debug"))), w)
  }

  function StepScroll(env: Env, step: Step, w: World): Out {
    if Given(step.selector) then Ask(env, ScrollTo(step.selector.value), w)
    else if step.pixels.Some? && step.pixels.value != 0 then
      Ask(env, ScrollBy(if OrText(step.direction, "down") == "down" then step.pixels.value else -step.pixels.value), w)
    else Ask(env, ScrollBy(500), w)
  }

  function StepSelect(env: Env, step: Step, w: World): Out {
    if !Given(step.selector) || Value(env, step) == "" then Refused(w)
    else Ask(env, SelectOption(step.selector.value, Value(env, step)), w)
  }

  function StepIframe(step: Step, w: World): Out {
    if Given(step.iframeSelector) || Given(step.selector) then Out(Ok, w) else Refused(w)
  }

  function StepExecuteJs(env: Env, step: Step, w: World): Out {
    if !env.allowJs || !Given(step.script) then Refused(w)
    else Ask(env, Evaluate(step.script.value), w)
  }

  /** Every handler but that of conditional steps. */
  function RunAtom(env: Env, step: Step, w: World): Out {
    match step.action
    case Goto => StepGoto(env, step, w)
    case Fill => StepFill(env, step, w)
    case Click => StepClick(env, step, w)
    case Wait => StepWait(env, step, w)
    case Screenshot => StepScreenshot(env, step, w)
    case Scroll => StepScroll(env, step, w)
    case Select => StepSelect(env, step, w)
    case Iframe => StepIframe(step, w)
    case WaitForNavigation => Ask(env, LoadState(Timeout(step, 30000)), w)
    case ExecuteJs => StepExecuteJs(env, step, w)
    case Extract => Refused(w)
    case Conditional => Refused(w)
  }

  // ----------------------------------------------------------------------- the interpreter

  function Forbidden(env: Env, action: Action): Option<Reason> {
    if env.policy.None? then None else EvaluateStep(env.policy.value.enabled, env.policy.value.phase, action)
  }

  /** `step.selector or step.url` */
  function Target(step: Step): Option<string> { if Given(step.selector) then step.selector else step.url }

  /** What `execute_steps` makes of an exception: the domain errors and cancellation pass,
      every other one becomes a failed connection. */
  function Wrapped(r: Result): Result {
    if r == Raised(PlaywrightTimeout) || r == Raised(OtherException) then Raised(ConnectionFailed) else r
  }

  function Closed(o: Out): Out { Out(Wrapped(o.result), o.world) }

  function ExecuteSteps(env: Env, steps: seq<Step>, w: World): Out
    decreases steps
  {
    if steps == [] then Out(Ok, w)
    else
      var o := ExecuteStep(env, steps[0], w);
      if o.result.Ok? then ExecuteSteps(env, steps[1..], o.world)
      else Closed(o)
  }

  function ExecuteStep(env: Env, step: Step, w: World): Out
    decreases step, 1
  {
    match Forbidden(env, step.action)
    case Some(reason) => Violation(env.policy.value, step.action, reason, Target(step), w)
    case None => if step.action == Conditional then StepConditional(env, step, w) else RunAtom(env, step, w)
  }

  /** The `try` around the wait and the then-steps catches a timeout from either. */
  function StepConditional(env: Env, step: Step, w: World): Out
    decreases step, 0
  {
    if !Given(step.conditionSelector) then Refused(w)
    else
      var found := Ask(env, WaitFor(step.conditionSelector.value, Timeout(step, 3000)), w);
      var tried := if found.result.Ok? then ExecuteSteps(env, step.thenSteps, found.world) else found;
      if tried.result == Raised(PlaywrightTimeout) then ExecuteSteps(env, step.elseSteps, tried.world) else tried
  }

  /** What may leave `execute_steps`: one of three of its four domain errors, or a
      cancellation. */
  predicate Escapes(e: Exn) {
    e == ConnectionFailed || e == SiteUnavailable || e.ReadOnlyViolation? || e == CancelledError
  }

  predicate Contained(r: Result) { r.Ok? || Escapes(r.exn) }

  lemma AtomsRaise(env: Env, step: Step, w: World)
    ensures var r := RunAtom(env, step, w).result; r != Raised(Authentication) && Contained(Wrapped(r))
  {
    hide Interpolation.Interpolate, EvaluateClick, Sanitised;
  }

  /** Only those exceptions leave `execute_steps`, for any steps and any page. */
  lemma {:induction false} OnlyDomainErrorsEscape(env: Env, steps: seq<Step>, w: World)
    ensures Contained(ExecuteSteps(env, steps, w).result)
    decreases steps
  {
    if steps != [] {
      var step := steps[0];
      StepErrors(env, step, w);
      OnlyDomainErrorsEscape(env, steps[1..], ExecuteStep(env, step, w).world);
    }
  }

  lemma {:induction false} StepErrors(env: Env, step: Step, w: World)
    ensures Contained(Wrapped(ExecuteStep(env, step, w).result))
    decreases step, 0
  {
    hide RunAtom;
    AtomsRaise(env, step, w);
    if step.action == Conditional && Given(step.conditionSelector) {
      var found := Ask(env, WaitFor(step.conditionSelector.value, Timeout(step, 3000)), w);
      OnlyDomainErrorsEscape(env, step.thenSteps, found.world);
      OnlyDomainErrorsEscape(env, step.elseSteps, found.world);
    }
  }

  // ------------------------------------------------------------------ trees run straight

  function Weight(step: Step): (n: nat)
    ensures n > 0
    decreases step, 0
  {
    1 + WeightAll(step.thenSteps) + WeightAll(step.elseSteps)
  }

  function WeightAll(steps: seq<Step>): nat
    decreases steps
  {
    if steps == [] then 0 else Weight(steps[0]) + WeightAll(steps[1..])
  }

  lemma {:induction false} WeightConcat(a: seq<Step>, b: seq<Step>)
    ensures WeightAll(a + b) == WeightAll(a) + WeightAll(b)
  {
    if a == [] {
      assert a + b == b;
    } else {
      assert (a + b)[1..] == a[1..] + b;
      WeightConcat(a[1..], b);
    }
  }

  predicate Branches(step: Step) { step.action == Conditional && Given(step.conditionSelector) }

  /** The steps a conditional step stands for, once its condition is answered. */
  function Branch(step: Step, reply: Reply): seq<Step> {
    if reply.NoAnswer? then step.elseSteps else step.thenSteps
  }

  function ConditionOp(step: Step): Op
    requires Branches(step)
  {
    WaitFor(step.conditionSelector.value, Timeout(step, 3000))
  }

  lemma BranchIsLighter(step: Step, reply: Reply, steps: seq<Step>)
    requires steps != [] && steps[0] == step
    ensures WeightAll(Branch(step, reply) + steps[1..]) < WeightAll(steps)
  {
    WeightConcat(Branch(step, reply), steps[1..]);
    assert WeightAll(steps) == Weight(step) + WeightAll(steps[1..]);
  }

  /** A flat interpreter without nesting and without handlers: a conditional step is replaced
      by the branch its condition selects, and the first error ends the run. */
  function RunStraight(env: Env, todo: seq<Step>, w: World): Out
    decreases WeightAll(todo)
  {
    if todo == [] then Out(Ok, w)
    else
      var step, rest := todo[0], todo[1..];
      if Branches(step) then
        var reply := Answer(env, ConditionOp(step), w);
        if reply.Failure? then Out(Raised(ConnectionFailed), Asked(ConditionOp(step), w))
        else if reply.Cancel? then Out(Raised(CancelledError), Asked(ConditionOp(step), w))
        else
          BranchIsLighter(step, reply, todo);
          RunStraight(env, Branch(step, reply) + rest, Asked(ConditionOp(step), w))
      else
        var o := Straight(env, step, w);
        if o.result.Ok? then RunStraight(env, rest, o.world) else o
  }

  /** One step that does not branch. */
  function Straight(env: Env, step: Step, w: World): Out {
    match Forbidden(env, step.action)
    case Some(reason) => Violation(env.policy.value, step.action, reason, Target(step), w)
    case None => Closed(RunAtom(env, step, w))
  }

  /** Executing a list in two parts. */
  lemma {:induction false} ExecuteConcat(env: Env, a: seq<Step>, b: seq<Step>, w: World)
    ensures ExecuteSteps(env, a + b, w)
         == var o := ExecuteSteps(env, a, w);
            if o.result.Ok? then ExecuteSteps(env, b, o.world) else o
    decreases |a|
  {
    hide ExecuteStep;
    if a == [] {
      assert a + b == b;
    } else {
      assert (a + b)[1..] == a[1..] + b;
      ExecuteConcat(env, a[1..], b, ExecuteStep(env, a[0], w).world);
    }
  }

  /** A conditional step is its branch: nothing the then-steps raise, a timeout included,
      starts the else-steps. */
  lemma ConditionalIsItsBranch(env: Env, step: Step, w: World)
    requires Branches(step)
    ensures var reply := Answer(env, ConditionOp(step), w);
            var asked := Asked(ConditionOp(step), w);
            ExecuteStep(env, step, w)
            == if reply.Failure? || reply.Cancel? then Out(AsResult(reply), asked)
               else ExecuteSteps(env, Branch(step, reply), asked)
  {
    hide ExecuteSteps;
    OnlyDomainErrorsEscape(env, step.thenSteps, Asked(ConditionOp(step), w));
  }

  /** The nested interpreter, with a handler at every level, runs every tree of steps exactly
      as the flat one does: same requests, same records, same outcome. */
  lemma {:induction false} TreesRunStraight(env: Env, steps: seq<Step>, w: World)
    ensures ExecuteSteps(env, steps, w) == RunStraight(env, steps, w)
    decreases WeightAll(steps)
  {
    if steps != [] {
      var step, rest := steps[0], steps[1..];
      if Branches(step) {
        hide RunAtom, Weight;
        ConditionalIsItsBranch(env, step, w);
        var reply := Answer(env, ConditionOp(step), w);
        if !reply.Failure? && !reply.Cancel? {
          var branch := Branch(step, reply);
          BranchIsLighter(step, reply, steps);
          ExecuteConcat(env, branch, rest, Asked(ConditionOp(step), w));
          OnlyDomainErrorsEscape(env, branch, Asked(ConditionOp(step), w));
          TreesRunStraight(env, branch + rest, Asked(ConditionOp(step), w));
        }
      } else {
        OneStraight(env, step, w);
        TreesRunStraight(env, rest, Straight(env, step, w).world);
      }
    }
  }

  lemma OneStraight(env: Env, step: Step, w: World)
    requires !Branches(step)
    ensures Straight(env, step, w) == Closed(ExecuteStep(env, step, w))
  {}

  // ------------------------------------------------------------------------ the policy holds

  predicate Guarded(env: Env) {
    && env.policy.Some? && env.policy.value.enabled
    && (env.policy.value.phase == Read || env.policy.value.phase == Cleanup)
  }

  predicate Mutates(op: Op) { op.FillIn? || op.SelectOption? || op.Evaluate? }

  /** No mutating request from index `n` on. */
  ghost predicate ReadOnlyFrom(trace: seq<Op>, n: nat) {
    forall i | n <= i < |trace| :: !Mutates(trace[i])
  }

  /** Every press from index `n` on follows a description of its target that shows no risk. */
  ghost predicate SafePressesFrom(env: Env, trace: seq<Op>, n: nat) {
    forall i | n <= i < |trace| && trace[i].Press? :: SafePress(env, trace, i)
  }

  ghost predicate SafePress(env: Env, trace: seq<Op>, i: nat)
    requires i < |trace| && trace[i].Press?
  {
    && i > 0
    && trace[i - 1] == Describe(trace[i].selector)
    && !Risky(Words(Descriptor(trace[i].selector, Metadata(env.page(trace[..i])))))
  }

  predicate Reading(env: Env) { env.policy.Some? && env.policy.value.enabled && env.policy.value.phase == Read }

  /** What a run records: one entry if it ends in a violation, for the reason raised and in
      the current phase, and nothing otherwise. */
  ghost predicate RecordsItsEnd(env: Env, w: World, o: Out) {
    match o.result
    case Raised(ReadOnlyViolation(reason)) =>
      && Guarded(env)
      && (exists action, target ::
            o.world.blocked == w.blocked + [BlockedAction(env.policy.value.phase, action, reason, target)])
    case _ => o.world.blocked == w.blocked
  }

  ghost predicate Compliant(env: Env, w: World, o: Out) {
    && w.trace <= o.world.trace
    && RecordsItsEnd(env, w, o)
    && (Guarded(env) ==> ReadOnlyFrom(o.world.trace, |w.trace|))
    && (Reading(env) ==> SafePressesFrom(env, o.world.trace, |w.trace|))
  }

  lemma Unasked(env: Env, w: World, r: Result)
    requires !(r.Raised? && r.exn.ReadOnlyViolation?)
    ensures Compliant(env, w, Out(r, w))
  {}

  lemma AskedFirst(env: Env, op: Op, w: World, rest: Out)
    requires (Guarded(env) ==> !Mutates(op)) && (Reading(env) ==> !op.Press?)
    requires Compliant(env, Asked(op, w), rest)
    ensures Compliant(env, w, rest)
  {
    assert rest.world.trace[|w.trace|] == op;
  }

  lemma OneAsked(env: Env, op: Op, w: World, r: Result)
    requires (Guarded(env) ==> !Mutates(op)) && (Reading(env) ==> !op.Press?)
    requires !(r.Raised? && r.exn.ReadOnlyViolation?)
    ensures Compliant(env, w, Out(r, Asked(op, w)))
  {
    Unasked(env, Asked(op, w), r);
    AskedFirst(env, op, w, Out(r, Asked(op, w)));
  }

  lemma Recorded(env: Env, action: Action, reason: Reason, target: Option<string>, w: World)
    requires Guarded(env)
    ensures Compliant(env, w, Violation(env.policy.value, action, reason, target, w))
  {}

  /** A press that follows the description of its target. */
  lemma PressComplies(env: Env, step: Step, w: World)
    requires Given(step.selector)
    requires Reading(env) ==>
      w.trace != [] && w.trace[|w.trace| - 1] == Describe(step.selector.value)
      && !Risky(Words(Descriptor(step.selector.value, Metadata(env.page(w.trace)))))
    ensures Compliant(env, w, Closed(Pressed(env, step, w)))
  {
    hide Words, Descriptor, Risky;
    var target := step.selector.value;
    var w1 := Asked(Press(target), w);
    var o := Closed(Pressed(env, step, w));
    if o.world == w1 {
      Unasked(env, w1, o.result);
    } else {
      OneAsked(env, AwaitNavigation(Timeout(step, 30000)), w1, o.result);
    }
    assert w1.trace[..|w.trace|] == w.trace;
    assert o.world.trace[..|w.trace|] == w.trace;
    assert o.world.trace[|w.trace|] == Press(target);
  }

  lemma ClickComplies(env: Env, step: Step, w: World)
    ensures Compliant(env, w, Closed(StepClick(env, step, w)))
  {
    hide Compliant, Words, Descriptor;
    if !Given(step.selector) {
      Unasked(env, w, Raised(ConnectionFailed));
    } else {
      var target := step.selector.value;
      var o := Closed(StepClick(env, step, w));
      var wait := WaitFor(target, Timeout(step, 10000));
      var w1 := Asked(wait, w);
      if AsResult(Answer(env, wait, w)).Raised? {
        OneAsked(env, wait, w, o.result);
      } else {
        if env.policy.None? {
          PressComplies(env, step, w1);
        } else {
          DescribedClick(env, step, w1);
        }
        AskedFirst(env, wait, w, o);
      }
    }
  }

  lemma DescribedClick(env: Env, step: Step, w: World)
    requires Given(step.selector) && env.policy.Some?
    ensures Compliant(env, w, Closed(Judged(env, step, w)))
  {
    hide Compliant, Words, Descriptor, FirstRisky, Matches;
    var target := step.selector.value;
    var reply := Answer(env, Describe(target), w);
    var described := Asked(Describe(target), w);
    var o := Closed(Judged(env, step, w));
    if reply.Cancel? {
      Unasked(env, described, o.result);
    } else {
      match EvaluateClick(env.policy.value.enabled, env.policy.value.phase, target, Metadata(reply))
      case Some(reason) => Recorded(env, Click, reason, Some(target), described);
      case None =>
        if Reading(env) {
          assert FirstRisky(Words(Descriptor(target, Metadata(reply))), 0).None?;
        }
        PressComplies(env, step, described);
    }
    AskedFirst(env, Describe(target), w, o);
  }

  lemma AtomComplies(env: Env, step: Step, w: World)
    requires !Branches(step)
    ensures Compliant(env, w, Straight(env, step, w))
  {
    hide Compliant, Interpolation.Interpolate, Sanitised, StepClick;
    var o := Straight(env, step, w);
    if Forbidden(env, step.action).Some? {
      Recorded(env, step.action, Forbidden(env, step.action).value, Target(step), w);
    } else if step.action == Click {
      ClickComplies(env, step, w);
    } else if o.world == w {
      Unasked(env, w, o.result);
    } else if |o.world.trace| == |w.trace| + 1 {
      OneAsked(env, o.world.trace[|w.trace|], w, o.result);
    } else {
      var found := Asked(WaitFor(step.selector.value, Timeout(step, 10000)), w);
      OneAsked(env, FillIn(step.selector.value, Value(env, step)), found, o.result);
      AskedFirst(env, WaitFor(step.selector.value, Timeout(step, 10000)), w, o);
    }
  }

  lemma CompliantTrans(env: Env, w: World, o: Out, rest: Out)
    requires o.result.Ok? && Compliant(env, w, o) && Compliant(env, o.world, rest)
    ensures Compliant(env, w, rest)
  {
    hide Risky, Words, Descriptor, RecordsItsEnd;
    var t := rest.world.trace;
    forall i | Reading(env) && |w.trace| <= i < |t| && t[i].Press? ensures SafePress(env, t, i) {
      if i < |o.world.trace| {
        assert SafePress(env, o.world.trace, i);
        assert t[..i] == o.world.trace[..i];
      }
    }
    RecordsThen(env, w, o, rest);
  }

  lemma RecordsThen(env: Env, w: World, o: Out, rest: Out)
    requires o.result.Ok? && RecordsItsEnd(env, w, o) && RecordsItsEnd(env, o.world, rest)
    ensures RecordsItsEnd(env, w, rest)
  {}

  /** For all steps, pages and policies: a run ends in a violation exactly when it makes a
      record, and then one; under an enabled policy, nothing is filled, selected or evaluated
      after authentication, and while reading nothing is pressed whose own description is
      risky. */
  lemma {:induction false} PolicyHolds(env: Env, steps: seq<Step>, w: World)
    ensures Compliant(env, w, ExecuteSteps(env, steps, w))
    decreases WeightAll(steps)
  {
    hide Compliant;
    TreesRunStraight(env, steps, w);
    if steps == [] {
      Unasked(env, w, Ok);
    } else {
      var step, rest := steps[0], steps[1..];
      if Branches(step) {
        var reply := Answer(env, ConditionOp(step), w);
        var asked := Asked(ConditionOp(step), w);
        if reply.Failure? || reply.Cancel? {
          OneAsked(env, ConditionOp(step), w, ExecuteSteps(env, steps, w).result);
        } else {
          BranchIsLighter(step, reply, steps);
          TreesRunStraight(env, Branch(step, reply) + rest, asked);
          PolicyHolds(env, Branch(step, reply) + rest, asked);
          AskedFirst(env, ConditionOp(step), w, ExecuteSteps(env, steps, w));
        }
      } else {
        AtomComplies(env, step, w);
        var o := Straight(env, step, w);
        TreesRunStraight(env, rest, o.world);
        PolicyHolds(env, rest, o.world);
        if o.result.Ok? {
          CompliantTrans(env, w, o, ExecuteSteps(env, rest, o.world));
        }
      }
    }
  }

  /** The first mutating step a guarded run reaches is recorded once, asks the page nothing
      and ends the run, whatever follows it. */
  lemma FirstMutationStops(env: Env, pre: seq<Step>, step: Step, post: seq<Step>, w: World)
    requires Guarded(env) && ExecuteSteps(env, pre, w).result.Ok?
    requires step.action == Fill || step.action == Select || step.action == ExecuteJs
    ensures var reached := ExecuteSteps(env, pre, w).world;
            ExecuteSteps(env, pre + ([step] + post), w)
            == Violation(env.policy.value, step.action, MutatingStep(step.action), Target(step), reached)
  {
    ExecuteConcat(env, pre, [step] + post, w);
  }

  // ---------------------------------------------------------------------- the interpreter

  class StepExecutor {
    const page: Page
    const variables: map<string, string>
    const allowJs: bool
    const policy: ReadOnlyExecutionPolicy?
    /** The requests the page has seen. */
    var trace: seq<Op>

    constructor (page: Page, variables: map<string, string>, allowJs: bool, policy: ReadOnlyExecutionPolicy?)
      ensures this.page == page && this.variables == variables && this.allowJs == allowJs
      ensures this.policy == policy && trace == []
    {
      this.page, this.variables, this.allowJs, this.policy, trace := page, variables, allowJs, policy, [];
    }

    ghost function Now(): World
      reads this, policy
    {
      World(trace, if policy == null then [] else policy.blockedActions)
    }

    ghost function Setup(): Env
      reads this, policy
    {
      Env(page, variables, allowJs, if policy == null then None else Some(Policy(policy.enabled, policy.phase)))
    }

    method Request(op: Op) returns (reply: Reply)
      modifies this`trace
      ensures reply == Answer(Setup(), op, old(Now())) && Now() == Asked(op, old(Now()))
    {
      trace := trace + [op];
      reply := page(trace);
    }

    method Do(op: Op) returns (r: Result)
      modifies this`trace
      ensures Out(r, Now()) == Ask(Setup(), op, old(Now()))
    {
      var reply := Request(op);
      r := AsResult(reply);
    }

    method Goto(step: Step) returns (r: Result)
      modifies this`trace
      ensures Out(r, Now()) == StepGoto(Setup(), step, old(Now()))
    {
      var url := if step.url.Some? then Interpolation.Interpolate(variables, step.url.value) else "";
      if url == "" {
        return Raised(ConnectionFailed);
      }
      var reply := Request(OpenUrl(url, Timeout(step, 30000)));
      if reply.Status? && reply.code >= 500 {
        return Raised(SiteUnavailable);
      }
      if reply.NoAnswer? {
        return Raised(SiteUnavailable);
      }
      r := AsResult(reply);
    }

    method Fill(step: Step) returns (r: Result)
      modifies this`trace
      ensures Out(r, Now()) == StepFill(Setup(), step, old(Now()))
    {
      if !Given(step.selector) {
        return Raised(ConnectionFailed);
      }
      r := Do(WaitFor(step.selector.value, Timeout(step, 10000)));
      if r.Ok? {
        var value := if step.value.Some? then Interpolation.Interpolate(variables, step.value.value) else "";
        r := Do(FillIn(step.selector.value, value));
      }
    }

    /** `_describe_click_target`: any error but a cancellation counts as no description. */
    method DescribeClickTarget(selector: string) returns (r: Result, metadata: seq<string>)
      requires policy != null
      modifies this`trace
      ensures Now() == Asked(Describe(selector), old(Now()))
      ensures var reply := Answer(Setup(), Describe(selector), old(Now()));
              r == (if reply.Cancel? then Raised(CancelledError) else Ok) && metadata == Metadata(reply)
    {
      var reply := Request(Describe(selector));
      match reply
      case Cancel => return Raised(CancelledError), [];
      case Described(texts) => return Ok, texts;
      case _ => return Ok, [];
    }

    method Click(step: Step) returns (r: Result)
      modifies this`trace, policy
      ensures Setup() == old(Setup())
      ensures Out(r, Now()) == StepClick(Setup(), step, old(Now()))
    {
      if !Given(step.selector) {
        return Raised(ConnectionFailed);
      }
      var selector := step.selector.value;
      r := Do(WaitFor(selector, Timeout(step, 10000)));
      if r.Raised? {
        return;
      }
      if policy != null {
        var metadata;
        r, metadata := DescribeClickTarget(selector);
        if r.Raised? {
          return;
        }
        var reason := policy.EvaluateClickTarget(selector, metadata);
        if reason.Some? {
          policy.RecordBlocked(Action.Click, reason.value, Some(selector));
          return Raised(ReadOnlyViolation(reason.value));
        }
      }
      r := Do(Press(selector));
      if r.Ok? && step.waitForNavigation {
        r := Do(AwaitNavigation(Timeout(step, 30000)));
      }
    }

    /** The handlers that make at most one request. */
    method Simple(step: Step) returns (r: Result)
      requires step.action !in {Action.Goto, Action.Fill, Action.Click, Conditional}
      modifies this`trace
      ensures Out(r, Now()) == RunAtom(Setup(), step, old(Now()))
    {
      match step.action
      case Wait =>
        if !Given(step.selector) {
          return Raised(ConnectionFailed);
        }
        r := Do(WaitFor(step.selector.value, Timeout(step, 10000)));
      case Screenshot =>
        r := Do(TakeScreenshot(Sanitised(OrText(step.screenshotName, "debug"))));
      case Scroll =>
        if Given(step.selector) {
          r := Do(ScrollTo(step.selector.value));
        } else if step.pixels.Some? && step.pixels.value != 0 {
          var down := OrText(step.direction, "down") == "down";
          r := Do(ScrollBy(if down then step.pixels.value else -step.pixels.value));
        } else {
          r := Do(ScrollBy(500));
        }
      case Select =>
        var value := if step.value.Some? then Interpolation.Interpolate(variables, step.value.value) else "";
        if !Given(step.selector) || value == "" {
          return Raised(ConnectionFailed);
        }
        r := Do(SelectOption(step.selector.value, value));
      case Iframe =>
        r := if Given(step.iframeSelector) || Given(step.selector) then Ok else Raised(ConnectionFailed);
      case WaitForNavigation =>
        r := Do(LoadState(Timeout(step, 30000)));
      case ExecuteJs =>
        if !allowJs || !Given(step.script) {
          return Raised(ConnectionFailed);
        }
        r := Do(Evaluate(step.script.value));
      case Extract =>
        r := Raised(ConnectionFailed);
    }

    method EnforceStepPolicy(step: Step) returns (r: Result)
      modifies policy
      ensures Setup() == old(Setup())
      ensures Forbidden(Setup(), step.action).None? ==> r == Ok && Now() == old(Now())
      ensures Forbidden(Setup(), step.action).Some? ==>
        Out(r, Now())
            == Violation(Setup().policy.value, step.action, Forbidden(Setup(), step.action).value, Target(step),
                old(Now()))
    {
      if policy == null {
        return Ok;
      }
      var reason := EvaluateStep(policy.enabled, policy.phase, step.action);
      if reason.None? {
        return Ok;
      }
      policy.RecordBlocked(step.action, reason.value, Target(step));
      r := Raised(ReadOnlyViolation(reason.value));
    }

    /** `_step_conditional` */
    method Conditionally(step: Step) returns (r: Result)
      modifies this`trace, policy
      ensures Setup() == old(Setup())
      ensures Out(r, Now()) == StepConditional(Setup(), step, old(Now()))
      decreases step, 0
    {
      if !Given(step.conditionSelector) {
        return Raised(ConnectionFailed);
      }
      r := Do(WaitFor(step.conditionSelector.value, Timeout(step, 3000)));
      if r.Ok? {
        r := Run(step.thenSteps);
      }
      if r == Raised(PlaywrightTimeout) {
        r := Run(step.elseSteps);
      }
    }

    /** `_execute_step` */
    method RunStep(step: Step) returns (r: Result)
      modifies this`trace, policy
      ensures Setup() == old(Setup())
      ensures Out(r, Now()) == ExecuteStep(Setup(), step, old(Now()))
      decreases step, 1
    {
      r := EnforceStepPolicy(step);
      if r.Ok? {
        match step.action
        case Goto => r := Goto(step);
        case Fill => r := Fill(step);
        case Click => r := Click(step);
        case Conditional => r := Conditionally(step);
        case _ => r := Simple(step);
      }
    }

    /** `execute_steps` */
    method Run(steps: seq<Step>) returns (r: Result)
      modifies this`trace, policy
      ensures Setup() == old(Setup())
      ensures Out(r, Now()) == ExecuteSteps(Setup(), steps, old(Now()))
      decreases steps
    {
      for i := 0 to |steps|
        invariant Setup() == old(Setup())
        invariant ExecuteSteps(Setup(), steps, old(Now())) == ExecuteSteps(Setup(), steps[i..], Now())
      {
        r := RunStep(steps[i]);
        match r
        case Raised(PlaywrightTimeout) => return Raised(ConnectionFailed);
        case Raised(OtherException) => return Raised(ConnectionFailed);
        case Raised(_) => return;
        case Ok =>
          assert steps[i..][1..] == steps[i + 1..];
      }
      r := Ok;
    }
  }
}
