/** Permit accounting of the browser pool. `acquire` and `release` are split where they
    suspend, so any interleaving of tasks is a sequence of steps. */
module BrowserPool {

  type Session = nat

  /** The semaphore and the context table, with the calls that are part-way through: those
      that hold a permit but have not yet resolved it, and those inside `release`, after
      they popped a context (`closing`) or found none (`missing`). The last three fields
      count what the accounting has to explain. */
  datatype State = State(
    started: bool,
    permits: nat,
    contexts: set<Session>,
    acquiring: nat,
    closing: nat,
    missing: nat,
    unmatched: nat,
    leaked: nat,
    cleared: nat)

  datatype Step =
    | TakePermit
    | Reacquire(session: Session)
    | AcquireUnstarted
    | AcquireNew(session: Session)
    | AcquireAborted
    | Pop(session: Session)
    | Closed
    | ClosingCancelled
    | MissingDone
    | ContextsCleared
    | BrowserClosed
    | Start

  function Init(max: nat): State { State(false, max, {}, 0, 0, 0, 0, 0, 0) }

  predicate Enabled(s: State, step: Step) {
    match step
    case TakePermit => s.permits > 0
    case Reacquire(x) => s.acquiring > 0 && x in s.contexts
    case AcquireUnstarted => s.acquiring > 0 && !s.started
    case AcquireNew(x) => s.acquiring > 0 && s.started && x !in s.contexts
    case AcquireAborted => s.acquiring > 0
    case Pop(_) => true
    case Closed => s.closing > 0
    case ClosingCancelled => s.closing > 0
    case MissingDone => s.missing > 0
    case ContextsCleared => s.started
    case BrowserClosed => s.started
    case Start => !s.started
  }

  /** A failed or cancelled `acquire` that got past the early exits, and a `release`
      cancelled while it closes its context, never return their permit. `stop` drops the
      contexts, and then the browser, and returns no permit. A `release` that found nothing
      returns one all the same. */
  function Next(s: State, step: Step): State
    requires Enabled(s, step)
  {
    match step
    case TakePermit => s.(permits := s.permits - 1, acquiring := s.acquiring + 1)
    case Reacquire(_) => s.(acquiring := s.acquiring - 1, permits := s.permits + 1)
    case AcquireUnstarted => s.(acquiring := s.acquiring - 1, permits := s.permits + 1)
    case AcquireNew(x) => s.(acquiring := s.acquiring - 1, contexts := s.contexts + {x})
    case AcquireAborted => s.(acquiring := s.acquiring - 1, leaked := s.leaked + 1)
    case Pop(x) =>
      if x in s.contexts then s.(contexts := s.contexts - {x}, closing := s.closing + 1)
      else s.(missing := s.missing + 1)
    case Closed => s.(closing := s.closing - 1, permits := s.permits + 1)
    case ClosingCancelled => s.(closing := s.closing - 1, leaked := s.leaked + 1)
    case MissingDone => s.(missing := s.missing - 1, permits := s.permits + 1, unmatched := s.unmatched + 1)
    case ContextsCleared => s.(contexts := {}, cleared := s.cleared + |s.contexts|)
    case BrowserClosed => s.(started := false)
    case Start => s.(started := true)
  }

  ghost predicate Run(s: State, steps: seq<Step>, t: State)
    decreases |steps|
  {
    if steps == [] then s == t
    else Enabled(s, steps[0]) && Run(Next(s, steps[0]), steps[1..], t)
  }

  /** Every permit is accounted for. */
  predicate Law(s: State, max: nat) {
    s.permits + s.acquiring + |s.contexts| + s.closing + s.leaked + s.cleared == max + s.unmatched
  }

  lemma LawStep(s: State, max: nat, step: Step)
    requires Law(s, max) && Enabled(s, step)
    ensures Law(Next(s, step), max)
  {}

  lemma {:induction false} LawRun(s: State, max: nat, steps: seq<Step>, t: State)
    requires Law(s, max) && Run(s, steps, t)
    ensures Law(t, max)
    decreases |steps|
  {
    if steps != [] {
      LawStep(s, max, steps[0]);
      LawRun(Next(s, steps[0]), max, steps[1..], t);
    }
  }

  /** The exact permit law, over every interleaving; so the pool holds more contexts than
      its size only if more releases were unmatched than permits were lost. */
  lemma PermitsAccountedFor(max: nat, steps: seq<Step>, s: State)
    requires Run(Init(max), steps, s)
    ensures s.permits + s.acquiring + |s.contexts| + s.closing == max + s.unmatched - s.leaked - s.cleared
    ensures s.unmatched <= s.leaked + s.cleared ==> |s.contexts| <= max
  {
    LawRun(Init(max), max, steps, s);
  }

  /** And whenever that is so, callers that only acquire can exceed the size. */
  lemma {:induction false} SurplusOverflows(s: State, max: nat) returns (steps: seq<Step>, t: State)
    requires Law(s, max) && s.started && s.unmatched > s.leaked + s.cleared
    ensures Run(s, steps, t) && |t.contexts| > max
    ensures forall x | x in steps :: x.TakePermit? || x.AcquireNew? || x.Closed?
    decreases s.closing, s.permits, s.acquiring
  {
    if s.closing == 0 && s.permits == 0 && s.acquiring == 0 {
      steps, t := [], s;
    } else {
      var step :=
        if s.closing > 0 then Closed
        else if s.permits > 0 then TakePermit
        else AcquireNew(Unused(s.contexts));
      LawStep(s, max, step);
      var rest;
      rest, t := SurplusOverflows(Next(s, step), max);
      steps := [step] + rest;
      assert steps[1..] == rest;
    }
  }

  /** A session number that is not in the set. */
  ghost function Unused(xs: set<Session>): (x: Session)
    ensures x !in xs
  {
    var n := Above(xs);
    n
  }

  ghost function Above(xs: set<Session>): (n: nat)
    ensures forall x | x in xs :: x < n
    decreases |xs|
  {
    if xs == {} then 0
    else
      var x :| x in xs;
      var n := Above(xs - {x});
      assert forall y | y in xs :: y == x || y in xs - {x};
      if x < n then n else x + 1
  }

  /** Callers that pair every `acquire` with exactly one `release` are not safe: if the idle
      cleanup closed the context in between, the owner's own release is the unmatched one.
      A pool of one then has two permits, and more than one context can be open. */
  lemma CleanupMakesReleaseUnmatched() returns (free: State, s: State, more: seq<Step>, t: State)
    ensures free == Next(Init(1), Start)
    ensures Run(free, [TakePermit, AcquireNew(0)] + ([Pop(0), Closed] + [Pop(0), MissingDone]), s)
    ensures s.permits == 2 && s.leaked == 0 && s.cleared == 0
    ensures Run(s, more, t) && |t.contexts| > 1
  {
    free := State(true, 1, {}, 0, 0, 0, 0, 0, 0);
    s := State(true, 2, {}, 0, 0, 0, 1, 0, 0);
    assert free == Next(Init(1), Start);
    more, t := SurplusOverflows(s, 1);
    hide *;
    var held := State(true, 0, {0}, 0, 0, 0, 0, 0, 0);
    OwnersRelease(free, s);
    CleanedUp(held, free, [Pop(0), MissingDone], s);
    Acquired(free, held, [Pop(0), Closed] + [Pop(0), MissingDone], s);
  }

  lemma Acquired(free: State, held: State, rest: seq<Step>, t: State)
    requires held == State(true, 0, {0}, 0, 0, 0, 0, 0, 0) && free == State(true, 1, {}, 0, 0, 0, 0, 0, 0)
    requires Run(held, rest, t)
    ensures Run(free, [TakePermit, AcquireNew(0)] + rest, t)
  {
    var s1 := Next(free, TakePermit);
    assert Next(s1, AcquireNew(0)).contexts == {0};
    RunTwo(free, TakePermit, AcquireNew(0), rest, t);
  }

  lemma CleanedUp(held: State, free: State, rest: seq<Step>, t: State)
    requires held == State(true, 0, {0}, 0, 0, 0, 0, 0, 0) && free == State(true, 1, {}, 0, 0, 0, 0, 0, 0)
    requires Run(free, rest, t)
    ensures Run(held, [Pop(0), Closed] + rest, t)
  {
    var s1 := Next(held, Pop(0));
    assert s1.contexts == {};
    RunTwo(held, Pop(0), Closed, rest, t);
  }

  lemma OwnersRelease(free: State, t: State)
    requires free == State(true, 1, {}, 0, 0, 0, 0, 0, 0) && t == State(true, 2, {}, 0, 0, 0, 1, 0, 0)
    ensures Run(free, [Pop(0), MissingDone], t)
  {
    var s1 := Next(free, Pop(0));
    assert Run(t, [], t);
    RunTwo(free, Pop(0), MissingDone, [], t);
    assert [Pop(0), MissingDone] + [] == [Pop(0), MissingDone];
  }

  lemma RunTwo(s: State, x: Step, y: Step, rest: seq<Step>, t: State)
    requires Enabled(s, x) && Enabled(Next(s, x), y) && Run(Next(Next(s, x), y), rest, t)
    ensures Run(s, [x, y] + rest, t)
  {
    assert ([x, y] + rest)[1..] == [y] + rest && ([y] + rest)[1..] == rest;
  }

  // ------------------------------------------------------------------------- the pool

  /** How an `acquire` that holds a permit goes on. */
  function AcquireStep(s: State, session: Session, creates: bool): Step {
    if session in s.contexts then Reacquire(session)
    else if !s.started then AcquireUnstarted
    else if creates then AcquireNew(session)
    else AcquireAborted
  }

  class BrowserPool {
    const maxSize: nat
    const idleTimeout: nat
    var started: bool
    var permits: nat
    var contexts: map<Session, int>
    ghost var unmatched: nat
    ghost var leaked: nat
    ghost var cleared: nat

    /** The state between tasks. */
    ghost function Abs(): State
      reads this
    {
      State(started, permits, contexts.Keys, 0, 0, 0, unmatched, leaked, cleared)
    }

    constructor (maxSize: nat, idleTimeout: nat)
      ensures this.maxSize == maxSize && Abs() == Init(maxSize) && Law(Abs(), maxSize)
    {
      this.maxSize, this.idleTimeout := maxSize, idleTimeout;
      started, permits, contexts := false, maxSize, map[];
      unmatched, leaked, cleared := 0, 0, 0;
    }

    /** `acquire` once a permit is free; `creates` says whether the browser makes a context. */
    method Acquire(session: Session, now: int, creates: bool) returns (acquired: bool)
      requires Law(Abs(), maxSize) && permits > 0
      modifies this
      ensures Law(Abs(), maxSize) && started == old(started) && unmatched == old(unmatched) && cleared == old(cleared)
      ensures acquired <==> session in old(contexts) || (started && creates)
      ensures contexts == if acquired then old(contexts)[session := now] else old(contexts)
      ensures permits == if session in old(contexts) || !started then old(permits) else old(permits) - 1
      ensures Abs() == Next(Next(old(Abs()), TakePermit), AcquireStep(old(Abs()), session, creates))
    {
      permits := permits - 1;
      if session in contexts {
        contexts := contexts[session := now];
        permits := permits + 1;
        return true;
      }
      if !started {
        permits := permits + 1;
        return false;
      }
      if !creates {
        leaked := leaked + 1;
        return false;
      }
      assert contexts[session := now].Keys == contexts.Keys + {session};
      contexts := contexts[session := now];
      return true;
    }

    /** `release`: always returns a permit. */
    method Release(session: Session)
      requires Law(Abs(), maxSize)
      modifies this
      ensures Law(Abs(), maxSize) && started == old(started) && leaked == old(leaked) && cleared == old(cleared)
      ensures contexts == old(contexts) - {session} && permits == old(permits) + 1
      ensures Abs() == Next(Next(old(Abs()), Pop(session)), if session in old(contexts) then Closed else MissingDone)
      ensures unmatched == old(unmatched) + if session in old(contexts) then 0 else 1
    {
      if session !in contexts {
        unmatched := unmatched + 1;
        assert contexts - {session} == contexts;
      } else {
        assert (contexts - {session}).Keys == contexts.Keys - {session};
      }
      contexts := contexts - {session};
      permits := permits + 1;
    }

    /** `_cleanup_idle`, undisturbed: closes exactly the contexts idle for too long. */
    method CleanupIdle(now: int)
      requires Law(Abs(), maxSize)
      modifies this
      ensures Law(Abs(), maxSize) && started == old(started)
      ensures unmatched == old(unmatched) && leaked == old(leaked) && cleared == old(cleared)
      ensures contexts == map x | x in old(contexts) && now - old(contexts)[x] <= idleTimeout :: old(contexts)[x]
    {
      hide *;
      var toRemove := set x | x in contexts && now - contexts[x] > idleTimeout;
      ghost var all := toRemove;
      while toRemove != {}
        invariant Law(Abs(), maxSize) && started == old(started)
        invariant unmatched == old(unmatched) && leaked == old(leaked) && cleared == old(cleared)
        invariant toRemove <= contexts.Keys && toRemove <= all
        invariant contexts == old(contexts) - (all - toRemove)
        decreases |toRemove|
      {
        var x :| x in toRemove;
        Release(x);
        assert old(contexts) - (all - toRemove) - {x} == old(contexts) - (all - (toRemove - {x}));
        toRemove := toRemove - {x};
      }
      assert all - {} == all;
    }

    /** `stop`: the contexts go, their permits stay out; nothing happens to a pool that is
        not running. */
    method StopPool()
      requires Law(Abs(), maxSize)
      modifies this
      ensures Law(Abs(), maxSize) && !started && permits == old(permits)
      ensures old(started) ==> contexts == map[] && cleared == old(cleared) + |old(contexts)|
      ensures old(started) ==> Abs() == Next(Next(old(Abs()), ContextsCleared), BrowserClosed)
      ensures !old(started) ==> contexts == old(contexts) && cleared == old(cleared)
    {
      if !started {
        return;
      }
      cleared := cleared + |contexts.Keys|;
      assert |contexts.Keys| == |contexts|;
      contexts := map[];
      started := false;
    }
  }
}
