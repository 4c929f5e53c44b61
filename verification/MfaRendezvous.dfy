/** The rendezvous between an engine that waits for an MFA code on one worker and a user who
    submits it on another, through a session payload in Redis. Times are milliseconds. */
module MfaRendezvous {
  import opened Arithmetic

  type Id = string
  type Worker = nat
  type SessionId = nat

  const POLL := 250

  /** A payload in Redis; "" is no code. Redis drops the key at `until`. */
  datatype Payload = Payload(createdAt: int, ttl: int, code: string, until: int)

  /** How far a session object's waiter is. */
  datatype Wait = Idle | Waiting(deadline: int, wakeAt: int) | Returned(code: string) | TimedOut

  /** An `MFASession` object. */
  datatype Session = Session(id: Id, createdAt: int, ttl: int, code: string, wait: Wait)

  datatype Submission = Submission(id: Id, code: string)

  /** Redis, the session objects, each worker's registry of them, the time, and the accepted
      submissions so far. */
  datatype State = State(
    redis: map<Id, Payload>,
    sessions: map<SessionId, Session>,
    registry: map<(Worker, Id), SessionId>,
    now: int,
    accepted: seq<Submission>)

  datatype Step =
    | Create(worker: Worker, id: Id, sid: SessionId, ttl: int)
    | Submit(worker: Worker, id: Id, code: string)
    | StartWait(sid: SessionId)
    | Wake(sid: SessionId)
    | Remove(worker: Worker, id: Id)
    | CleanUp(worker: Worker, id: Id)
    | Pass(to: int)

  predicate Expired(createdAt: int, ttl: int, now: int) { now - createdAt > ttl }

  /** `redis.get` finds the key. */
  predicate Live(s: State, id: Id) { id in s.redis && s.now < s.redis[id].until }

  predicate Registered(s: State, w: Worker, id: Id) { (w, id) in s.registry && s.registry[(w, id)] in s.sessions }

  function Local(s: State, w: Worker, id: Id): Session
    requires Registered(s, w, id)
  {
    s.sessions[s.registry[(w, id)]]
  }

  /** `_remaining_ttl`, in whole seconds and at least one; as a time span. */
  function RemainingTtl(p: Payload, now: int): int {
    var remaining := p.ttl - (now - p.createdAt);
    if remaining <= 0 then 1000 else Max(1, remaining / 1000) * 1000
  }

  function Removed(s: State, w: Worker, id: Id): State {
    s.(registry := s.registry - {(w, id)}, redis := s.redis - {id})
  }

  // --------------------------------------------------------------------------------- steps

  /** `submit_code` finds the session and neither the payload nor the object it has at hand
      is past its time to live. */
  predicate Accepts(s: State, w: Worker, id: Id) {
    && (Live(s, id) || Registered(s, w, id))
    && (Live(s, id) ==> !Expired(s.redis[id].createdAt, s.redis[id].ttl, s.now))
    && (Registered(s, w, id) ==> !Expired(Local(s, w, id).createdAt, Local(s, w, id).ttl, s.now))
  }

  function Submitted(s: State, w: Worker, id: Id, code: string): State {
    if !Live(s, id) && !Registered(s, w, id) then s
    else if !Accepts(s, w, id) then Removed(s, w, id)
    else
      var redis :=
        if Live(s, id) then s.redis[id := s.redis[id].(code := code, until := s.now + RemainingTtl(s.redis[id], s.now))]
        else s.redis;
      var sessions :=
        if Registered(s, w, id) then s.sessions[s.registry[(w, id)] := Local(s, w, id).(code := code)] else s.sessions;
      s.(redis := redis, sessions := sessions, accepted := s.accepted + [Submission(id, code)])
  }

  /** An object whose last wait has ended can be waited on again. */
  function Rested(x: Session): Session { if x.wait.Waiting? then x else x.(wait := Idle) }

  /** `create_session`: what `get_session` finds is resumed under `sid`, an object of the
      registry under its own number; otherwise the session is new. */
  function Created(s: State, w: Worker, id: Id, sid: SessionId, ttl: int): State {
    var known := Registered(s, w, id) && !Expired(Local(s, w, id).createdAt, Local(s, w, id).ttl, s.now);
    var stored := Live(s, id) && !Expired(s.redis[id].createdAt, s.redis[id].ttl, s.now);
    var kept :=
      if known then Rested(Local(s, w, id))
      else if stored then Session(id, s.redis[id].createdAt, s.redis[id].ttl, s.redis[id].code, Idle)
      else Session(id, s.now, ttl, "", Idle);
    var number := if known then s.registry[(w, id)] else sid;
    s.(sessions := s.sessions[number := kept],
       registry := s.registry[(w, id) := number],
       redis := s.redis[id := Payload(kept.createdAt, kept.ttl, kept.code, s.now + kept.ttl)])
  }

  /** `_fetch_submitted_code` on Redis; "" is none. */
  function Fetched(s: State, id: Id): string {
    if Live(s, id) && !Expired(s.redis[id].createdAt, s.redis[id].ttl, s.now) then s.redis[id].code else ""
  }

  /** A fetch deletes a payload that is past its time to live. */
  function AfterFetch(s: State, id: Id): map<Id, Payload> {
    if Live(s, id) && Expired(s.redis[id].createdAt, s.redis[id].ttl, s.now) then s.redis - {id} else s.redis
  }

  /** The top of the loop of `wait_for_code`. */
  function Looped(x: Session, deadline: int, now: int): Session {
    if x.code != "" then x.(wait := Returned(x.code))
    else if deadline - now <= 0 then x.(wait := TimedOut)
    else x.(wait := Waiting(deadline, now + Min(POLL, deadline - now)))
  }

  /** The end of a wait: a code set by a local submission is returned; otherwise `found` is
      what the fetch finds, and without a code the loop goes on. */
  function WokenSession(x: Session, found: string, now: int): Session
    requires x.wait.Waiting?
  {
    if x.code != "" then x.(wait := Returned(x.code))
    else if found != "" then x.(code := found, wait := Returned(found))
    else Looped(x, x.wait.deadline, now)
  }

  function Woken(s: State, sid: SessionId): State
    requires sid in s.sessions && s.sessions[sid].wait.Waiting?
  {
    var x := s.sessions[sid];
    s.(sessions := s.sessions[sid := WokenSession(x, Fetched(s, x.id), s.now)],
       redis := if x.code != "" then s.redis else AfterFetch(s, x.id))
  }

  /** Waits end on time: the clock does not pass a waiter whose wait is over. */
  predicate OnTime(x: Session, to: int) {
    x.wait.Waiting? ==> to <= x.wait.wakeAt && x.code == ""
  }

  predicate Enabled(s: State, step: Step) {
    match step
    case Create(_, _, sid, _) => sid !in s.sessions
    case Submit(_, _, _) => true
    case StartWait(sid) => sid in s.sessions && s.sessions[sid].wait.Idle?
    case Wake(sid) =>
      && sid in s.sessions && s.sessions[sid].wait.Waiting?
      && (s.now >= s.sessions[sid].wait.wakeAt || s.sessions[sid].code != "")
    case Remove(_, _) => true
    case CleanUp(w, id) => Registered(s, w, id) && Expired(Local(s, w, id).createdAt, Local(s, w, id).ttl, s.now)
    case Pass(to) => to > s.now && forall sid | sid in s.sessions :: OnTime(s.sessions[sid], to)
  }

  function Next(s: State, step: Step): State
    requires Enabled(s, step)
  {
    match step
    case Create(w, id, sid, ttl) => Created(s, w, id, sid, ttl)
    case Submit(w, id, code) => Submitted(s, w, id, code)
    case StartWait(sid) => s.(sessions :=
        s.sessions[sid := Looped(s.sessions[sid], s.now + s.sessions[sid].ttl, s.now)])
    case Wake(sid) => Woken(s, sid)
    case Remove(w, id) => Removed(s, w, id)
    case CleanUp(w, id) => s.(registry := s.registry - {(w, id)})
    case Pass(to) => s.(now := to)
  }

  ghost predicate Run(s: State, steps: seq<Step>, t: State)
    decreases |steps|
  {
    if steps == [] then s == t
    else Enabled(s, steps[0]) && Run(Next(s, steps[0]), steps[1..], t)
  }

  function Init(): State { State(map[], map[], map[], 0, []) }

  // ------------------------------------------------------------- only submitted codes arrive

  predicate WasAccepted(log: seq<Submission>, id: Id, code: string) {
    code == "" || Submission(id, code) in log
  }

  ghost predicate Inv(s: State) {
    && (forall id | id in s.redis :: WasAccepted(s.accepted, id, s.redis[id].code))
    && (forall sid | sid in s.sessions :: SessionSound(s, s.sessions[sid]))
    && RegistrySound(s)
  }

  ghost predicate RegistrySound(s: State) {
    forall k | k in s.registry :: s.registry[k] in s.sessions && s.sessions[s.registry[k]].id == k.1
  }

  predicate SessionSound(s: State, x: Session) {
    && WasAccepted(s.accepted, x.id, x.code)
    && (x.wait.Returned? ==> Submission(x.id, x.wait.code) in s.accepted)
    && (x.wait.Waiting? ==> s.now <= x.wait.wakeAt <= Min(x.wait.deadline, s.now + POLL))
  }

  lemma InvSubmit(s: State, w: Worker, id: Id, code: string)
    requires Inv(s)
    ensures Inv(Submitted(s, w, id, code)) && s.accepted <= Submitted(s, w, id, code).accepted
  {
    hide Max, Min, RemainingTtl, Expired;
  }

  lemma InvCreate(s: State, w: Worker, id: Id, sid: SessionId, ttl: int)
    requires Inv(s) && sid !in s.sessions
    ensures Inv(Created(s, w, id, sid, ttl)) && s.accepted <= Created(s, w, id, sid, ttl).accepted
  {
    hide Max, Min, Expired;
  }

  lemma InvWake(s: State, sid: SessionId)
    requires Inv(s) && sid in s.sessions && s.sessions[sid].wait.Waiting?
    ensures Inv(Woken(s, sid)) && Woken(s, sid).accepted == s.accepted
  {
    hide Expired;
  }

  lemma InvStep(s: State, step: Step)
    requires Inv(s) && Enabled(s, step)
    ensures Inv(Next(s, step)) && s.accepted <= Next(s, step).accepted
  {
    hide Submitted, Created, Woken, Expired;
    match step
    case Create(w, id, sid, ttl) => InvCreate(s, w, id, sid, ttl);
    case Submit(w, id, code) => InvSubmit(s, w, id, code);
    case Wake(sid) => InvWake(s, sid);
    case _ =>
  }

  lemma {:induction false} InvRun(s: State, steps: seq<Step>, t: State)
    requires Inv(s) && Run(s, steps, t)
    ensures Inv(t)
    decreases |steps|
  {
    hide Inv, Next;
    if steps != [] {
      InvStep(s, steps[0]);
      InvRun(Next(s, steps[0]), steps[1..], t);
    }
  }

  /** On every run, whatever is created, resumed, removed or submitted on any worker: a
      waiter returns only a code that was accepted for its own session id. */
  lemma OnlySubmittedCodes(steps: seq<Step>, s: State, sid: SessionId)
    requires Run(Init(), steps, s) && sid in s.sessions && s.sessions[sid].wait.Returned?
    ensures Submission(s.sessions[sid].id, s.sessions[sid].wait.code) in s.accepted
  {
    InvRun(Init(), steps, s);
  }

  // ------------------------------------------------------------------- codes arrive in time

  /** A step that leaves the session in place: nobody removes or re-creates it, and codes
      submitted for it are accepted and not empty. */
  predicate Quiet(s: State, step: Step, id: Id) {
    match step
    case Create(_, x, _, _) => x != id
    case Remove(_, x) => x != id
    case Submit(w, x, code) => x == id ==> Accepts(s, w, x) && code != ""
    case _ => true
  }

  ghost predicate QuietRun(s: State, steps: seq<Step>, t: State, id: Id)
    decreases |steps|
  {
    if steps == [] then s == t
    else Enabled(s, steps[0]) && Quiet(s, steps[0], id) && QuietRun(Next(s, steps[0]), steps[1..], t, id)
  }

  /** The code of one of the submissions for the id from the n-th on. */
  predicate Since(s: State, n: nat, id: Id, code: string) {
    n <= |s.accepted| && Submission(id, code) in s.accepted[n..] && code != ""
  }

  /** The code is in Redis until after `due`, and the waiter wakes up by then; or it has
      returned a code submitted since the n-th. */
  ghost predicate Arriving(s: State, sid: SessionId, id: Id, n: nat, due: int) {
    && sid in s.sessions && s.sessions[sid].id == id
    && match s.sessions[sid].wait
       case Returned(code) => Since(s, n, id, code)
       case Waiting(_, wakeAt) => wakeAt == due && Stored(s, sid, id, n, due)
       case _ => false
  }

  predicate Stored(s: State, sid: SessionId, id: Id, n: nat, due: int)
    requires sid in s.sessions
  {
    && due - POLL <= s.now <= due && n <= |s.accepted|
    && (s.sessions[sid].code == "" || Since(s, n, id, s.sessions[sid].code))
    && id in s.redis && Since(s, n, id, s.redis[id].code)
    && s.redis[id].until > due
    && due <= s.redis[id].createdAt + s.redis[id].ttl
  }

  lemma SinceGrows(s: State, t: State, n: nat, id: Id, code: string)
    requires Since(s, n, id, code) && s.accepted <= t.accepted
    ensures Since(t, n, id, code)
  {
    assert s.accepted[n..] <= t.accepted[n..];
  }

  lemma AcceptedGrows(s: State, step: Step)
    requires Enabled(s, step)
    ensures s.accepted <= Next(s, step).accepted
  {}

  lemma JustSubmitted(s: State, w: Worker, id: Id, code: string, n: nat)
    requires Accepts(s, w, id) && code != "" && n <= |s.accepted|
    ensures Since(Submitted(s, w, id, code), n, id, code)
  {
    var t := Submitted(s, w, id, code);
    assert t.accepted[n..] == s.accepted[n..] + [Submission(id, code)];
  }

  lemma ArrivingSubmit(s: State, w: Worker, x: Id, code: string, sid: SessionId, id: Id, n: nat, due: int)
    requires Arriving(s, sid, id, n, due) && RegistrySound(s) && s.sessions[sid].wait.Waiting?
    requires x == id ==> Accepts(s, w, x) && code != ""
    ensures Arriving(Submitted(s, w, x, code), sid, id, n, due)
  {
    var t := Submitted(s, w, x, code);
    AcceptedGrows(s, Submit(w, x, code));
    if s.sessions[sid].code != "" { SinceGrows(s, t, n, id, s.sessions[sid].code); }
    SinceGrows(s, t, n, id, s.redis[id].code);
    if x == id {
      JustSubmitted(s, w, id, code, n);
    }
    hide Since, Expired;
  }

  lemma ArrivingStep(s: State, step: Step, sid: SessionId, id: Id, n: nat, due: int)
    requires Arriving(s, sid, id, n, due) && RegistrySound(s) && Enabled(s, step) && Quiet(s, step, id)
    ensures Arriving(Next(s, step), sid, id, n, due)
  {
    AcceptedGrows(s, step);
    var x, t := s.sessions[sid], Next(s, step);
    if x.wait.Returned? {
      SinceGrows(s, t, n, id, x.wait.code);
    } else if step.Submit? {
      ArrivingSubmit(s, step.worker, step.id, step.code, sid, id, n, due);
    } else {
      if x.code != "" { SinceGrows(s, t, n, id, x.code); }
      SinceGrows(s, t, n, id, s.redis[id].code);
    }
    hide Since, Submitted;
  }

  lemma {:induction false} ArrivingRun(s: State, steps: seq<Step>, t: State, sid: SessionId, id: Id, n: nat, due: int)
    requires Arriving(s, sid, id, n, due) && Inv(s) && QuietRun(s, steps, t, id)
    ensures Arriving(t, sid, id, n, due)
    decreases |steps|
  {
    if steps != [] {
      hide Next, Arriving, SessionSound, RegistrySound;
      InvStep(s, steps[0]);
      ArrivingStep(s, steps[0], sid, id, n, due);
      ArrivingRun(Next(s, steps[0]), steps[1..], t, sid, id, n, due);
    }
  }

  lemma StartsArriving(s: State, w: Worker, id: Id, code: string, sid: SessionId)
    requires RegistrySound(s) && Live(s, id) && Accepts(s, w, id) && code != ""
    requires sid in s.sessions && s.sessions[sid].id == id && s.sessions[sid].wait.Waiting?
    requires s.sessions[sid].code == ""
    requires s.now <= s.sessions[sid].wait.wakeAt <= Min(s.now + POLL, s.redis[id].createdAt + s.redis[id].ttl)
    ensures Arriving(Submitted(s, w, id, code), sid, id, |s.accepted|, s.sessions[sid].wait.wakeAt)
  {
    JustSubmitted(s, w, id, code, |s.accepted|);
    hide Since, Expired;
  }

  /** A code accepted on any worker while a payload is stored reaches a waiter of the session
      on any worker: once the waiter's current wait is over, which is at most one poll
      interval later and not after its deadline, it has returned that code or a later one.
      The wait must end within the session's time to live, and the session must stay. */
  lemma CodeArrives(before: seq<Step>, s: State, w: Worker, id: Id, code: string, sid: SessionId, after: seq<Step>,
      t: State)
    requires Run(Init(), before, s)
    requires Live(s, id) && Accepts(s, w, id) && code != ""
    requires sid in s.sessions && s.sessions[sid].id == id && s.sessions[sid].wait.Waiting?
    requires s.sessions[sid].code == ""
    requires s.sessions[sid].wait.wakeAt <= s.redis[id].createdAt + s.redis[id].ttl
    requires QuietRun(Next(s, Submit(w, id, code)), after, t, id)
    requires t.now > s.sessions[sid].wait.wakeAt
    ensures s.sessions[sid].wait.wakeAt <= Min(s.sessions[sid].wait.deadline, s.now + POLL)
    ensures sid in t.sessions && t.sessions[sid].wait.Returned?
    ensures Since(t, |s.accepted|, id, t.sessions[sid].wait.code)
  {
    InvRun(Init(), before, s);
    var due := s.sessions[sid].wait.wakeAt;
    var s1 := Next(s, Submit(w, id, code));
    InvStep(s, Submit(w, id, code));
    StartsArriving(s, w, id, code, sid);
    hide Next, Submitted, Inv, SessionSound;
    ArrivingRun(s1, after, t, sid, id, |s.accepted|, due);
  }

  /** The proviso that submissions are accepted cannot be dropped. While a session's payload
      is stored and within its time to live, a submission on a worker removes the payload
      exactly when it is not accepted, which is exactly when that worker still registers an
      object of an earlier session with the same id, past its time to live. */
  lemma StaleObjectDropsSession(s: State, w: Worker, id: Id, code: string)
    requires Live(s, id) && !Expired(s.redis[id].createdAt, s.redis[id].ttl, s.now)
    ensures var t := Next(s, Submit(w, id, code));
            && (id !in t.redis <==> !Accepts(s, w, id))
            && (!Accepts(s, w, id) ==> t.accepted == s.accepted && Fetched(t, id) == "")
    ensures !Accepts(s, w, id)
       <==> Registered(s, w, id) && Expired(Local(s, w, id).createdAt, Local(s, w, id).ttl, s.now)
  {}

  lemma {:induction false} RunSnoc(s: State, steps: seq<Step>, t: State, x: Step)
    requires Run(s, steps, t) && Enabled(t, x)
    ensures Run(s, steps + [x], Next(t, x))
    decreases |steps|
  {
    hide Next;
    if steps == [] {
      assert [] + [x] == [x] && [x][1..] == [];
    } else {
      assert (steps + [x])[1..] == steps[1..] + [x];
      RunSnoc(Next(s, steps[0]), steps[1..], t, x);
    }
  }

  /** Such a state is reached: a session of worker 1 expires, and before that worker cleans
      up, worker 2 starts a session under the same id and waits. Worker 1 still answers a
      submission by dropping the session, and the waiter finds nothing. */
  lemma StaleObjectReached(id: Id, code: string) returns (steps: seq<Step>, s: State)
    ensures Run(Init(), steps, s)
    ensures Live(s, id) && !Expired(s.redis[id].createdAt, s.redis[id].ttl, s.now) && !Accepts(s, 1, id)
    ensures 1 in s.sessions && s.sessions[1].id == id && s.sessions[1].wait.Waiting?
    ensures Fetched(Next(s, Submit(1, id, code)), id) == ""
  {
    hide Run;
    assert Run(Init(), [], Init()) by { NoSteps(Init()); }
    RunSnoc(Init(), [], Init(), Create(1, id, 0, 1000));
    var s1 := Next(Init(), Create(1, id, 0, 1000));
    assert s1.sessions == map[0 := Session(id, 0, 1000, "", Idle)];
    RunSnoc(Init(), [] + [Create(1, id, 0, 1000)], s1, Pass(1001));
    steps, s := ThenCreated([] + [Create(1, id, 0, 1000)] + [Pass(1001)], Next(s1, Pass(1001)), id);
    StaleObjectDropsSession(s, 1, id, code);
  }

  lemma NoSteps(s: State)
    ensures Run(s, [], s)
  {}

  lemma ThenCreated(before: seq<Step>, s: State, id: Id) returns (steps: seq<Step>, t: State)
    requires Run(Init(), before, s) && s.now == 1001 && s.registry == map[(1, id) := 0]
    requires s.sessions == map[0 := Session(id, 0, 1000, "", Idle)] && !Live(s, id)
    ensures Run(Init(), steps, t)
    ensures Live(t, id) && !Expired(t.redis[id].createdAt, t.redis[id].ttl, t.now) && !Accepts(t, 1, id)
    ensures 1 in t.sessions && t.sessions[1].id == id && t.sessions[1].wait.Waiting?
  {
    hide Run;
    RunSnoc(Init(), before, s, Create(2, id, 1, 300000));
    var s1 := Next(s, Create(2, id, 1, 300000));
    assert s1.sessions[1] == Session(id, 1001, 300000, "", Idle);
    RunSnoc(Init(), before + [Create(2, id, 1, 300000)], s1, StartWait(1));
    steps, t := before + [Create(2, id, 1, 300000)] + [StartWait(1)], Next(s1, StartWait(1));
  }

  // ------------------------------------------------------- submitting, waking and time

  /** What a submission does: if nothing is known of the session, nothing; if what is known is
      past its time to live, both records of it go; otherwise the code is put into the stored
      payload and into this worker's object, as far as they exist, and is accepted. */
  lemma SubmittedIs(s: State, w: Worker, id: Id, code: string)
    ensures var t := Next(s, Submit(w, id, code));
            && t.now == s.now
            && (forall i | i != id :: (i in t.redis <==> i in s.redis) && (i in t.redis ==> t.redis[i] == s.redis[i]))
            && if !Live(s, id) && !Registered(s, w, id) then t == s
               else if !Accepts(s, w, id) then
                 && t.redis == s.redis - {id} && t.registry == s.registry - {(w, id)}
                 && t.sessions == s.sessions && t.accepted == s.accepted
               else
                 && t.accepted == s.accepted + [Submission(id, code)] && t.registry == s.registry
                 && (Live(s, id) ==>
                       Live(t, id) && t.redis[id] == s.redis[id].(code := code, until := t.redis[id].until))
                 && (Registered(s, w, id) ==> Local(t, w, id) == Local(s, w, id).(code := code))
                 && forall sid | sid in s.sessions && !(Registered(s, w, id) && sid == s.registry[(w, id)]) ::
                      sid in t.sessions && t.sessions[sid] == s.sessions[sid]
  {
    if Live(s, id) {
      RemainingTtlIs(s.redis[id], s.now);
    }
    hide RemainingTtl;
  }

  /** Time never gets stuck: in every reachable state it can pass, or a wait is over. */
  lemma TimePasses(steps: seq<Step>, s: State)
    requires Run(Init(), steps, s)
    ensures Enabled(s, Pass(s.now + 1)) || exists sid :: Enabled(s, Wake(sid))
  {
    hide Run;
    InvRun(Init(), steps, s);
    if !exists sid :: Enabled(s, Wake(sid)) {
      forall sid | sid in s.sessions ensures OnTime(s.sessions[sid], s.now + 1) {
        assert SessionSound(s, s.sessions[sid]) && !Enabled(s, Wake(sid));
      }
    }
  }

  // ------------------------------------------------------------------------------ resuming

  /** The lifetime that a submission leaves a payload: what remains of it in whole seconds,
      and a second at least. */
  lemma RemainingTtlIs(p: Payload, now: int)
    ensures var r, remaining := RemainingTtl(p, now), p.createdAt + p.ttl - now;
            r % 1000 == 0 && if remaining < 1000 then r == 1000 else remaining - 1000 < r <= remaining
  {}

  /** The worker has an object for the id that is within its time to live. */
  predicate HasObject(s: State, w: Worker, id: Id) {
    && (w, id) in s.registry && s.registry[(w, id)] in s.sessions
    && s.now - s.sessions[s.registry[(w, id)]].createdAt <= s.sessions[s.registry[(w, id)]].ttl
  }

  predicate HasPayload(s: State, id: Id) {
    id in s.redis && s.now < s.redis[id].until && s.now - s.redis[id].createdAt <= s.redis[id].ttl
  }

  /** What a worker has after creating a session: its own object if it has one, else one with
      the code and the times of the stored payload, else an object of now without a code. In
      each case the stored payload becomes that of the object, and other sessions stay. */
  lemma CreatedIs(s: State, w: Worker, id: Id, sid: SessionId, ttl: int)
    requires sid !in s.sessions
    ensures var t := Next(s, Create(w, id, sid, ttl));
            && (w, id) in t.registry && t.registry[(w, id)] in t.sessions && id in t.redis
            && var x, p := t.sessions[t.registry[(w, id)]], t.redis[id];
               && p.code == x.code && p.createdAt == x.createdAt && p.ttl == x.ttl && p.until == s.now + x.ttl
               && (forall i | i != id ::
                     (i in t.redis <==> i in s.redis) && (i in t.redis ==> t.redis[i] == s.redis[i]))
               && (forall i | i in s.sessions && i != t.registry[(w, id)] ::
                     i in t.sessions && t.sessions[i] == s.sessions[i])
               && if HasObject(s, w, id) then
                    var y := s.sessions[s.registry[(w, id)]];
                    && t.registry == s.registry && x.code == y.code && x.createdAt == y.createdAt && x.ttl == y.ttl
                    && x.wait == (if y.wait.Waiting? then y.wait else Idle)
                  else
                    && t.registry[(w, id)] == sid && x.id == id && x.wait == Idle
                    && if HasPayload(s, id) then
                         var q := s.redis[id]; x.code == q.code && x.createdAt == q.createdAt && x.ttl == q.ttl
                       else x.code == "" && x.createdAt == s.now && x.ttl == ttl
  {}

  /** A session that is resumed on a worker without an object for it, after a code was
      accepted anywhere: waiting on it returns that code at once. */
  lemma ResumedAfterSubmit(s: State, w: Worker, id: Id, code: string, w': Worker, sid: SessionId, ttl: int)
    requires HasPayload(s, id) && Accepts(s, w, id) && code != ""
    requires sid !in s.sessions && !HasObject(s, w', id) && w' != w
    ensures var t := Next(Next(s, Submit(w, id, code)), Create(w', id, sid, ttl));
            && Enabled(t, StartWait(sid))
            && Next(t, StartWait(sid)).sessions[sid].wait == Returned(code)
  {
    RemainingTtlIs(s.redis[id], s.now);
    hide RemainingTtl;
  }

  /** On a worker with an object for the id it is that object that is resumed, and its code
      or lack of one replaces what is stored: a code accepted elsewhere stays for the fetches
      exactly if there is no such object, or it carries that code itself. */
  lemma ResumeKeepsCodeIff(s: State, id: Id, w: Worker, sid: SessionId, ttl: int)
    requires HasPayload(s, id) && s.redis[id].code != "" && s.redis[id].ttl > 0 && sid !in s.sessions
    requires HasObject(s, w, id) ==> s.sessions[s.registry[(w, id)]].ttl > 0
    ensures Fetched(Next(s, Create(w, id, sid, ttl)), id) == s.redis[id].code
       <==> !HasObject(s, w, id) || s.sessions[s.registry[(w, id)]].code == s.redis[id].code
  {}

  /** So a code gets lost on a run like this: worker 2 starts a session, the code is accepted
      on worker 1, and before it is fetched worker 2 resumes the session. */
  lemma ResumeLosesCode(id: Id, code: string) returns (steps: seq<Step>, s: State)
    requires code != ""
    ensures Run(Init(), steps, s)
    ensures steps == [] + [Create(2, id, 0, 1000)] + [Submit(1, id, code)] + [Create(2, id, 1, 1000)]
    ensures s.accepted == [Submission(id, code)] && s.now == 0
    ensures Fetched(s, id) == "" && s.sessions == map[0 := Session(id, 0, 1000, "", Idle)]
  {
    hide Run;
    NoSteps(Init());
    RunSnoc(Init(), [], Init(), Create(2, id, 0, 1000));
    var s1 := Next(Init(), Create(2, id, 0, 1000));
    assert s1.sessions == map[0 := Session(id, 0, 1000, "", Idle)];
    RunSnoc(Init(), [] + [Create(2, id, 0, 1000)], s1, Submit(1, id, code));
    var s2 := Next(s1, Submit(1, id, code));
    assert s2.sessions == s1.sessions && s2.registry == map[(2, id) := 0];
    RunSnoc(Init(), [] + [Create(2, id, 0, 1000)] + [Submit(1, id, code)], s2, Create(2, id, 1, 1000));
    s := Next(s2, Create(2, id, 1, 1000));
    steps := [] + [Create(2, id, 0, 1000)] + [Submit(1, id, code)] + [Create(2, id, 1, 1000)];
  }

  // ------------------------------------------------------------------------------ operations

  /** What ends a wait: a code submitted on this worker, or the clock and the fetch after it. */
  datatype WakeUp = Signalled(code: string, time: int) | Polled(found: string)

  /** The waiting object after it, and the time. */
  function Woke(x: Session, now: int, w: WakeUp): (Session, int)
    requires x.wait.Waiting?
  {
    match w
    case Polled(found) => (WokenSession(x, found, x.wait.wakeAt), x.wait.wakeAt)
    case Signalled(code, time) =>
      var at := Min(Max(time, now), x.wait.wakeAt);
      (WokenSession(x.(code := code), "", at), at)
  }

  function AfterWakes(x: Session, now: int, wakes: nat -> WakeUp, n: nat): (Session, int) {
    if n == 0 then (x, now)
    else
      var (y, t) := AfterWakes(x, now, wakes, n - 1);
      if y.wait.Waiting? then Woke(y, t, wakes(n - 1)) else (y, t)
  }

  /** These are the machine's steps: what a wake-up does to the waiting object, in any state
      in which one is enabled and time has not run past it. A fetch, made unless a code was
      set, deletes a payload past its time to live; nothing else in Redis changes. */
  lemma WakeIsWoke(s: State, sid: SessionId)
    requires Enabled(s, Wake(sid)) && s.now <= s.sessions[sid].wait.wakeAt
    ensures var x := s.sessions[sid];
            Next(s, Wake(sid)).sessions[sid]
            == if x.code == "" then Woke(x, s.now, Polled(Fetched(s, x.id))).0
               else Woke(x.(code := ""), s.now, Signalled(x.code, s.now)).0
    ensures var x := s.sessions[sid];
            Next(s, Wake(sid)).redis
            == if x.code == "" && x.id in s.redis && s.now < s.redis[x.id].until
                  && s.now - s.redis[x.id].createdAt > s.redis[x.id].ttl
               then s.redis - {x.id} else s.redis
  {}

  ghost predicate RealSignals(wakes: nat -> WakeUp) { forall k :: wakes(k).Signalled? ==> wakes(k).code != "" }

  function CodeOf(w: WakeUp): string { if w.Signalled? then w.code else w.found }

  /** `wait_for_code`, from the start of the wait to its end, whatever ends each pause: the
      object goes through the machine's transitions. It polls every interval and once more at
      the deadline, and returns the first code that a fetch or a local submission brings. */
  method WaitForCode(x: Session, now: int, wakes: nat -> WakeUp) returns (y: Session, at: int, n: nat)
    requires RealSignals(wakes)
    ensures (y, at) == AfterWakes(Looped(x, now + x.ttl, now), now, wakes, n)
    ensures y == x.(code := y.code, wait := y.wait) && (y.wait.Returned? ==> y.code == y.wait.code)
    ensures x.code != "" ==> n == 0 && y.wait == Returned(x.code)
    ensures x.code == "" && x.ttl <= 0 ==> n == 0 && y.wait == TimedOut
    ensures x.code == "" && x.ttl > 0 ==>
      && n > 0 && (forall k | 0 <= k < n - 1 :: wakes(k) == Polled(""))
      && y.wait == (if CodeOf(wakes(n - 1)) == "" then TimedOut else Returned(CodeOf(wakes(n - 1))))
      && now + (n - 1) * POLL <= at <= Min(now + n * POLL, now + x.ttl)
      && (wakes(n - 1).Polled? ==> at == Min(now + n * POLL, now + x.ttl))
      && (y.wait.TimedOut? ==> at == now + x.ttl)
  {
    n, at, y := 0, now, Looped(x, now + x.ttl, now);
    while y.wait.Waiting?
      invariant (y, at) == AfterWakes(Looped(x, now + x.ttl, now), now, wakes, n)
      invariant n == 0 ==> at == now && y == Looped(x, now + x.ttl, now)
      invariant y == x.(code := y.code, wait := y.wait) && (y.wait.Returned? ==> y.code == y.wait.code)
      invariant y.wait.Waiting? ==>
        && x.code == "" == y.code && x.ttl > 0 && at == now + n * POLL < now + x.ttl
        && y.wait == Wait.Waiting(now + x.ttl, at + Min(POLL, now + x.ttl - at))
        && (forall k | 0 <= k < n :: wakes(k) == Polled(""))
      invariant n > 0 && !y.wait.Waiting? ==>
        && x.code == "" && x.ttl > 0 && (forall k | 0 <= k < n - 1 :: wakes(k) == Polled(""))
        && y.wait == (if CodeOf(wakes(n - 1)) == "" then TimedOut else Returned(CodeOf(wakes(n - 1))))
        && now + (n - 1) * POLL <= at <= Min(now + n * POLL, now + x.ttl)
        && (wakes(n - 1).Polled? ==> at == Min(now + n * POLL, now + x.ttl))
        && (y.wait.TimedOut? ==> at == now + x.ttl)
      decreases y.wait.Waiting?, now + x.ttl - at
    {
      match wakes(n) {
        case Signalled(code, time) =>
          at := Min(Max(time, at), y.wait.wakeAt);
          y := y.(code := code, wait := Returned(code));
        case Polled(found) =>
          at := y.wait.wakeAt;
          if found != "" {
            y := y.(code := found, wait := Returned(found));
          } else {
            y := Looped(y, y.wait.deadline, at);
          }
      }
      n := n + 1;
    }
  }

  /** Redis and the workers' managers. A session number stands for a session object. */
  class Managers {
    var redis: map<Id, Payload>
    var sessions: map<SessionId, Session>
    var registry: map<(Worker, Id), SessionId>
    var now: int
    ghost var accepted: seq<Submission>

    ghost function Abs(): State
      reads this
    {
      State(redis, sessions, registry, now, accepted)
    }

    constructor ()
      ensures Abs() == Init()
    {
      redis, sessions, registry, now, accepted := map[], map[], map[], 0, [];
    }

    /** `submit_code` on one worker */
    method SubmitCode(w: Worker, id: Id, code: string) returns (ok: bool)
      modifies this
      ensures Abs() == Next(old(Abs()), Submit(w, id, code))
      ensures ok <==> Accepts(old(Abs()), w, id)
    {
      var payload := id in redis && now < redis[id].until;
      var local := (w, id) in registry && registry[(w, id)] in sessions;
      if !payload && !local {
        return false;
      }
      if payload && now - redis[id].createdAt > redis[id].ttl {
        RemoveSession(w, id);
        return false;
      }
      if local {
        var x := sessions[registry[(w, id)]];
        if now - x.createdAt > x.ttl {
          RemoveSession(w, id);
          return false;
        }
      }
      if payload {
        redis := redis[id := redis[id].(code := code, until := now + RemainingTtl(redis[id], now))];
      }
      if local {
        var sid := registry[(w, id)];
        sessions := sessions[sid := sessions[sid].(code := code)];
      }
      accepted := accepted + [Submission(id, code)];
      return true;
    }

    /** `remove_session` */
    method RemoveSession(w: Worker, id: Id)
      modifies this`redis, this`registry
      ensures Abs() == Next(old(Abs()), Remove(w, id))
      ensures registry == old(registry) - {(w, id)} && redis == old(redis) - {id} && sessions == old(sessions)
    {
      registry := registry - {(w, id)};
      redis := redis - {id};
    }

    /** `_fetch_submitted_code` */
    method FetchSubmittedCode(id: Id) returns (code: string)
      modifies this`redis
      ensures code == Fetched(old(Abs()), id) && redis == AfterFetch(old(Abs()), id)
    {
      if id !in redis || now >= redis[id].until {
        return "";
      }
      if now - redis[id].createdAt > redis[id].ttl {
        redis := redis - {id};
        return "";
      }
      return redis[id].code;
    }

    /** `create_session`; `sid` is the number of the object it would allocate. */
    method CreateSession(w: Worker, id: Id, sid: SessionId, ttl: int) returns (number: SessionId)
      requires sid !in sessions
      modifies this
      ensures Abs() == Next(old(Abs()), Create(w, id, sid, ttl)) && registry[(w, id)] == number
    {
      var x;
      if (w, id) in registry && registry[(w, id)] in sessions
         && now - sessions[registry[(w, id)]].createdAt <= sessions[registry[(w, id)]].ttl {
        number := registry[(w, id)];
        x := Rested(sessions[number]);
      } else if id in redis && now < redis[id].until && now - redis[id].createdAt <= redis[id].ttl {
        number, x := sid, Session(id, redis[id].createdAt, redis[id].ttl, redis[id].code, Idle);
      } else {
        number, x := sid, Session(id, now, ttl, "", Idle);
      }
      sessions := sessions[number := x];
      registry := registry[(w, id) := number];
      redis := redis[id := Payload(x.createdAt, x.ttl, x.code, now + x.ttl)];
    }
  }
}
