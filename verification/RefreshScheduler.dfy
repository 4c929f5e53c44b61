/** Scheduled refreshes: schedules, back-off, disabling after repeated failures, and the
    database rows the jobs are restored from. */
module RefreshScheduler {
  import opened Text
  import opened Arithmetic

  const MAX_FAILURES := 10
  const INTERVAL := "interval"
  const HOURLY := "hourly"
  const DAILY := "daily"
  const WEEKLY := "weekly"

  type Token = string

  /** A `datetime`: with a time zone, as `datetime.now(timezone.utc)` makes it, or without
      one, as a plain DateTime column gives it back. The two cannot be subtracted. */
  datatype Stamp = Aware(time: int) | Naive(time: int)

  datatype Job = Job(
    userId: nat,
    interval: int,
    format: string,
    lastRefreshed: Option<Stamp>,
    lastError: Option<string>,
    failures: nat,
    enabled: bool)

  datatype Config = Config(defaultInterval: int, maxBackoff: int)

  // ------------------------------------------------------------------------------ schedules

  function Preset(format: string): Option<int> {
    if format == HOURLY then Some(3600)
    else if format == DAILY then Some(86400)
    else if format == WEEKLY then Some(604800)
    else None
  }

  /** `resolve_schedule`; None stands for `ValueError`. */
  function ResolveSchedule(format: Option<string>, interval: Option<int>): Option<(string, int)> {
    var name := Lower(OrText(format, INTERVAL));
    if Preset(name).Some? then Some((name, Preset(name).value))
    else if name == INTERVAL && interval.Some? then Some((INTERVAL, interval.value))
    else None
  }

  /** Which schedules there are: a preset by its name in any letter case, with its own
      interval; no name, an empty one or "interval" with an interval given; and no others. */
  lemma SchedulesAre(format: Option<string>, interval: Option<int>)
    ensures var r := ResolveSchedule(format, interval);
            if format == None || format == Some("") || SameButCase(format.value, "interval") then
              r == if interval.Some? then Some(("interval", interval.value)) else None
            else if SameButCase(format.value, "hourly") then r == Some(("hourly", 60 * 60))
            else if SameButCase(format.value, "daily") then r == Some(("daily", 24 * 60 * 60))
            else if SameButCase(format.value, "weekly") then r == Some(("weekly", 7 * 24 * 60 * 60))
            else r == None
  {
    LowerCaseNames();
    if Given(format) {
      hide SameButCase, Lower;
      LowerIff(format.value, "interval");
      LowerIff(format.value, "hourly");
      LowerIff(format.value, "daily");
      LowerIff(format.value, "weekly");
    }
  }

  lemma LowerCaseNames()
    ensures Lower("interval") == "interval" && Lower("hourly") == "hourly"
    ensures Lower("daily") == "daily" && Lower("weekly") == "weekly"
  {
    hide Lower;
    LowerKeeps("interval");
    LowerKeeps("hourly");
    LowerKeeps("daily");
    LowerKeeps("weekly");
  }

  /** A known format, and for a preset its own interval. */
  predicate Canonical(j: Job) {
    if j.format == INTERVAL then true else Preset(j.format) == Some(j.interval)
  }

  // ------------------------------------------------------------------------------- back-off

  function EffectiveInterval(cfg: Config, interval: int, failures: nat): int {
    if failures == 0 then interval else Min(interval * Pow2(failures), cfg.maxBackoff)
  }

  ghost predicate NeverShrinks(cfg: Config, interval: int) {
    forall f: nat, g: nat | f <= g :: EffectiveInterval(cfg, interval, f) <= EffectiveInterval(cfg, interval, g)
  }

  lemma ScaleGrows(interval: int, a: int, b: int)
    requires interval >= 0 && a <= b
    ensures interval * a <= interval * b
  {}

  /** The effective interval is the plain one without failures, twice that after the first,
      and doubles with every further one, up to the cap. */
  lemma IntervalsDouble(cfg: Config, interval: int, failures: nat)
    requires cfg.maxBackoff >= 0
    ensures EffectiveInterval(cfg, interval, 0) == interval
    ensures EffectiveInterval(cfg, interval, 1)
         == if 2 * interval < cfg.maxBackoff then 2 * interval else cfg.maxBackoff
    ensures failures >= 1 ==>
              var e := EffectiveInterval(cfg, interval, failures);
              EffectiveInterval(cfg, interval, failures + 1) == if 2 * e < cfg.maxBackoff then 2 * e else cfg.maxBackoff
  {
    var x := interval * Pow2(failures);
    assert Pow2(0) == 1 && Pow2(1) == 2 && Pow2(failures + 1) == 2 * Pow2(failures);
    assert interval * (2 * Pow2(failures)) == 2 * x;
    assert interval >= 0 ==> x >= 0 by {
      if interval >= 0 {
        ScaleGrows(interval, 0, Pow2(failures));
      }
    }
  }

  /** Failing never makes a job run sooner exactly when its interval is at most the cap. The
      weekly preset with the default cap of a day is outside. */
  lemma BackoffNeverShrinksIff(cfg: Config, interval: int)
    requires interval > 0 && cfg.maxBackoff >= 0
    ensures NeverShrinks(cfg, interval) <==> interval <= cfg.maxBackoff
    ensures !NeverShrinks(Config(3600, 86400), Preset(WEEKLY).value)
  {
    assert EffectiveInterval(cfg, interval, 1) <= cfg.maxBackoff;
    assert NeverShrinks(cfg, interval) ==> EffectiveInterval(cfg, interval, 0) <= EffectiveInterval(cfg, interval, 1);
    var weekly := Config(3600, 86400);
    assert EffectiveInterval(weekly, 604800, 1) < EffectiveInterval(weekly, 604800, 0);
    if interval <= cfg.maxBackoff {
      forall f: nat, g: nat | f <= g
        ensures EffectiveInterval(cfg, interval, f) <= EffectiveInterval(cfg, interval, g)
      {
        Pow2Grows(f, g);
        ScaleGrows(interval, Pow2(f), Pow2(g));
        ScaleGrows(interval, 1, Pow2(g));
      }
    }
  }

  /** `_is_due` does not raise on the job. */
  predicate Comparable(j: Job) { j.lastRefreshed.Some? ==> j.lastRefreshed.value.Aware? }

  predicate Due(cfg: Config, j: Job, now: int) {
    j.lastRefreshed.Some? ==> now - j.lastRefreshed.value.time >= EffectiveInterval(cfg, j.interval, j.failures)
  }

  // --------------------------------------------------------------------------- the scheduler

  /** The registry, the database rows, the jobs whose fetch is running and those that have
      its result but have not yet been persisted, and the time of the last event. */
  datatype State = State(
    jobs: map<Token, Job>,
    rows: map<Token, Job>,
    fetching: set<Token>,
    finishing: set<Token>,
    clock: int)

  datatype Step =
    | Schedule(token: Token, userId: nat, interval: Option<int>, format: Option<string>)
    | Update(token: Token, interval: Option<int>, format: Option<string>, enabled: Option<bool>)
    | Unschedule(token: Token)
    | Tick(now: int)
    | Fetched(token: Token, now: int)
    | FetchFailed(token: Token, error: string, now: int)
    | Persisted(token: Token)
    | Restart

  function Init(): State { State(map[], map[], {}, {}, 0) }

  /** A tick starts every due job and the next waits for all of them. Unscheduling a job
      while it is executing is left out. */
  predicate Enabled(s: State, step: Step) {
    match step
    case Schedule(_, _, _, _) => true
    case Update(_, _, _, _) => true
    case Unschedule(t) => t !in s.fetching && t !in s.finishing
    case Tick(now) => s.fetching == {} && s.finishing == {} && now >= s.clock
    case Fetched(t, now) => t in s.fetching && t in s.jobs && now >= s.clock
    case FetchFailed(t, _, now) => t in s.fetching && t in s.jobs && now >= s.clock
    case Persisted(t) => (t in s.fetching || t in s.finishing) && t in s.jobs
    case Restart => true
  }

  /** A job as its row holds it. */
  function AsRow(j: Job): Job {
    if j.lastRefreshed.None? then j else j.(lastRefreshed := Some(Naive(j.lastRefreshed.value.time)))
  }

  /** `_persist_job`: an existing row keeps its user. */
  function Persist(rows: map<Token, Job>, t: Token, j: Job): map<Token, Job> {
    rows[t := AsRow(if t in rows then j.(userId := rows[t].userId) else j)]
  }

  function Put(s: State, t: Token, j: Job): State {
    s.(jobs := s.jobs[t := j], rows := Persist(s.rows, t, j))
  }

  function Scheduled(cfg: Config, s: State, step: Step): State
    requires step.Schedule?
  {
    match ResolveSchedule(step.format, Some(OrNumber(step.interval, cfg.defaultInterval)))
    case None => s
    case Some((format, interval)) =>
      var j := if step.token in s.jobs
               then s.jobs[step.token].(interval := interval, format := format, enabled := true, failures := 0)
               else Job(step.userId, interval, format, None, None, 0, true);
      Put(s, step.token, j)
  }

  function Toggled(j: Job, enabled: Option<bool>): Job {
    if enabled.None? then j
    else j.(enabled := enabled.value, failures := if enabled.value then 0 else j.failures)
  }

  /** An update of the job is not refused. */
  predicate UpdateResolves(j: Job, interval: Option<int>, format: Option<string>) {
    || (format.None? && interval.None?)
    || ResolveSchedule(Some(OrText(format, j.format)), Some(OrNumber(interval, j.interval))).Some?
  }

  function Updated(s: State, step: Step): State
    requires step.Update?
  {
    if step.token !in s.jobs then s
    else
      var j := s.jobs[step.token];
      if step.format.None? && step.interval.None? then Put(s, step.token, Toggled(j, step.enabled))
      else
        match ResolveSchedule(Some(OrText(step.format, j.format)), Some(OrNumber(step.interval, j.interval)))
        case None => s
        case Some((format, interval)) =>
          Put(s, step.token, Toggled(j.(format := format, interval := interval), step.enabled))
  }

  function Succeeded(j: Job, now: int): Job {
    j.(lastRefreshed := Some(Aware(now)), lastError := None, failures := 0)
  }

  function Failed(j: Job, error: string, now: int): Job {
    j.(failures := j.failures + 1, lastError := Some(error), lastRefreshed := Some(Aware(now)),
       enabled := j.enabled && j.failures + 1 < MAX_FAILURES)
  }

  function EnabledJobs(jobs: map<Token, Job>): map<Token, Job> {
    map t | t in jobs && jobs[t].enabled :: jobs[t]
  }

  function DueTokens(cfg: Config, jobs: map<Token, Job>, now: int): set<Token> {
    set t | t in jobs && jobs[t].enabled && Due(cfg, jobs[t], now)
  }

  /** The due check of a pass raises: the whole pass is abandoned. */
  predicate Raises(jobs: map<Token, Job>) { exists t | t in jobs :: jobs[t].enabled && !Comparable(jobs[t]) }

  function Next(cfg: Config, s: State, step: Step): State
    requires Enabled(s, step)
  {
    match step
    case Schedule(_, _, _, _) => Scheduled(cfg, s, step)
    case Update(_, _, _, _) => Updated(s, step)
    case Unschedule(t) => s.(jobs := s.jobs - {t}, rows := if t in s.jobs then s.rows - {t} else s.rows)
    case Tick(now) => s.(fetching := if Raises(s.jobs) then {} else DueTokens(cfg, s.jobs, now), clock := now)
    case Fetched(t, now) =>
      s.(jobs := s.jobs[t := Succeeded(s.jobs[t], now)], fetching := s.fetching - {t}, finishing := s.finishing + {t},
          clock := now)
    case FetchFailed(t, error, now) =>
      s.(jobs := s.jobs[t := Failed(s.jobs[t], error, now)], fetching := s.fetching - {t},
          finishing := s.finishing + {t}, clock := now)
    case Persisted(t) =>
      s.(rows := Persist(s.rows, t, s.jobs[t]), fetching := s.fetching - {t}, finishing := s.finishing - {t})
    case Restart => s.(jobs := EnabledJobs(s.rows), fetching := {}, finishing := {})
  }

  ghost predicate Run(cfg: Config, s: State, steps: seq<Step>, t: State)
    decreases |steps|
  {
    if steps == [] then s == t
    else Enabled(s, steps[0]) && Run(cfg, Next(cfg, s, steps[0]), steps[1..], t)
  }

  predicate Sound(j: Job) { Canonical(j) && (j.enabled ==> j.failures < MAX_FAILURES) }

  /** The row is what the job persists as, up to its user. */
  predicate RowOf(row: Job, j: Job) { row == AsRow(j).(userId := row.userId) }

  /** Jobs and rows are sound; a job whose result is not waiting to be persisted agrees with
      its row, and a row without a job is a disabled one. */
  ghost predicate Inv(s: State) {
    && (forall t | t in s.jobs :: Sound(s.jobs[t]))
    && (forall t | t in s.rows :: Sound(s.rows[t]) && AsRow(s.rows[t]) == s.rows[t])
    && (forall t | t in s.jobs :: t in s.rows && (t in s.finishing || RowOf(s.rows[t], s.jobs[t])))
    && (forall t | t in s.rows && t !in s.jobs :: !s.rows[t].enabled)
    && s.fetching <= s.jobs.Keys && s.finishing <= s.jobs.Keys
  }

  /** A pass starts exactly the enabled jobs that were never refreshed, or not within their
      effective interval; or none, if an enabled job has a refresh time without time zone. */
  lemma TickStarts(cfg: Config, s: State, now: int, t: Token)
    requires Enabled(s, Tick(now))
    ensures t in Next(cfg, s, Tick(now)).fetching <==>
              && (forall u | u in s.jobs && s.jobs[u].enabled && s.jobs[u].lastRefreshed.Some? ::
                    s.jobs[u].lastRefreshed.value.Aware?)
              && t in s.jobs && s.jobs[t].enabled
              && (s.jobs[t].lastRefreshed.Some? ==>
                    now >= s.jobs[t].lastRefreshed.value.time
                        + EffectiveInterval(cfg, s.jobs[t].interval, s.jobs[t].failures))
  {
    hide EffectiveInterval;
  }

  /** The job that a new schedule makes, before its schedule is resolved. */
  function FreshJob(userId: nat): Job { Job(userId, 0, "", None, None, 0, true) }

  /** What a schedule asks for, where an interval of 0 counts as none; likewise an update,
      which falls back on the job. */
  function Wanted(cfg: Config, i: Job, step: Step): Option<(string, int)>
    requires step.Schedule? || step.Update?
  {
    var given := step.interval.Some? && step.interval.value != 0;
    if step.Schedule? then
      ResolveSchedule(step.format, Some(if given then step.interval.value else cfg.defaultInterval))
    else
      var named := step.format.Some? && step.format.value != "";
      ResolveSchedule(Some(if named then step.format.value else i.format),
                      Some(if given then step.interval.value else i.interval))
  }

  /** The job before and after an edit: a schedule enables it and clears its failures, an
      update does so only when asked to enable it; its user and history stay. */
  predicate Edited(cfg: Config, i: Job, j: Job, step: Step)
    requires step.Schedule? || step.Update?
  {
    var enabling := step.Schedule? || step.enabled == Some(true);
    && j.userId == i.userId && j.lastRefreshed == i.lastRefreshed && j.lastError == i.lastError
    && j.failures == (if enabling then 0 else i.failures)
    && j.enabled == (if enabling then true else if step.enabled == Some(false) then false else i.enabled)
    && if step.Update? && step.format.None? && step.interval.None? then j.format == i.format && j.interval == i.interval
       else Wanted(cfg, i, step) == Some((j.format, j.interval))
  }

  /** A schedule or an update edits the token's job or, if what it asks for does not resolve,
      leaves it; an update makes no job, and no edit touches another token's. */
  lemma EditsJob(cfg: Config, s: State, step: Step)
    requires step.Schedule? || step.Update?
    ensures var jobs, t := Next(cfg, s, step).jobs, step.token;
            && (forall u | u != t :: (u in jobs <==> u in s.jobs) && (u in jobs ==> jobs[u] == s.jobs[u]))
            && var i := if t in s.jobs then s.jobs[t] else FreshJob(if step.Schedule? then step.userId else 0);
               if step.Update? && (t !in s.jobs || !UpdateResolves(i, step.interval, step.format)) then jobs == s.jobs
               else if step.Schedule? && Wanted(cfg, i, step).None? then jobs == s.jobs
               else t in jobs && Edited(cfg, i, jobs[t], step)
  {
    hide ResolveSchedule;
  }

  lemma ResolvesCanonically(format: Option<string>, interval: Option<int>)
    ensures var r := ResolveSchedule(format, interval);
            r.Some? ==> r.value.0 == INTERVAL || Preset(r.value.0) == Some(r.value.1)
  {}

  lemma SoundRow(j: Job, userId: nat)
    requires Sound(j)
    ensures Sound(AsRow(j.(userId := userId))) && AsRow(AsRow(j.(userId := userId))) == AsRow(j.(userId := userId))
    ensures RowOf(AsRow(j.(userId := userId)), j)
  {}

  lemma InvPut(s: State, t: Token, j: Job)
    requires Inv(s) && Sound(j)
    ensures Inv(Put(s, t, j))
  {
    SoundRow(j, if t in s.rows then s.rows[t].userId else j.userId);
    hide Sound, AsRow;
  }

  lemma InvSchedule(cfg: Config, s: State, step: Step)
    requires Inv(s) && step.Schedule?
    ensures Inv(Scheduled(cfg, s, step))
  {
    hide Put, ResolveSchedule;
    var interval := Some(OrNumber(step.interval, cfg.defaultInterval));
    ResolvesCanonically(step.format, interval);
    match ResolveSchedule(step.format, interval)
    case None =>
    case Some((format, n)) =>
      var j := if step.token in s.jobs
               then s.jobs[step.token].(interval := n, format := format, enabled := true, failures := 0)
               else Job(step.userId, n, format, None, None, 0, true);
      InvPut(s, step.token, j);
  }

  lemma InvUpdate(cfg: Config, s: State, step: Step)
    requires Inv(s) && step.Update?
    ensures Inv(Updated(s, step))
  {
    hide Put, ResolveSchedule;
    if step.token in s.jobs {
      var j := s.jobs[step.token];
      if step.format.None? && step.interval.None? {
        InvPut(s, step.token, Toggled(j, step.enabled));
      } else {
        var name, n := Some(OrText(step.format, j.format)), Some(OrNumber(step.interval, j.interval));
        ResolvesCanonically(name, n);
        match ResolveSchedule(name, n)
        case None =>
        case Some((format, interval)) =>
          InvPut(s, step.token, Toggled(j.(format := format, interval := interval), step.enabled));
      }
    }
  }

  lemma InvStep(cfg: Config, s: State, step: Step)
    requires Inv(s) && Enabled(s, step)
    ensures Inv(Next(cfg, s, step))
  {
    hide Canonical, ResolveSchedule, Due, Scheduled, Updated;
    if step.Schedule? {
      InvSchedule(cfg, s, step);
    } else if step.Update? {
      InvUpdate(cfg, s, step);
    } else if step.Fetched? || step.FetchFailed? {
      assert Sound(s.jobs[step.token]);
      SoundAfter(s.jobs[step.token], step);
    } else if step.Persisted? {
      SoundRow(s.jobs[step.token], s.rows[step.token].userId);
    }
  }

  lemma SoundAfter(j: Job, step: Step)
    requires Sound(j)
    ensures step.Fetched? ==> Sound(Succeeded(j, step.now))
    ensures step.FetchFailed? ==> Sound(Failed(j, step.error, step.now))
  {}

  lemma {:induction false} InvRun(cfg: Config, s: State, steps: seq<Step>, t: State)
    requires Inv(s) && Run(cfg, s, steps, t)
    ensures Inv(t)
    decreases |steps|
  {
    hide Inv, Next;
    if steps != [] {
      InvStep(cfg, s, steps[0]);
      InvRun(cfg, Next(cfg, s, steps[0]), steps[1..], t);
    }
  }

  /** In every reachable state a job's format carries its own interval and an enabled job has
      failed fewer than ten times in a row. */
  lemma JobsStaySound(cfg: Config, steps: seq<Step>, s: State, t: Token)
    requires Run(cfg, Init(), steps, s) && t in s.jobs
    ensures Canonical(s.jobs[t]) && (s.jobs[t].enabled ==> s.jobs[t].failures < MAX_FAILURES)
  {
    InvRun(cfg, Init(), steps, s);
  }

  // ------------------------------------------------------------------------- restarting

  /** Whenever no result is waiting to be persisted, a restart restores exactly the enabled
      jobs: same tokens, same schedules, same failure counts and errors. The user is the
      row's, and the time of the last refresh comes back without its time zone. */
  lemma RestartRestores(cfg: Config, steps: seq<Step>, s: State, t: Token)
    requires Run(cfg, Init(), steps, s) && s.finishing == {}
    ensures var restored := Next(cfg, s, Restart).jobs;
            && (t in restored <==> t in s.jobs && s.jobs[t].enabled)
            && (t in restored ==> t in s.rows && restored[t] == AsRow(s.jobs[t]).(userId := s.rows[t].userId))
  {
    hide Run, Sound;
    InvRun(cfg, Init(), steps, s);
  }

  /** After a restart, in any reachable state: a pass of the loop starts every restored job
      if none of them was ever refreshed, and none at all if one was. */
  lemma TickAfterRestart(cfg: Config, steps: seq<Step>, s: State, now: int)
    requires Run(cfg, Init(), steps, s) && now >= s.clock
    ensures var restarted := Next(cfg, s, Restart);
            var ticked := Next(cfg, restarted, Tick(now));
            if forall t | t in restarted.jobs :: restarted.jobs[t].lastRefreshed.None?
            then ticked.fetching == restarted.jobs.Keys
            else ticked.fetching == {}
  {
    hide Run;
    InvRun(cfg, Init(), steps, s);
    var jobs := EnabledJobs(s.rows);
    assert forall t | t in jobs :: AsRow(jobs[t]) == jobs[t] && jobs[t].enabled;
    if forall t | t in jobs :: jobs[t].lastRefreshed.None? {
      assert DueTokens(cfg, jobs, now) == jobs.Keys;
    }
  }

  /** A job restored with the time of a refresh, while nothing executes. */
  predicate Stuck(s: State, t: Token) {
    && t in s.jobs && s.jobs[t].enabled && !Comparable(s.jobs[t])
    && t in s.rows && s.rows[t].enabled && !Comparable(s.rows[t])
    && s.fetching == {} && s.finishing == {}
  }

  /** The step neither disables nor removes the token's job. */
  predicate Retains(step: Step, t: Token) {
    match step
    case Update(x, _, _, enabled) => x == t ==> enabled != Some(false)
    case Unschedule(x) => x != t
    case _ => true
  }

  lemma StuckPut(s: State, t: Token, x: Token, j: Job)
    requires Stuck(s, t) && (x == t ==> j.enabled && !Comparable(j))
    ensures Stuck(Put(s, x, j), t)
  {}

  lemma StuckStep(cfg: Config, s: State, t: Token, step: Step)
    requires Stuck(s, t) && Enabled(s, step) && Retains(step, t)
    ensures Stuck(Next(cfg, s, step), t)
  {
    hide Put, ResolveSchedule, Canonical, Due;
    if step.Schedule? {
      match ResolveSchedule(step.format, Some(OrNumber(step.interval, cfg.defaultInterval)))
      case None =>
      case Some((format, interval)) =>
        var j := if step.token in s.jobs
                 then s.jobs[step.token].(interval := interval, format := format, enabled := true, failures := 0)
                 else Job(step.userId, interval, format, None, None, 0, true);
        StuckPut(s, t, step.token, j);
    } else if step.Update? {
      StuckUpdate(s, t, step);
    }
  }

  lemma StuckUpdate(s: State, t: Token, step: Step)
    requires Stuck(s, t) && step.Update? && Retains(step, t)
    ensures Stuck(Updated(s, step), t)
  {
    hide Put, ResolveSchedule;
    if step.token in s.jobs {
      var j := s.jobs[step.token];
      if step.format.None? && step.interval.None? {
        StuckPut(s, t, step.token, Toggled(j, step.enabled));
      } else {
        match ResolveSchedule(Some(OrText(step.format, j.format)), Some(OrNumber(step.interval, j.interval)))
        case None =>
        case Some((format, interval)) =>
          StuckPut(s, t, step.token, Toggled(j.(format := format, interval := interval), step.enabled));
      }
    }
  }

  /** One restored job that was ever refreshed stops every job: on any run after the restart,
      restarts included, nothing is executed until that job is disabled or unscheduled. */
  lemma {:induction false} RestoredJobStopsAll(cfg: Config, s: State, steps: seq<Step>, s': State, t: Token)
    requires Stuck(s, t) && Run(cfg, s, steps, s') && forall x | x in steps :: Retains(x, t)
    ensures Stuck(s', t) && s'.fetching == {}
    decreases |steps|
  {
    hide Next, Stuck;
    if steps == [] {
      NothingRuns(s, t);
    } else {
      assert steps[0] in steps && forall x | x in steps[1..] :: x in steps;
      StuckStep(cfg, s, t, steps[0]);
      RestoredJobStopsAll(cfg, Next(cfg, s, steps[0]), steps[1..], s', t);
    }
  }

  lemma NothingRuns(s: State, t: Token)
    requires Stuck(s, t)
    ensures s.fetching == {}
  {}

  lemma RestartSticks(cfg: Config, steps: seq<Step>, s: State, t: Token)
    requires Run(cfg, Init(), steps, s)
    requires t in Next(cfg, s, Restart).jobs && Next(cfg, s, Restart).jobs[t].lastRefreshed.Some?
    ensures Stuck(Next(cfg, s, Restart), t)
  {
    hide Run;
    InvRun(cfg, Init(), steps, s);
    assert AsRow(s.rows[t]) == s.rows[t];
  }

  // ------------------------------------------------------------------- witnesses and owners

  lemma {:induction false} RunSnoc(cfg: Config, s: State, steps: seq<Step>, t: State, x: Step)
    requires Run(cfg, s, steps, t) && Enabled(t, x)
    ensures Run(cfg, s, steps + [x], Next(cfg, t, x))
    decreases |steps|
  {
    hide Next;
    if steps == [] {
      assert [] + [x] == [x] && [x][1..] == [];
    } else {
      assert (steps + [x])[1..] == steps[1..] + [x];
      RunSnoc(cfg, Next(cfg, s, steps[0]), steps[1..], t, x);
    }
  }

  lemma RunNone(cfg: Config, s: State)
    ensures Run(cfg, s, [], s)
  {}

  lemma DefaultFormat()
    ensures ResolveSchedule(None, Some(600)) == Some((INTERVAL, 600))
  {
    assert Lower(INTERVAL) == INTERVAL;
  }

  lemma ScheduledAfresh(cfg: Config, t: Token, userId: nat) returns (steps: seq<Step>, s: State)
    ensures Run(cfg, Init(), steps, s)
    ensures var j := Job(userId, 600, INTERVAL, None, None, 0, true); s == State(map[t := j], map[t := j], {}, {}, 0)
  {
    hide ResolveSchedule, Due, Updated;
    DefaultFormat();
    assert Run(cfg, Init(), [], Init());
    RunSnoc(cfg, Init(), [], Init(), Schedule(t, userId, Some(600), None));
    steps := [] + [Schedule(t, userId, Some(600), None)];
    s := Next(cfg, Init(), Schedule(t, userId, Some(600), None));
  }

  /** A run to such a stop: a job is scheduled, refreshed once and persisted, and the server
      restarts. However late it is, the job is never due again. */
  lemma RefreshedThenRestarted(cfg: Config, t: Token, now: nat) returns (steps: seq<Step>, s: State)
    ensures Run(cfg, Init(), steps, s) && s.jobs.Keys == {t} && s.jobs[t].enabled
    ensures s.jobs[t].lastRefreshed == Some(Naive(0)) && Stuck(s, t) && s.clock == 0
    ensures Next(cfg, s, Tick(now)).fetching == {}
  {
    hide Run, ResolveSchedule;
    var s1, s2, s3;
    steps, s1 := ScheduledAfresh(cfg, t, 1);
    RunSnoc(cfg, Init(), steps, s1, Tick(0));
    s2 := Next(cfg, s1, Tick(0));
    steps := steps + [Tick(0)];
    assert s2.fetching == {t};
    RunSnoc(cfg, Init(), steps, s2, Fetched(t, 0));
    s3 := Next(cfg, s2, Fetched(t, 0));
    steps := steps + [Fetched(t, 0)];
    steps, s := ThenRestarted(cfg, steps, s3, t);
  }

  lemma ThenRestarted(cfg: Config, before: seq<Step>, s: State, t: Token) returns (steps: seq<Step>, s2: State)
    requires Run(cfg, Init(), before, s) && s.jobs.Keys == {t} == s.finishing && s.rows.Keys == {t} && s.fetching == {}
    requires s.jobs[t].enabled && s.jobs[t].lastRefreshed == Some(Aware(0)) && s.clock == 0
    ensures Run(cfg, Init(), steps, s2) && s2.jobs.Keys == {t} && s2.jobs[t].lastRefreshed == Some(Naive(0))
    ensures Stuck(s2, t) && s2.clock == 0
  {
    hide Run;
    RunSnoc(cfg, Init(), before, s, Persisted(t));
    var s1 := Next(cfg, s, Persisted(t));
    RunSnoc(cfg, Init(), before + [Persisted(t)], s1, Restart);
    steps, s2 := before + [Persisted(t)] + [Restart], Next(cfg, s1, Restart);
  }

  /** Every job belongs to the user that its row names. */
  ghost predicate OwnersAgree(s: State) {
    forall t | t in s.jobs && t in s.rows :: s.rows[t].userId == s.jobs[t].userId
  }

  /** Schedules for another user a token whose row has outlived its job. */
  predicate Foreign(cfg: Config, s: State, step: Step) {
    && step.Schedule? && step.token !in s.jobs && step.token in s.rows && s.rows[step.token].userId != step.userId
    && ResolveSchedule(step.format, Some(OrNumber(step.interval, cfg.defaultInterval))).Some?
  }

  /** Rows keep naming the right users, and so a restart restores them, exactly as long as no
      such schedule is made. */
  lemma OwnersAgreeUnless(cfg: Config, s: State, step: Step)
    requires Inv(s) && OwnersAgree(s) && Enabled(s, step)
    ensures OwnersAgree(Next(cfg, s, step)) <==> !Foreign(cfg, s, step)
    ensures OwnersAgree(s) && s.finishing == {} ==>
              forall t | t in Next(cfg, s, Restart).jobs ::
                  t in s.jobs && Next(cfg, s, Restart).jobs[t] == AsRow(s.jobs[t])
  {
    hide Sound, Due, ResolveSchedule, EffectiveInterval;
    if Foreign(cfg, s, step) {
      assert step.token in Next(cfg, s, step).jobs;
    }
  }

  /** The rows name the wrong user after a run like this: a job is disabled, the server
      restarts, and the token is scheduled for another user. The callers of `schedule` do not
      make such a call; it is the scheduler itself that does not exclude it. */
  lemma StaleOwner(cfg: Config, t: Token) returns (steps: seq<Step>, s: State, restarted: State)
    ensures Run(cfg, Init(), steps, s) && OwnersAgree(s) && Foreign(cfg, s, Schedule(t, 2, Some(600), None))
    ensures Run(cfg, s, [Schedule(t, 2, Some(600), None)] + [Restart], restarted)
    ensures restarted.jobs == map[t := Job(1, 600, INTERVAL, None, None, 0, true)]
  {
    hide Run, ResolveSchedule, Due;
    DefaultFormat();
    var s1;
    steps, s1 := ScheduledAfresh(cfg, t, 1);
    var disable := Update(t, None, None, Some(false));
    RunSnoc(cfg, Init(), steps, s1, disable);
    var s2 := Next(cfg, s1, disable);
    assert s2.rows == map[t := Job(1, 600, INTERVAL, None, None, 0, false)];
    RunSnoc(cfg, Init(), steps + [disable], s2, Restart);
    s := Next(cfg, s2, Restart);
    assert s.jobs == map[];
    steps := steps + [disable] + [Restart];
    var again := Schedule(t, 2, Some(600), None);
    var s3 := Next(cfg, s, again);
    assert s3.rows == map[t := Job(1, 600, INTERVAL, None, None, 0, true)];
    restarted := Next(cfg, s3, Restart);
    RunNone(cfg, s);
    RunSnoc(cfg, s, [], s, again);
    assert [] + [again] == [again];
    RunSnoc(cfg, s, [again], s3, Restart);
  }

  // ---------------------------------------------------------------------- failing for good

  /** The least time between the f-th failure in a row and the g-th. */
  function Waiting(cfg: Config, interval: int, f: nat, g: nat): int
    requires f <= g
    decreases g
  {
    if f == g then 0 else Waiting(cfg, interval, f, g - 1) + EffectiveInterval(cfg, interval, g - 1)
  }

  /** A step that leaves the token's job to the scheduler, and does not make it succeed. */
  predicate Leaves(step: Step, t: Token) {
    match step
    case Schedule(x, _, _, _) => x != t
    case Update(x, _, _, _) => x != t
    case Unschedule(x) => x != t
    case Fetched(x, _) => x != t
    case Restart => false
    case _ => true
  }

  predicate AllLeave(steps: seq<Step>, t: Token) { forall step | step in steps :: Leaves(step, t) }

  /** The job failed `first` times in a row by time `start` and has since failed more, each
      time after waiting its effective interval; while it is fetching, it has waited again. */
  ghost predicate Failing(cfg: Config, s: State, t: Token, interval: int, first: nat, start: int) {
    && t in s.jobs
    && s.jobs[t].interval == interval
    && first <= s.jobs[t].failures <= MAX_FAILURES
    && (s.jobs[t].enabled <==> s.jobs[t].failures < MAX_FAILURES)
    && s.jobs[t].lastRefreshed.Some? && s.jobs[t].lastRefreshed.value.Aware?
    && s.jobs[t].lastRefreshed.value.time >= start + Waiting(cfg, interval, first, s.jobs[t].failures)
    && (t in s.fetching ==>
          && s.jobs[t].enabled
          && s.clock >= s.jobs[t].lastRefreshed.value.time + EffectiveInterval(cfg, interval, s.jobs[t].failures))
  }

  /** The first failure of an enabled job starts such a series. */
  lemma FirstFailureStarts(cfg: Config, s: State, t: Token, error: string, now: int)
    requires Enabled(s, FetchFailed(t, error, now)) && s.jobs[t].enabled && s.jobs[t].failures == 0
    ensures Failing(cfg, Next(cfg, s, FetchFailed(t, error, now)), t, s.jobs[t].interval, 1, now)
  {}

  lemma FailingStep(cfg: Config, s: State, t: Token, interval: int, first: nat, start: int, step: Step)
    requires Failing(cfg, s, t, interval, first, start) && Enabled(s, step) && Leaves(step, t)
    ensures Failing(cfg, Next(cfg, s, step), t, interval, first, start)
    ensures Next(cfg, s, step).jobs[t].failures
        == s.jobs[t].failures + if step.FetchFailed? && step.token == t then 1 else 0
  {
    hide EffectiveInterval, ResolveSchedule, Sound;
    if step.FetchFailed? && step.token == t {
      var f := s.jobs[t].failures;
      assert Waiting(cfg, interval, first, f + 1)
          == Waiting(cfg, interval, first, f) + EffectiveInterval(cfg, interval, f);
    }
  }

  function FailuresOf(steps: seq<Step>, t: Token): nat {
    if steps == [] then 0
    else (if steps[0].FetchFailed? && steps[0].token == t then 1 else 0) + FailuresOf(steps[1..], t)
  }

  /** A job that keeps failing and is left alone: every failing execution counts, the tenth
      disables it, none follows, and reaching the n-th failure takes at least the sum of the
      effective intervals in between. */
  lemma {:induction false} FailingJobIsGivenUp(cfg: Config, s: State, steps: seq<Step>, s': State, t: Token,
                                               interval: int, first: nat, start: int)
    requires Failing(cfg, s, t, interval, first, start) && Run(cfg, s, steps, s') && AllLeave(steps, t)
    ensures Failing(cfg, s', t, interval, first, start)
    ensures s'.jobs[t].failures == s.jobs[t].failures + FailuresOf(steps, t) <= MAX_FAILURES
    ensures s'.jobs[t].enabled <==> s'.jobs[t].failures < MAX_FAILURES
    ensures s'.jobs[t].lastRefreshed.value.time >= start + Waiting(cfg, interval, first, s'.jobs[t].failures)
    decreases |steps|
  {
    if steps != [] {
      hide Next, EffectiveInterval, Waiting;
      assert steps[0] in steps && forall x | x in steps[1..] :: x in steps;
      FailingStep(cfg, s, t, interval, first, start, steps[0]);
      FailingJobIsGivenUp(cfg, Next(cfg, s, steps[0]), steps[1..], s', t, interval, first, start);
    }
  }

  function Only(rows: map<Token, Job>, ts: set<Token>): map<Token, Job> {
    map t | t in rows && t in ts :: rows[t]
  }

  lemma OneMore(rows: map<Token, Job>, all: set<Token>, left: set<Token>, t: Token)
    requires t in left && left <= all <= rows.Keys
    ensures Only(rows, all - (left - {t})) == Only(rows, all - left)[t := rows[t]]
  {}

  lemma OnlyEnabled(rows: map<Token, Job>, all: set<Token>)
    requires all == set t | t in rows && rows[t].enabled
    ensures Only(rows, all) == EnabledJobs(rows) && EnabledJobs(rows).Keys == all
  {}

  // -------------------------------------------------------------------------- the scheduler

  class RefreshJob {
    const userId: nat
    var interval: int
    var format: string
    var lastRefreshed: Option<Stamp>
    var lastError: Option<string>
    var failures: nat
    var enabled: bool

    function Value(): Job
      reads this
    {
      Job(userId, interval, format, lastRefreshed, lastError, failures, enabled)
    }

    constructor (j: Job)
      ensures Value() == j
    {
      userId, interval, format := j.userId, j.interval, j.format;
      lastRefreshed, lastError, failures, enabled := j.lastRefreshed, j.lastError, j.failures, j.enabled;
    }

    method Reschedule(format: string, interval: int)
      modifies this
      ensures Value() == old(Value()).(format := format, interval := interval)
    {
      this.format, this.interval := format, interval;
    }

    method Toggle(enabled: Option<bool>)
      modifies this
      ensures Value() == Toggled(old(Value()), enabled)
    {
      if enabled.Some? {
        this.enabled := enabled.value;
        if enabled.value {
          failures := 0;
        }
      }
    }

    method Succeed(now: int)
      modifies this
      ensures Value() == Succeeded(old(Value()), now)
    {
      lastRefreshed, lastError, failures := Some(Aware(now)), None, 0;
    }

    method Fail(error: string, now: int)
      modifies this
      ensures Value() == Failed(old(Value()), error, now)
    {
      failures, lastError, lastRefreshed := failures + 1, Some(error), Some(Aware(now));
      if failures >= MAX_FAILURES {
        enabled := false;
      }
    }
  }

  class RefreshScheduler {
    const cfg: Config
    var jobs: map<Token, RefreshJob>
    /** The database table. */
    var rows: map<Token, Job>
    ghost var fetching: set<Token>
    ghost var finishing: set<Token>
    ghost var clock: int

    /** No two tokens share a job object. */
    ghost predicate Valid()
      reads this`jobs
    {
      forall t, u | t in jobs && u in jobs && t != u :: jobs[t] != jobs[u]
    }

    ghost function Jobs(): map<Token, Job>
      reads this`jobs, jobs.Values
    {
      map t | t in jobs :: jobs[t].Value()
    }

    ghost function Abs(): State
      reads this, jobs.Values
    {
      State(Jobs(), rows, fetching, finishing, clock)
    }

    constructor (cfg: Config, rows: map<Token, Job>)
      ensures Valid() && this.cfg == cfg && Abs() == State(map[], rows, {}, {}, 0)
    {
      this.cfg, jobs, this.rows, fetching, finishing, clock := cfg, map[], rows, {}, {}, 0;
    }

    /** `_persist_job` */
    method PersistJob(t: Token, job: RefreshJob)
      modifies this`rows
      ensures rows == Persist(old(rows), t, job.Value())
    {
      var j := job.Value();
      if j.lastRefreshed.Some? {
        j := j.(lastRefreshed := Some(Naive(j.lastRefreshed.value.time)));
      }
      rows := rows[t := if t in rows then j.(userId := rows[t].userId) else j];
    }

    /** A new job object in the registry. */
    method Register(t: Token, j: Job) returns (job: RefreshJob)
      requires Valid()
      modifies this`jobs
      ensures Valid() && fresh(job) && job.Value() == j
      ensures jobs == old(jobs)[t := job] && Jobs() == old(Jobs())[t := j]
    {
      job := new RefreshJob(j);
      jobs := jobs[t := job];
    }

    /** Changes a registered job object in place. */
    method Amend(t: Token, format: string, interval: int, enabled: Option<bool>)
      requires Valid() && t in jobs
      modifies jobs[t]
      ensures Valid()
      ensures Jobs() == old(Jobs())[t := Toggled(old(Jobs())[t].(format := format, interval := interval), enabled)]
    {
      jobs[t].Reschedule(format, interval);
      jobs[t].Toggle(enabled);
    }

    /** `_persist_job` for a registered job. */
    method PersistRegistered(t: Token)
      requires Valid() && t in jobs
      modifies this`rows
      ensures Abs() == old(Abs()).(rows := Persist(old(rows), t, Jobs()[t]))
    {
      PersistJob(t, jobs[t]);
    }

    /** `schedule` */
    method ScheduleJob(t: Token, userId: nat, interval: Option<int>, format: Option<string>) returns (ok: bool)
      requires Valid()
      modifies this, jobs.Values
      ensures Valid() && Abs() == Next(cfg, old(Abs()), Schedule(t, userId, interval, format))
      ensures ok <==> ResolveSchedule(format, Some(OrNumber(interval, cfg.defaultInterval))).Some?
    {
      hide ResolveSchedule, DueTokens, EnabledJobs, Raises, Persist, Valid, Jobs;
      var resolved := ResolveSchedule(format, Some(OrNumber(interval, cfg.defaultInterval)));
      if resolved.None? {
        return false;
      }
      assert Jobs().Keys == jobs.Keys by { JobsAreRegistered(); }
      if t in jobs {
        Amend(t, resolved.value.0, resolved.value.1, Some(true));
      } else {
        var _ := Register(t, Job(userId, resolved.value.1, resolved.value.0, None, None, 0, true));
      }
      PersistRegistered(t);
      return true;
    }

    lemma JobsAreRegistered()
      ensures Jobs().Keys == jobs.Keys
    {}

    /** `update` */
    method UpdateJob(t: Token, interval: Option<int>, format: Option<string>, enabled: Option<bool>) returns (ok: bool)
      requires Valid()
      modifies this`rows, jobs.Values
      ensures Valid() && Abs() == Next(cfg, old(Abs()), Update(t, interval, format, enabled))
      ensures ok <==> t in jobs && UpdateResolves(old(Jobs())[t], interval, format)
    {
      hide ResolveSchedule, DueTokens, EnabledJobs, Raises, Persist, Valid;
      if t !in jobs {
        return false;
      }
      var name, seconds := jobs[t].format, jobs[t].interval;
      if format.Some? || interval.Some? {
        var resolved := ResolveSchedule(Some(OrText(format, name)), Some(OrNumber(interval, seconds)));
        if resolved.None? {
          return false;
        }
        name, seconds := resolved.value.0, resolved.value.1;
      }
      Amend(t, name, seconds, enabled);
      PersistRegistered(t);
      return true;
    }

    /** `unschedule` */
    method UnscheduleJob(t: Token) returns (removed: bool)
      requires Valid() && t !in fetching && t !in finishing
      modifies this
      ensures Valid() && Abs() == Next(cfg, old(Abs()), Unschedule(t)) && (removed <==> t in old(jobs))
    {
      removed := t in jobs;
      if removed {
        jobs := jobs - {t};
        rows := rows - {t};
      }
      assert Jobs() == old(Jobs()) - {t};
    }

    /** One pass of `_run_loop`: the jobs to execute, or none if the due check raises. */
    method DueJobs(now: int) returns (raised: bool, due: set<Token>)
      requires Valid() && fetching == {} && finishing == {} && now >= clock
      modifies this`fetching, this`clock
      ensures Abs() == Next(cfg, old(Abs()), Tick(now)) && due == fetching
      ensures raised <==> exists t | t in jobs ::
          jobs[t].enabled && jobs[t].lastRefreshed.Some? && jobs[t].lastRefreshed.value.Naive?
    {
      hide Due, EnabledJobs, Scheduled, Updated;
      clock := now;
      raised := exists t | t in jobs :: jobs[t].enabled && !Comparable(jobs[t].Value());
      if raised {
        var t :| t in jobs && jobs[t].enabled && !Comparable(jobs[t].Value());
        assert Jobs()[t].enabled && !Comparable(Jobs()[t]);
        due := {};
      } else {
        due := set t | t in jobs && jobs[t].enabled && Due(cfg, jobs[t].Value(), now);
        assert due == DueTokens(cfg, Jobs(), now);
      }
      fetching := due;
    }

    /** `_execute_job`, up to the result of the fetch. */
    method RecordSuccess(t: Token, now: int)
      requires Valid() && t in jobs && t in fetching && now >= clock
      modifies this`fetching, this`finishing, this`clock, jobs[t]
      ensures Valid() && Abs() == Next(cfg, old(Abs()), Fetched(t, now))
      ensures jobs[t].lastRefreshed == Some(Aware(now)) && jobs[t].lastError == None && jobs[t].failures == 0
    {
      jobs[t].Succeed(now);
      fetching, finishing, clock := fetching - {t}, finishing + {t}, now;
      assert Jobs() == old(Jobs())[t := jobs[t].Value()];
    }

    method RecordFailure(t: Token, error: string, now: int)
      requires Valid() && t in jobs && t in fetching && now >= clock
      modifies this`fetching, this`finishing, this`clock, jobs[t]
      ensures Valid() && Abs() == Next(cfg, old(Abs()), FetchFailed(t, error, now))
      ensures jobs[t].lastRefreshed == Some(Aware(now)) && jobs[t].lastError == Some(error)
      ensures jobs[t].failures == old(jobs[t].failures) + 1
      ensures jobs[t].enabled <==> old(jobs[t].enabled) && jobs[t].failures < 10
    {
      jobs[t].Fail(error, now);
      fetching, finishing, clock := fetching - {t}, finishing + {t}, now;
      assert Jobs() == old(Jobs())[t := jobs[t].Value()];
    }

    /** The rest of `_execute_job`. */
    method Finish(t: Token)
      requires Valid() && t in jobs && (t in fetching || t in finishing)
      modifies this`rows, this`fetching, this`finishing
      ensures Valid() && Abs() == Next(cfg, old(Abs()), Persisted(t))
    {
      PersistJob(t, jobs[t]);
      fetching, finishing := fetching - {t}, finishing - {t};
    }

    /** `load_from_db`, into a scheduler that has just started. */
    method LoadFromDb() returns (loaded: nat)
      requires Valid() && jobs == map[] && fetching == {} && finishing == {}
      modifies this`jobs
      ensures Valid() && Abs() == Next(cfg, old(Abs()), Restart) && loaded == |jobs|
    {
      hide EnabledJobs;
      var left := set t | t in rows && rows[t].enabled;
      ghost var all := left;
      loaded := 0;
      while left != {}
        invariant Valid() && left <= all
        invariant forall t | t in jobs :: fresh(jobs[t])
        invariant Jobs() == Only(rows, all - left) && loaded + |left| == |all|
        decreases |left|
      {
        var t :| t in left;
        OneMore(rows, all, left, t);
        var _ := Register(t, rows[t]);
        left := left - {t};
        loaded := loaded + 1;
      }
      OnlyEnabled(rows, all);
      assert all - {} == all;
      assert jobs.Keys == Jobs().Keys && |jobs| == |jobs.Keys|;
    }
  }
}
