/** The selector cache: hashed keys, expiry, failure counting and persistence, against a
    history of what was put for a page and what happened since. */
module SelectorCache {
  import opened Text

  const MAX_FAILURES := 3

  datatype Entry = Entry(
    domain: string,
    pagePath: string,
    selectors: map<string, string>,
    confidence: real,
    createdAt: int,
    ttl: int,
    failureCount: nat,
    lastFailureAt: Option<int>,
    lastSuccessAt: Option<int>,
    hitCount: nat)

  predicate Expired(e: Entry, now: int) { now > e.createdAt + e.ttl }

  predicate Invalidated(e: Entry) { e.failureCount >= MAX_FAILURES }

  predicate Usable(e: Entry, now: int) { !Expired(e, now) && !Invalidated(e) }

  // ---------------------------------------------------------------------------------- keys

  function NormalDomain(domain: string): string { Strip(Lower(domain)) }

  function TrimLeft(s: string): string { if s != [] && s[0] == '/' then TrimLeft(s[1..]) else s }

  function TrimRight(s: string): string {
    if s != [] && s[|s| - 1] == '/' then TrimRight(s[..|s| - 1]) else s
  }

  function TrimSlashes(path: string): string { TrimRight(TrimLeft(path)) }

  /** The page a domain and a path stand for. */
  datatype Page = Page(domain: string, path: string)

  function PageOf(domain: string, path: string): Page { Page(NormalDomain(domain), TrimSlashes(path)) }

  predicate Slashes(s: string) { forall i | 0 <= i < |s| :: s[i] == '/' }

  /** Trimming takes the slashes from both ends of a path, all of them, and nothing else. */
  lemma TrimTakesSlashes(path: string) returns (left: string, right: string)
    ensures var t := TrimSlashes(path);
            && path == left + t + right && Slashes(left) && Slashes(right)
            && (t != [] ==> t[0] != '/' && t[|t| - 1] != '/')
  {
    var rest;
    left, rest := LeftSlashes(path);
    right := RightSlashes(rest);
  }

  lemma {:induction false} LeftSlashes(s: string) returns (left: string, rest: string)
    ensures s == left + rest && rest == TrimLeft(s) && Slashes(left) && (rest != [] ==> rest[0] != '/')
  {
    if s != [] && s[0] == '/' {
      left, rest := LeftSlashes(s[1..]);
      left := [s[0]] + left;
    } else {
      left, rest := [], s;
    }
  }

  lemma {:induction false} RightSlashes(s: string) returns (right: string)
    ensures var t := TrimRight(s); s == t + right && Slashes(right) && (t != [] ==> t[|t| - 1] != '/')
  {
    if s != [] && s[|s| - 1] == '/' {
      right := RightSlashes(s[..|s| - 1]);
      right := right + [s[|s| - 1]];
    } else {
      right := [];
    }
  }

  /** Two requests are for the same page exactly when their domains differ at most in letter
      case and edge spaces, and their paths at most in slashes at the ends. */
  lemma SamePageIff(d: string, p: string, d': string, p': string)
    ensures PageOf(d, p) == PageOf(d', p')
       <==> SameButCase(Strip(d), Strip(d')) && TrimSlashes(p) == TrimSlashes(p')
  {
    StripLower(d);
    StripLower(d');
    LowerIff(Strip(d), Strip(d'));
  }

  function PageText(page: Page): string { page.domain + "/" + page.path }

  function KeyText(domain: string, path: string): string { PageText(PageOf(domain, path)) }

  /** The domain of `x` runs on, past a slash, into what is the path of `y`. */
  predicate RunsInto(x: Page, y: Page) {
    && y.domain + "/" <= x.domain
    && y.path == x.domain[|y.domain| + 1..] + "/" + x.path
  }

  predicate Confused(x: Page, y: Page) { RunsInto(x, y) || RunsInto(y, x) }

  lemma RunningInto(x: Page, y: Page)
    requires RunsInto(x, y)
    ensures PageText(x) == PageText(y) && '/' in x.domain && |x.domain| > |y.domain|
  {
    var n := |y.domain|;
    var q := x.domain[n + 1..];
    assert x.domain == (y.domain + "/") + q && x.domain[n] == '/';
    assert PageText(y) == (y.domain + "/") + (q + "/" + x.path) == PageText(x);
  }

  lemma LongerDomain(x: Page, y: Page)
    requires |x.domain| > |y.domain| && PageText(x) == PageText(y)
    ensures RunsInto(x, y)
  {
    var s, n := PageText(x), |y.domain|;
    assert x.domain[..n] == s[..n] == y.domain;
    assert x.domain[n] == s[n] == '/';
    assert x.domain[..n + 1] == y.domain + "/";
    assert y.path == s[n + 1..] == x.domain[n + 1..] + "/" + x.path;
  }

  /** Two pages have one key text exactly when they are the same page, or the domain of one
      runs into the path of the other. */
  lemma SameTextIff(x: Page, y: Page)
    ensures PageText(x) == PageText(y) <==> x == y || Confused(x, y)
    ensures Confused(x, y) ==> x != y
  {
    if RunsInto(x, y) {
      RunningInto(x, y);
    } else if RunsInto(y, x) {
      RunningInto(y, x);
    } else if PageText(x) == PageText(y) {
      SameDomain(x, y);
    }
  }

  lemma SameDomain(x: Page, y: Page)
    requires PageText(x) == PageText(y) && !Confused(x, y)
    ensures x == y
  {
    if |x.domain| > |y.domain| {
      LongerDomain(x, y);
    } else if |y.domain| > |x.domain| {
      LongerDomain(y, x);
    } else {
      var n := |x.domain|;
      assert x.domain == PageText(x)[..n] && y.domain == PageText(y)[..n];
      assert x.path == PageText(x)[n + 1..] && y.path == PageText(y)[n + 1..];
    }
  }

  /** Domains without a slash: two requests have the same key text exactly when they are for
      the same page. */
  lemma KeysTellPagesApart(d: string, p: string, d': string, p': string)
    requires '/' !in NormalDomain(d) && '/' !in NormalDomain(d')
    ensures KeyText(d, p) == KeyText(d', p') <==> PageOf(d, p) == PageOf(d', p')
  {
    var x, y := PageOf(d, p), PageOf(d', p');
    SameTextIff(x, y);
    if RunsInto(x, y) {
      RunningInto(x, y);
    } else if RunsInto(y, x) {
      RunningInto(y, x);
    }
  }

  /** With a slash in a domain, two pages can have one key. */
  lemma SlashConfusesKeys()
    ensures KeyText("a/b", "c") == KeyText("a", "b/c") && PageOf("a/b", "c") != PageOf("a", "b/c")
  {
    assert NormalDomain("a/b") == "a/b" && NormalDomain("a") == "a" by {
      StripKeepsTrimmed("a/b");
      StripKeepsTrimmed("a");
      assert Lower("a/b") == "a/b" && Lower("a") == "a";
    }
    assert TrimSlashes("c") == "c" && TrimSlashes("b/c") == "b/c";
  }

  // ------------------------------------------------------------------------------ the store

  datatype Config = Config(digest: string -> string, ttl: int)

  function Key(cfg: Config, domain: string, path: string): string { cfg.digest(KeyText(domain, path)) }

  datatype Op =
    | Put(domain: string, path: string, selectors: map<string, string>, confidence: real, ttl: Option<int>, now: int)
    | Success(domain: string, path: string, now: int)
    | Failure(domain: string, path: string, now: int)
    | Invalidate(domain: string, path: string)
    | InvalidateDomain(domain: string)
    | Clear

  type Store = map<string, Entry>

  function TtlOf(cfg: Config, ttl: Option<int>): int {
    OrNumber(ttl, cfg.ttl)
  }

  function NewEntry(cfg: Config, op: Op): Entry
    requires op.Put?
  {
    Entry(NormalDomain(op.domain), op.path, op.selectors, op.confidence, op.now, TtlOf(cfg, op.ttl), 0, None, None, 0)
  }

  function Succeeded(e: Entry, now: int): Entry {
    e.(failureCount := 0, lastSuccessAt := Some(now), hitCount := e.hitCount + 1)
  }

  function Failed(e: Entry, now: int): Entry {
    e.(failureCount := e.failureCount + 1, lastFailureAt := Some(now))
  }

  function OfOtherDomains(s: Store, domain: string): Store {
    map k | k in s && s[k].domain != domain :: s[k]
  }

  function Apply(cfg: Config, s: Store, op: Op): Store {
    match op
    case Put(d, p, _, _, _, _) => s[Key(cfg, d, p) := NewEntry(cfg, op)]
    case Success(d, p, now) =>
      var k := Key(cfg, d, p);
      if k in s then s[k := Succeeded(s[k], now)] else s
    case Failure(d, p, now) =>
      var k := Key(cfg, d, p);
      if k in s then s[k := Failed(s[k], now)] else s
    case Invalidate(d, p) => s - {Key(cfg, d, p)}
    case InvalidateDomain(d) => OfOtherDomains(s, NormalDomain(d))
    case Clear => map[]
  }

  function Run(cfg: Config, ops: seq<Op>): Store {
    if ops == [] then map[] else Apply(cfg, Run(cfg, ops[..|ops| - 1]), ops[|ops| - 1])
  }

  function Get(cfg: Config, s: Store, domain: string, path: string, now: int): Option<Entry> {
    var k := Key(cfg, domain, path);
    if k in s && Usable(s[k], now) then Some(s[k]) else None
  }

  // ---------------------------------------------------------------------- what get promises

  predicate Concerns(op: Op, page: Page) {
    (op.Put? || op.Success? || op.Failure? || op.Invalidate?) && PageOf(op.domain, op.path) == page
  }

  predicate Removes(op: Op, page: Page) {
    || op.Clear?
    || (op.InvalidateDomain? && NormalDomain(op.domain) == page.domain)
    || (op.Invalidate? && Concerns(op, page))
  }

  /** The i-th operation put the page, and none since then put it again or removed it. */
  ghost predicate LatestPut(ops: seq<Op>, page: Page, i: nat) {
    && i < |ops| && ops[i].Put? && Concerns(ops[i], page)
    && forall j | i < j < |ops| :: !Removes(ops[j], page) && !(ops[j].Put? && Concerns(ops[j], page))
  }

  /** Failures of the page since it was last put or last succeeded. */
  function Failures(ops: seq<Op>, page: Page): nat {
    if ops == [] then 0
    else
      var op, before := ops[|ops| - 1], ops[..|ops| - 1];
      if !Concerns(op, page) then Failures(before, page)
      else if op.Failure? then Failures(before, page) + 1
      else if op.Put? || op.Success? then 0
      else Failures(before, page)
  }

  /** Successes of the page since it was last put. */
  function Hits(ops: seq<Op>, page: Page): nat {
    if ops == [] then 0
    else
      var op, before := ops[|ops| - 1], ops[..|ops| - 1];
      if !Concerns(op, page) then Hits(before, page)
      else if op.Success? then Hits(before, page) + 1
      else if op.Put? then 0
      else Hits(before, page)
  }

  /** When the page last succeeded and last failed since it was put. */
  function LastSuccess(ops: seq<Op>, page: Page): Option<int> {
    if ops == [] then None
    else
      var op, before := ops[|ops| - 1], ops[..|ops| - 1];
      if !Concerns(op, page) then LastSuccess(before, page)
      else if op.Success? then Some(op.now)
      else if op.Put? then None
      else LastSuccess(before, page)
  }

  function LastFailure(ops: seq<Op>, page: Page): Option<int> {
    if ops == [] then None
    else
      var op, before := ops[|ops| - 1], ops[..|ops| - 1];
      if !Concerns(op, page) then LastFailure(before, page)
      else if op.Failure? then Some(op.now)
      else if op.Put? then None
      else LastFailure(before, page)
  }

  /** In this history the page's key is that of no other page. */
  ghost predicate OwnKey(cfg: Config, ops: seq<Op>, domain: string, path: string) {
    forall op | op in ops :: KeepsApart(cfg, op, domain, path)
  }

  predicate KeepsApart(cfg: Config, op: Op, domain: string, path: string) {
    || op.Clear? || op.InvalidateDomain?
    || Concerns(op, PageOf(domain, path))
    || Key(cfg, op.domain, op.path) != Key(cfg, domain, path)
  }

  predicate NamesPage(op: Op) { !op.Clear? && !op.InvalidateDomain? }

  /** The digest tells the page's key text from the others of the history. */
  ghost predicate NoCollision(cfg: Config, ops: seq<Op>, domain: string, path: string) {
    forall op | op in ops && NamesPage(op) ::
      cfg.digest(KeyText(op.domain, op.path)) == cfg.digest(KeyText(domain, path)) ==>
        KeyText(op.domain, op.path) == KeyText(domain, path)
  }

  /** Under a digest without collisions, a page has its own key exactly when no operation is
      for a page confused with it. */
  lemma OwnKeyIff(cfg: Config, ops: seq<Op>, domain: string, path: string)
    requires NoCollision(cfg, ops, domain, path)
    ensures OwnKey(cfg, ops, domain, path)
       <==> forall op | op in ops && NamesPage(op) :: !Confused(PageOf(op.domain, op.path), PageOf(domain, path))
  {
    forall op | op in ops && NamesPage(op)
      ensures KeepsApart(cfg, op, domain, path) <==> !Confused(PageOf(op.domain, op.path), PageOf(domain, path))
    {
      SameTextIff(PageOf(op.domain, op.path), PageOf(domain, path));
    }
  }

  /** So domains without a slash give every page its own key. */
  lemma SlashFreeKeysAreOwn(cfg: Config, ops: seq<Op>, domain: string, path: string)
    requires NoCollision(cfg, ops, domain, path) && '/' !in NormalDomain(domain)
    requires forall op | op in ops && NamesPage(op) :: '/' !in NormalDomain(op.domain)
    ensures OwnKey(cfg, ops, domain, path)
  {
    forall op | op in ops ensures KeepsApart(cfg, op, domain, path) {
      if NamesPage(op) {
        KeysTellPagesApart(op.domain, op.path, domain, path);
      }
    }
  }

  lemma SameKeyIffConcerned(cfg: Config, op: Op, domain: string, path: string)
    requires KeepsApart(cfg, op, domain, path)
    requires !op.Clear? && !op.InvalidateDomain?
    ensures Key(cfg, op.domain, op.path) == Key(cfg, domain, path) <==> Concerns(op, PageOf(domain, path))
  {}

  /** What the store holds under the page's key is what its latest put put, with the failures
      counted since. */
  ghost predicate Holds(cfg: Config, ops: seq<Op>, page: Page, i: nat, e: Entry) {
    && LatestPut(ops, page, i)
    && e.domain == page.domain && e.pagePath == ops[i].path
    && e.selectors == ops[i].selectors && e.confidence == ops[i].confidence
    && e.createdAt == ops[i].now && e.ttl == TtlOf(cfg, ops[i].ttl)
    && e.failureCount == Failures(ops, page) && e.hitCount == Hits(ops, page)
    && e.lastSuccessAt == LastSuccess(ops, page) && e.lastFailureAt == LastFailure(ops, page)
  }

  ghost predicate Tracks(cfg: Config, ops: seq<Op>, domain: string, path: string, s: Store) {
    var page, k := PageOf(domain, path), Key(cfg, domain, path);
    && (k in s ==> exists i :: Holds(cfg, ops, page, i, s[k]))
    && (k !in s ==> forall i :: !LatestPut(ops, page, i))
  }

  /** One more operation that neither puts nor removes the page. */
  lemma LatestPutStays(before: seq<Op>, op: Op, page: Page, i: nat)
    requires !Removes(op, page) && !(op.Put? && Concerns(op, page))
    ensures LatestPut(before + [op], page, i) <==> LatestPut(before, page, i)
  {
    hide Concerns, Removes;
    var ops := before + [op];
    if LatestPut(ops, page, i) {
      assert i < |before|;
      assert forall j | i < j < |before| :: before[j] == ops[j];
    }
  }

  lemma LatestPutGoes(before: seq<Op>, op: Op, page: Page, i: nat)
    requires Removes(op, page)
    ensures !LatestPut(before + [op], page, i)
  {
    var ops := before + [op];
    assert ops[|before|] == op;
  }

  lemma TracksPut(cfg: Config, before: seq<Op>, op: Op, domain: string, path: string, s: Store)
    requires op.Put? && Concerns(op, PageOf(domain, path)) && KeepsApart(cfg, op, domain, path)
    ensures Tracks(cfg, before + [op], domain, path, Apply(cfg, s, op))
  {
    var ops, page := before + [op], PageOf(domain, path);
    SameKeyIffConcerned(cfg, op, domain, path);
    assert ops[|ops| - 1] == op;
    assert LatestPut(ops, page, |before|);
    assert Holds(cfg, ops, page, |before|, Apply(cfg, s, op)[Key(cfg, domain, path)]);
  }

  lemma TracksRemoval(cfg: Config, before: seq<Op>, op: Op, domain: string, path: string, s: Store)
    requires Removes(op, PageOf(domain, path)) && KeepsApart(cfg, op, domain, path)
    requires Tracks(cfg, before, domain, path, s)
    ensures Tracks(cfg, before + [op], domain, path, Apply(cfg, s, op))
  {
    var page, k := PageOf(domain, path), Key(cfg, domain, path);
    forall i ensures !LatestPut(before + [op], page, i) {
      LatestPutGoes(before, op, page, i);
    }
    assert k !in Apply(cfg, s, op) by {
      hide LatestPut;
      if op.Invalidate? {
        SameKeyIffConcerned(cfg, op, domain, path);
      }
    }
  }

  lemma FailuresAfter(before: seq<Op>, op: Op, page: Page)
    ensures Failures(before + [op], page)
         == if !Concerns(op, page) || op.Invalidate? then Failures(before, page)
            else if op.Failure? then Failures(before, page) + 1 else 0
    ensures Hits(before + [op], page)
         == if !Concerns(op, page) || op.Invalidate? || op.Failure? then Hits(before, page)
            else if op.Success? then Hits(before, page) + 1 else 0
    ensures LastSuccess(before + [op], page)
         == if !Concerns(op, page) || op.Invalidate? || op.Failure? then LastSuccess(before, page)
            else if op.Success? then Some(op.now) else None
    ensures LastFailure(before + [op], page)
         == if !Concerns(op, page) || op.Invalidate? || op.Success? then LastFailure(before, page)
            else if op.Failure? then Some(op.now) else None
  {
    var ops := before + [op];
    assert ops[|ops| - 1] == op && ops[..|ops| - 1] == before;
  }

  lemma TracksOther(cfg: Config, before: seq<Op>, op: Op, domain: string, path: string, s: Store)
    requires !Removes(op, PageOf(domain, path)) && !(op.Put? && Concerns(op, PageOf(domain, path)))
    requires KeepsApart(cfg, op, domain, path)
    requires Tracks(cfg, before, domain, path, s)
    ensures Tracks(cfg, before + [op], domain, path, Apply(cfg, s, op))
  {
    var page, k, t, ops := PageOf(domain, path), Key(cfg, domain, path), Apply(cfg, s, op), before + [op];
    FailuresAfter(before, op, page);
    forall i ensures LatestPut(ops, page, i) <==> LatestPut(before, page, i) {
      LatestPutStays(before, op, page, i);
    }
    if !op.InvalidateDomain? {
      SameKeyIffConcerned(cfg, op, domain, path);
    }
    hide LatestPut, Failures, Hits, LastSuccess, LastFailure;
    if k in s {
      var i: nat :| Holds(cfg, before, page, i, s[k]);
      assert i < |before| by { InHistory(before, page, i); }
      assert ops[i] == before[i];
      assert Holds(cfg, ops, page, i, t[k]);
    }
  }

  lemma InHistory(ops: seq<Op>, page: Page, i: nat)
    requires LatestPut(ops, page, i)
    ensures i < |ops|
  {}

  lemma {:induction false} StoreTracksHistory(cfg: Config, ops: seq<Op>, domain: string, path: string)
    requires OwnKey(cfg, ops, domain, path)
    ensures Tracks(cfg, ops, domain, path, Run(cfg, ops))
  {
    hide Tracks, Concerns, Removes, KeepsApart, Apply;
    if ops == [] {
      TracksNothing(cfg, domain, path);
    } else {
      var before, op := ops[..|ops| - 1], ops[|ops| - 1];
      assert forall o | o in before :: o in ops;
      assert op in ops;
      StoreTracksHistory(cfg, before, domain, path);
      assert ops == before + [op];
      var page := PageOf(domain, path);
      if op.Put? && Concerns(op, page) {
        TracksPut(cfg, before, op, domain, path, Run(cfg, before));
      } else if Removes(op, page) {
        TracksRemoval(cfg, before, op, domain, path, Run(cfg, before));
      } else {
        TracksOther(cfg, before, op, domain, path, Run(cfg, before));
      }
    }
  }

  lemma TracksNothing(cfg: Config, domain: string, path: string)
    ensures Tracks(cfg, [], domain, path, map[])
  {}

  lemma OneLatestPut(ops: seq<Op>, page: Page, i: nat, j: nat)
    requires LatestPut(ops, page, i) && LatestPut(ops, page, j)
    ensures i == j
  {}

  /** How long a put lives: as it asks, or as configured if it asks for nothing or for 0. */
  predicate LivesUntil(cfg: Config, op: Op, end: int)
    requires op.Put?
  {
    if op.ttl.None? || op.ttl == Some(0) then end == op.now + cfg.ttl else end == op.now + op.ttl.value
  }

  /** After any history of operations, `get` answers exactly when the page was put and not
      removed since, that put is within its time to live, and fewer than three failures were
      recorded since it was put or last succeeded; and it answers with what was put and the
      number of its successes. */
  lemma GetAnswersIff(cfg: Config, ops: seq<Op>, domain: string, path: string, now: int, i: nat, end: int)
    requires OwnKey(cfg, ops, domain, path)
    requires LatestPut(ops, PageOf(domain, path), i) ==> LivesUntil(cfg, ops[i], end)
    ensures var page := PageOf(domain, path);
            var r := Get(cfg, Run(cfg, ops), domain, path, now);
            && (r.Some? ==> exists j :: LatestPut(ops, page, j))
            && (LatestPut(ops, page, i) ==>
                  && (r.Some? <==> now <= end && Failures(ops, page) < 3)
                  && (r.Some? ==>
                        && r.value.selectors == ops[i].selectors && r.value.confidence == ops[i].confidence
                        && r.value.createdAt == ops[i].now && r.value.hitCount == Hits(ops, page)))
  {
    var page, k, s := PageOf(domain, path), Key(cfg, domain, path), Run(cfg, ops);
    StoreTracksHistory(cfg, ops, domain, path);
    if k in s {
      var j :| Holds(cfg, ops, page, j, s[k]);
      if LatestPut(ops, page, i) {
        OneLatestPut(ops, page, i, j);
      }
    }
  }

  // ---------------------------------------------------------------------------- persistence

  /** An entry as the file holds it: a JSON object whose present keys have values of the
      right type. */
  datatype Record = Record(
    domain: Option<string>,
    pagePath: Option<string>,
    selectors: Option<map<string, string>>,
    confidence: Option<real>,
    createdAt: Option<int>,
    ttl: Option<int>,
    failureCount: Option<nat>,
    lastFailureAt: Option<int>,
    lastSuccessAt: Option<int>,
    hitCount: Option<nat>)

  const DEFAULT_TTL := 604800

  function ToDict(e: Entry): Record {
    Record(Some(e.domain), Some(e.pagePath), Some(e.selectors), Some(e.confidence), Some(e.createdAt), Some(e.ttl),
           Some(e.failureCount), e.lastFailureAt, e.lastSuccessAt, Some(e.hitCount))
  }

  function Or<T>(x: Option<T>, default: T): T { if x.Some? then x.value else default }

  /** `from_dict`; None where a required key is missing. */
  function FromDict(r: Record): Option<Entry> {
    if r.domain.None? || r.pagePath.None? || r.selectors.None? || r.createdAt.None? then None
    else
      Some(Entry(r.domain.value, r.pagePath.value, r.selectors.value, Or(r.confidence, 0.0), r.createdAt.value,
                 Or(r.ttl, DEFAULT_TTL), Or(r.failureCount, 0), r.lastFailureAt, r.lastSuccessAt, Or(r.hitCount, 0)))
  }

  /** A record is refused exactly if one of the four required keys is missing; another that
      is missing takes its default. */
  lemma FromDictDefaults(r: Record, e: Entry)
    ensures FromDict(r).None? <==> r.domain.None? || r.pagePath.None? || r.selectors.None? || r.createdAt.None?
    ensures FromDict(ToDict(e)) == Some(e)
    ensures FromDict(ToDict(e).(confidence := None, ttl := None, failureCount := None, hitCount := None))
         == Some(e.(confidence := 0.0, ttl := 7 * 86400, failureCount := 0, hitCount := 0))
  {}

  type File = seq<(string, Record)>

  /** `_load_from_disk`: entry by entry, up to the first that lacks a required key. */
  function Load(file: File, s: Store): Store
    decreases |file|
  {
    if file == [] then s
    else
      match FromDict(file[0].1)
      case None => s
      case Some(e) => Load(file[1..], s[file[0].0 := e])
  }

  /** The file lists exactly the entries of the store, each once. */
  ghost predicate Saves(file: File, s: Store) {
    && |file| == |s|
    && (forall i | 0 <= i < |file| :: file[i].0 in s && file[i].1 == ToDict(s[file[i].0]))
    && (forall i, j | 0 <= i < j < |file| :: file[i].0 != file[j].0)
  }

  lemma SaveOne(file: File, s: Store, k: string, e: Entry)
    requires Saves(file, s) && k !in s
    ensures Saves(file + [(k, ToDict(e))], s[k := e])
  {
    hide ToDict;
    var t := s[k := e];
    assert t.Keys == s.Keys + {k};
    assert |t| == |t.Keys| && |s| == |s.Keys|;
  }

  lemma {:induction false} LoadIsUnion(file: File, s: Store, into: Store)
    requires Saves(file, s)
    ensures Load(file, into) == into + s
    decreases |file|
  {
    hide Saves, ToDict;
    if file == [] {
      assert s == map[] by { NothingSaved(s); }
    } else {
      FirstSaved(file, s);
      var k, rest := file[0].0, s - {file[0].0};
      RestSaves(file, s);
      LoadIsUnion(file[1..], rest, into[k := s[k]]);
      TakeOne(s, into, k);
    }
  }

  lemma NothingSaved(s: Store)
    ensures Saves([], s) <==> s == map[]
  {}

  lemma OneLess<V>(s: map<string, V>, keys: set<string>, k: string)
    requires k in keys && keys <= s.Keys
    ensures (s - keys)[k := s[k]] == s - (keys - {k})
  {}

  lemma DomainRemoved(s: Store, domain: string, removed: set<string>)
    requires removed == set k | k in s && s[k].domain == domain
    ensures OfOtherDomains(s, domain) == s - removed
  {}

  lemma MinusOneMore<V>(s: map<string, V>, keys: set<string>, left: set<string>, k: string)
    requires k in left && left <= keys
    ensures s - (keys - left) - {k} == s - (keys - (left - {k}))
  {}

  lemma CountRemoved<V>(s: map<string, V>, removed: set<string>)
    requires removed <= s.Keys
    ensures |s - removed| == |s| - |removed|
  {
    assert (s - removed).Keys == s.Keys - removed;
    assert |s - removed| == |(s - removed).Keys| && |s| == |s.Keys|;
  }

  lemma FirstSaved(file: File, s: Store)
    requires Saves(file, s) && file != []
    ensures file[0].0 in s && FromDict(file[0].1) == Some(s[file[0].0])
  {}

  lemma RestSaves(file: File, s: Store)
    requires Saves(file, s) && file != []
    ensures Saves(file[1..], s - {file[0].0})
  {
    hide ToDict;
    var rest := s - {file[0].0};
    assert rest.Keys == s.Keys - {file[0].0};
    assert |rest| == |rest.Keys| && |s| == |s.Keys|;
  }

  lemma TakeOne(s: Store, into: Store, k: string)
    requires k in s
    ensures into[k := s[k]] + (s - {k}) == into + s
  {}

  /** Loading what was saved gives the store back, so no `get` answers differently. */
  lemma SaveThenLoad(file: File, s: Store)
    requires Saves(file, s)
    ensures Load(file, map[]) == s
  {
    LoadIsUnion(file, s, map[]);
    assert map[] + s == s;
  }

  // ------------------------------------------------------------------------------ the cache

  class CacheEntry {
    const domain: string
    const pagePath: string
    const selectors: map<string, string>
    const confidence: real
    const createdAt: int
    const ttl: int
    var failureCount: nat
    var lastFailureAt: Option<int>
    var lastSuccessAt: Option<int>
    var hitCount: nat

    function Value(): Entry
      reads this
    {
      Entry(domain, pagePath, selectors, confidence, createdAt, ttl, failureCount, lastFailureAt, lastSuccessAt,
          hitCount)
    }

    constructor (e: Entry)
      ensures Value() == e
    {
      domain, pagePath, selectors, confidence := e.domain, e.pagePath, e.selectors, e.confidence;
      createdAt, ttl, failureCount := e.createdAt, e.ttl, e.failureCount;
      lastFailureAt, lastSuccessAt, hitCount := e.lastFailureAt, e.lastSuccessAt, e.hitCount;
    }

    method RecordSuccess(now: int)
      modifies this
      ensures Value() == Succeeded(old(Value()), now)
    {
      failureCount := 0;
      lastSuccessAt := Some(now);
      hitCount := hitCount + 1;
    }

    method RecordFailure(now: int)
      modifies this
      ensures Value() == Failed(old(Value()), now)
    {
      failureCount := failureCount + 1;
      lastFailureAt := Some(now);
    }
  }

  class SelectorCache {
    const cfg: Config
    const persists: bool
    var store: map<string, CacheEntry>
    /** What the file at the persist path holds, if it exists. */
    var file: Option<File>

    /** No two keys share an entry object. */
    ghost predicate Valid()
      reads this`store
    {
      forall j, k | j in store && k in store && j != k :: store[j] != store[k]
    }

    ghost function Abs(): Store
      reads this`store, store.Values
    {
      map k | k in store :: store[k].Value()
    }

    /** Loading the file now would give this very cache. */
    ghost predicate Synced()
      reads this, store.Values
    {
      match file
      case None => Abs() == map[]
      case Some(f) => Saves(f, Abs())
    }

    constructor (cfg: Config, persists: bool, file: Option<File>)
      ensures Valid() && fresh(store.Values)
      ensures this.cfg == cfg && this.persists == persists && this.file == file
      ensures Abs() == if persists && file.Some? then Load(file.value, map[]) else map[]
    {
      this.cfg, this.persists, this.file, store := cfg, persists, file, map[];
      new;
      assert Abs() == map[];
      if persists && file.Some? {
        LoadFromDisk(file.value);
      }
    }

    method Keep(key: string, e: Entry) returns (entry: CacheEntry)
      requires Valid()
      modifies this`store
      ensures Valid() && fresh(entry) && store == old(store)[key := entry] && Abs() == old(Abs())[key := e]
    {
      entry := new CacheEntry(e);
      store := store[key := entry];
    }

    method LoadFromDisk(f: File)
      requires Valid()
      modifies this`store
      ensures Valid() && Abs() == Load(f, old(Abs()))
      ensures fresh(store.Values - old(store.Values))
    {
      hide FromDict;
      for i := 0 to |f|
        invariant Valid() && fresh(store.Values - old(store.Values))
        invariant Load(f, old(Abs())) == Load(f[i..], Abs())
      {
        var loaded := FromDict(f[i].1);
        if loaded.None? {
          return;
        }
        var _ := Keep(f[i].0, loaded.value);
        assert f[i..][1..] == f[i + 1..];
      }
    }

    /** `_save_to_disk` */
    method SaveToDisk()
      requires Valid()
      modifies this`file
      ensures if persists then file.Some? && Saves(file.value, Abs()) else file == old(file)
    {
      hide Saves, ToDict, FromDict;
      if !persists {
        return;
      }
      NothingSaved(map[]);
      var data: File := [];
      var keys := store.Keys;
      ghost var s := Abs();
      ghost var done: Store := map[];
      while keys != {}
        invariant keys <= s.Keys && Saves(data, done)
        invariant done == s - keys && Abs() == s
        decreases |keys|
      {
        var k :| k in keys;
        SaveOne(data, done, k, s[k]);
        OneLess(s, keys, k);
        data := data + [(k, ToDict(store[k].Value()))];
        done := done[k := s[k]];
        keys := keys - {k};
      }
      assert s - {} == s;
      file := Some(data);
    }

    /** `get` */
    method LookUp(domain: string, path: string, now: int) returns (entry: CacheEntry?)
      ensures entry == null <==> Get(cfg, Abs(), domain, path, now).None?
      ensures entry != null ==> entry in store.Values && Some(entry.Value()) == Get(cfg, Abs(), domain, path, now)
    {
      var key := Key(cfg, domain, path);
      if key !in store {
        return null;
      }
      if !Usable(store[key].Value(), now) {
        return null;
      }
      assert Abs()[key] == store[key].Value();
      return store[key];
    }

    /** `put` */
    method PutPage(domain: string, path: string, selectors: map<string, string>, confidence: real, ttl: Option<int>,
        now: int)
        returns (entry: CacheEntry)
      requires Valid()
      modifies this
      ensures Valid() && fresh(entry) && store == old(store)[Key(cfg, domain, path) := entry]
      ensures Abs() == Apply(cfg, old(Abs()), Put(domain, path, selectors, confidence, ttl, now))
      ensures if persists then Synced() else file == old(file)
    {
      hide Saves, Key, NormalDomain;
      var op := Put(domain, path, selectors, confidence, ttl, now);
      entry := Keep(Key(cfg, domain, path), NewEntry(cfg, op));
      SaveToDisk();
    }

    method RecordSuccess(domain: string, path: string, now: int)
      requires Valid()
      modifies this`file, store.Values
      ensures Valid() && Abs() == Apply(cfg, old(Abs()), Success(domain, path, now))
      ensures if persists then old(Synced()) ==> Synced() else file == old(file)
    {
      hide Saves, Key;
      var key := Key(cfg, domain, path);
      if key in store {
        var entry := store[key];
        entry.RecordSuccess(now);
        assert Abs() == old(Abs())[key := Succeeded(old(Abs())[key], now)];
        SaveToDisk();
      }
    }

    method RecordFailure(domain: string, path: string, now: int)
      requires Valid()
      modifies this`file, store.Values
      ensures Valid() && Abs() == Apply(cfg, old(Abs()), Failure(domain, path, now))
      ensures if persists then old(Synced()) ==> Synced() else file == old(file)
    {
      hide Saves, Key;
      var key := Key(cfg, domain, path);
      if key in store {
        var entry := store[key];
        entry.RecordFailure(now);
        assert Abs() == old(Abs())[key := Failed(old(Abs())[key], now)];
        SaveToDisk();
      }
    }

    method Delete(key: string)
      requires Valid()
      modifies this`store
      ensures Valid() && store == old(store) - {key} && Abs() == old(Abs()) - {key}
    {
      store := store - {key};
    }

    method DeleteAll(keys: set<string>)
      requires Valid()
      modifies this`store
      ensures Valid() && store == old(store) - keys && Abs() == old(Abs()) - keys
    {
      var left := keys;
      assert store - {} == store && Abs() - {} == Abs() && keys - keys == {};
      while left != {}
        invariant left <= keys && Valid()
        invariant store == old(store) - (keys - left) && Abs() == old(Abs()) - (keys - left)
        decreases |left|
      {
        var k :| k in left;
        Delete(k);
        MinusOneMore(old(store), keys, left, k);
        MinusOneMore(old(Abs()), keys, left, k);
        left := left - {k};
      }
      assert keys - {} == keys;
    }

    /** `invalidate` */
    method InvalidatePage(domain: string, path: string) returns (removed: bool)
      requires Valid()
      modifies this
      ensures Valid() && Abs() == Apply(cfg, old(Abs()), Invalidate(domain, path))
      ensures removed <==> Key(cfg, domain, path) in old(store)
      ensures if persists then old(Synced()) ==> Synced() else file == old(file)
    {
      hide Saves, Key;
      var key := Key(cfg, domain, path);
      removed := key in store;
      if removed {
        Delete(key);
        SaveToDisk();
      } else {
        assert Abs() - {key} == Abs();
      }
    }

    method KeysOf(domain: string) returns (keys: set<string>)
      ensures keys <= store.Keys && OfOtherDomains(Abs(), domain) == Abs() - keys
    {
      keys := set k | k in store && store[k].domain == domain;
      DomainRemoved(Abs(), domain, keys);
    }

    /** `invalidate_domain`: removes exactly the entries of the domain, and counts them. */
    method InvalidateWholeDomain(domain: string) returns (removed: nat)
      requires Valid()
      modifies this
      ensures Valid() && Abs() == Apply(cfg, old(Abs()), InvalidateDomain(domain))
      ensures removed == |old(store)| - |store|
      ensures if persists then old(Synced()) ==> Synced() else file == old(file)
    {
      hide Saves, OfOtherDomains, NormalDomain, NewEntry, Key, Abs, Valid;
      removed := DeleteDomain(NormalDomain(domain));
      if removed > 0 {
        SaveToDisk();
      }
    }

    method DeleteDomain(domain: string) returns (removed: nat)
      requires Valid()
      modifies this`store
      ensures Valid() && Abs() == OfOtherDomains(old(Abs()), domain)
      ensures removed == |old(store)| - |store|
      ensures removed == 0 ==> Abs() == old(Abs())
    {
      hide OfOtherDomains, Abs, Valid;
      var toRemove := KeysOf(domain);
      removed := |toRemove|;
      CountRemoved(store, toRemove);
      DeleteAll(toRemove);
      assert old(Abs()) - {} == old(Abs());
    }

    method ClearAll()
      requires Valid()
      modifies this
      ensures Valid() && Abs() == map[]
      ensures if persists then Synced() else file == old(file)
    {
      store := map[];
      assert Abs() == map[];
      SaveToDisk();
    }
  }
}
