/** The tamper-evident audit log: every entry carries the hash of its own payload, which
    ends in the hash of the entry before it.

    The hash function is a parameter. All that is assumed of it is its output format; where
    a result rests on the absence of collisions, the collision is the alternative. */
module AuditChain {
  import opened Text

  datatype Event = Event(
    eventType: string,
    userId: Option<nat>,
    agentId: Option<string>,
    resource: Option<string>,
    action: string,
    metadataJson: Option<string>,
    ipAddress: Option<string>,
    timestamp: string)

  datatype Entry = Entry(id: nat, event: Event, prevHash: Option<string>, entryHash: string)

  type Hash = string -> string

  // ------------------------------------------------------------------------ payloads

  function Show(s: Option<string>): string {
    match s case None => "None" case Some(v) => v
  }

  function ShowId(id: Option<nat>): string {
    match id case None => "None" case Some(n) => Decimal(n)
  }

  function Fields(e: Event): (fs: seq<string>)
    ensures |fs| == 8
  {
    [e.eventType, ShowId(e.userId), Show(e.agentId), Show(e.resource), e.action,
     Show(e.metadataJson), Show(e.ipAddress), e.timestamp]
  }

  /** Joined by bars; the fields are not escaped. */
  function JoinBars(fs: seq<string>): string
    requires fs != []
  {
    if |fs| == 1 then fs[0] else JoinBars(fs[..|fs| - 1]) + ['|'] + fs[|fs| - 1]
  }

  function Payload(e: Event, prevHash: Option<string>): string {
    JoinBars(Fields(e) + [Show(prevHash)])
  }

  lemma PayloadSplits(e: Event, prevHash: Option<string>)
    ensures Payload(e, prevHash) == JoinBars(Fields(e)) + ['|'] + Show(prevHash)
  {
    var fs := Fields(e) + [Show(prevHash)];
    assert fs[..|fs| - 1] == Fields(e);
  }

  // -------------------------------------------------------------------------- hashing

  predicate HexDigit(c: char) { '0' <= c <= '9' || 'a' <= c <= 'f' }

  /** A SHA-256 digest in hexadecimal. */
  predicate IsDigest(s: string) { |s| == 64 && forall i | 0 <= i < 64 :: HexDigit(s[i]) }

  ghost predicate Digests(h: Hash) { forall s :: IsDigest(h(s)) }

  lemma DigestIsPlain(s: string)
    requires IsDigest(s)
    ensures '|' !in s && s != "None"
  {}

  // -------------------------------------------------------------- recording and verifying

  function LastHash(log: seq<Entry>): Option<string> {
    if log == [] then None else Some(log[|log| - 1].entryHash)
  }

  function Append(h: Hash, log: seq<Entry>, id: nat, e: Event): seq<Entry> {
    log + [Entry(id, e, LastHash(log), h(Payload(e, LastHash(log))))]
  }

  datatype Finding =
    | PrevHashMismatch(id: nat, expected: Option<string>, actual: Option<string>)
    | EntryHashMismatch(id: nat, expectedHash: string, actualHash: string)

  function CheckEntry(h: Hash, e: Entry, prev: Option<string>): seq<Finding> {
    (if e.prevHash != prev then [PrevHashMismatch(e.id, prev, e.prevHash)] else [])
    + (var expected := h(Payload(e.event, e.prevHash));
       if e.entryHash != expected then [EntryHashMismatch(e.id, expected, e.entryHash)] else [])
  }

  /** Every finding of a verification run, in log order. */
  function Findings(h: Hash, log: seq<Entry>): seq<Finding> {
    if log == [] then []
    else
      var n := |log| - 1;
      Findings(h, log[..n]) + CheckEntry(h, log[n], LastHash(log[..n]))
  }

  ghost predicate Linked(h: Hash, log: seq<Entry>, i: nat)
    requires i < |log|
  {
    && log[i].prevHash == LastHash(log[..i])
    && log[i].entryHash == h(Payload(log[i].event, log[i].prevHash))
  }

  lemma LinkedInPrefix(h: Hash, log: seq<Entry>, n: nat, i: nat)
    requires i < n <= |log|
    ensures Linked(h, log[..n], i) <==> Linked(h, log, i)
  {
    assert log[..n][..i] == log[..i];
  }

  /** Verification finds nothing exactly when every entry is linked to its predecessor and
      hashes its own payload. */
  lemma {:induction false} VerifiesIff(h: Hash, log: seq<Entry>)
    ensures Findings(h, log) == [] <==> forall i: nat | i < |log| :: Linked(h, log, i)
  {
    if log != [] {
      var n := |log| - 1;
      VerifiesIff(h, log[..n]);
      forall i: nat | i < n
        ensures Linked(h, log[..n], i) <==> Linked(h, log, i)
      {
        LinkedInPrefix(h, log, n, i);
      }
      assert CheckEntry(h, log[n], LastHash(log[..n])) == [] <==> Linked(h, log, n);
    }
  }

  /** Appending never adds a finding, whatever state the log is in. */
  lemma AppendKeepsFindings(h: Hash, log: seq<Entry>, id: nat, e: Event)
    ensures Findings(h, Append(h, log, id, e)) == Findings(h, log)
  {
    assert Append(h, log, id, e)[..|log|] == log;
  }

  function AppendAll(h: Hash, log: seq<Entry>, es: seq<(nat, Event)>): seq<Entry>
    decreases |es|
  {
    if es == [] then log else AppendAll(h, Append(h, log, es[0].0, es[0].1), es[1..])
  }

  /** Every serial run of appends verifies, and so does its continuation. */
  lemma {:induction false} AppendsKeepFindings(h: Hash, log: seq<Entry>, es: seq<(nat, Event)>)
    ensures Findings(h, AppendAll(h, log, es)) == Findings(h, log)
    decreases |es|
  {
    if es != [] {
      AppendKeepsFindings(h, log, es[0].0, es[0].1);
      AppendsKeepFindings(h, Append(h, log, es[0].0, es[0].1), es[1..]);
    }
  }

  /** It leaves the log as it was and adds the events in their order. */
  lemma {:induction false} AppendsAdd(h: Hash, log: seq<Entry>, es: seq<(nat, Event)>, i: nat)
    ensures log <= AppendAll(h, log, es) && |AppendAll(h, log, es)| == |log| + |es|
    ensures i < |es| ==>
              AppendAll(h, log, es)[|log| + i].id == es[i].0 && AppendAll(h, log, es)[|log| + i].event == es[i].1
    decreases |es|
  {
    hide Payload;
    if es != [] {
      var one := Append(h, log, es[0].0, es[0].1);
      AppendsAdd(h, one, es[1..], if i > 0 then i - 1 else 0);
      assert AppendAll(h, log, es)[|log|] == one[|log|];
    }
  }

  // ------------------------------------------------------------------ hash determinacy

  ghost predicate Verified(h: Hash, log: seq<Entry>) { Findings(h, log) == [] }

  /** Two entries with different payloads and one hash. */
  ghost predicate Collision(h: Hash, x: seq<Entry>, y: seq<Entry>) {
    exists i, j | 0 <= i < |x| && 0 <= j < |y| ::
      Payload(x[i].event, x[i].prevHash) != Payload(y[j].event, y[j].prevHash) && x[i].entryHash == y[j].entryHash
  }

  ghost predicate SamePayloads(x: seq<Entry>, y: seq<Entry>) {
    |x| == |y| && forall i | 0 <= i < |x| :: Payload(x[i].event, x[i].prevHash) == Payload(y[i].event, y[i].prevHash)
  }

  lemma VerifiedPrefix(h: Hash, log: seq<Entry>)
    requires Verified(h, log) && log != []
    ensures Verified(h, log[..|log| - 1]) && Linked(h, log, |log| - 1)
  {
    var n := |log| - 1;
    VerifiesIff(h, log);
    assert Findings(h, log[..n]) == [];
    assert Linked(h, log, n);
  }

  lemma LastHashIsDigest(h: Hash, log: seq<Entry>)
    requires Digests(h) && Verified(h, log) && log != []
    ensures IsDigest(log[|log| - 1].entryHash)
  {
    VerifiedPrefix(h, log);
  }

  /** Tamper evidence: two verified logs that end in the same entry hash have the same
      length and the same payload at every position, or they exhibit a hash collision. */
  lemma {:induction false} LastHashDetermines(h: Hash, x: seq<Entry>, y: seq<Entry>)
    requires Digests(h) && Verified(h, x) && Verified(h, y)
    requires LastHash(x) == LastHash(y)
    ensures SamePayloads(x, y) || Collision(h, x, y)
    decreases |x|
  {
    hide Findings, Payload, Digests, IsDigest;
    if x != [] {
      var (m, n) := (|x| - 1, |y| - 1);
      VerifiedPrefix(h, x);
      VerifiedPrefix(h, y);
      if Payload(x[m].event, x[m].prevHash) == Payload(y[n].event, y[n].prevHash) {
        LastPartsAgree(h, x, y);
        LastHashDetermines(h, x[..m], y[..n]);
        Extends(h, x, y);
      }
    }
  }

  lemma Extends(h: Hash, x: seq<Entry>, y: seq<Entry>)
    requires x != [] && y != []
    requires Payload(x[|x| - 1].event, x[|x| - 1].prevHash) == Payload(y[|y| - 1].event, y[|y| - 1].prevHash)
    ensures SamePayloads(x[..|x| - 1], y[..|y| - 1]) ==> SamePayloads(x, y)
    ensures Collision(h, x[..|x| - 1], y[..|y| - 1]) ==> Collision(h, x, y)
  {
    hide Payload;
    var (x', y') := (x[..|x| - 1], y[..|y| - 1]);
    assert forall i | 0 <= i < |x'| :: x[i] == x'[i];
    assert forall j | 0 <= j < |y'| :: y[j] == y'[j];
  }

  /** The previous hash is what follows the last bar of a payload. */
  lemma LastPartsAgree(h: Hash, x: seq<Entry>, y: seq<Entry>)
    requires Digests(h) && Verified(h, x) && Verified(h, y) && x != [] && y != []
    requires Payload(x[|x| - 1].event, x[|x| - 1].prevHash) == Payload(y[|y| - 1].event, y[|y| - 1].prevHash)
    ensures LastHash(x[..|x| - 1]) == LastHash(y[..|y| - 1])
  {
    var (m, n) := (|x| - 1, |y| - 1);
    VerifiedPrefix(h, x);
    VerifiedPrefix(h, y);
    ShownIsPlain(h, x[..m]);
    ShownIsPlain(h, y[..n]);
    PayloadSplits(x[m].event, x[m].prevHash);
    PayloadSplits(y[n].event, y[n].prevHash);
    SplitAtLast(JoinBars(Fields(x[m].event)), Show(x[m].prevHash), JoinBars(Fields(y[n].event)), Show(y[n].prevHash),
        '|');
  }

  lemma ShownIsPlain(h: Hash, log: seq<Entry>)
    requires Digests(h) && Verified(h, log)
    ensures '|' !in Show(LastHash(log))
    ensures LastHash(log).Some? ==> LastHash(log).value != "None"
  {
    if log != [] {
      LastHashIsDigest(h, log);
      DigestIsPlain(log[|log| - 1].entryHash);
    }
  }

  // -------------------------------------------------------------------------- retention

  /** Deleting a non-empty proper prefix of a verified log leaves exactly one finding: the
      first kept entry points at a predecessor that is gone. */
  lemma {:induction false} RetentionFindings(h: Hash, log: seq<Entry>, k: nat)
    requires Verified(h, log) && 0 < k < |log|
    ensures Findings(h, log[k..]) == [PrevHashMismatch(log[k].id, None, Some(log[k - 1].entryHash))]
    decreases |log|
  {
    var n := |log| - 1;
    var kept := log[k..];
    VerifiedPrefix(h, log);
    assert kept[..|kept| - 1] == log[..n][k..] && kept[|kept| - 1] == log[n];
    assert LastHash(log[..n]) == Some(log[n - 1].entryHash);
    if k < n {
      RetentionFindings(h, log[..n], k);
      assert LastHash(kept[..|kept| - 1]) == LastHash(log[..n]);
      assert CheckEntry(h, log[n], LastHash(log[..n])) == [];
    } else {
      assert kept[..|kept| - 1] == [];
    }
  }

  /** However many entries are appended after a retention run, that one finding stays the
      only one. */
  lemma RetentionThenAppends(h: Hash, log: seq<Entry>, k: nat, es: seq<(nat, Event)>)
    requires Verified(h, log) && 0 < k < |log|
    ensures Findings(h, AppendAll(h, log[k..], es)) == [PrevHashMismatch(log[k].id, None, Some(log[k - 1].entryHash))]
  {
    RetentionFindings(h, log, k);
    AppendsKeepFindings(h, log[k..], es);
  }

  // ----------------------------------------------------- what a payload says of its fields

  predicate Plain(s: string) { '|' !in s }

  predicate AllPlain(ss: seq<string>) { forall i | 0 <= i < |ss| :: Plain(ss[i]) }

  /** A text cut at every bar. */
  function Cut(s: string): (ps: seq<string>)
    ensures ps != []
  {
    if s == [] then [[]]
    else
      var rest := Cut(s[1..]);
      if s[0] == '|' then [[]] + rest else [[s[0]] + rest[0]] + rest[1..]
  }

  /** All the pieces of a list of fields, end to end. */
  function Pieces(fs: seq<string>): (ps: seq<string>)
    ensures fs != [] ==> ps != []
  {
    if fs == [] then [] else Pieces(fs[..|fs| - 1]) + Cut(fs[|fs| - 1])
  }

  lemma {:induction false} JoinConcat(a: seq<string>, b: seq<string>)
    requires a != [] && b != []
    ensures JoinBars(a + b) == JoinBars(a) + ['|'] + JoinBars(b)
    decreases |b|
  {
    var n := |b| - 1;
    assert (a + b)[..|a| + n] == a + b[..n];
    if n == 0 {
      assert a + b[..n] == a;
    } else {
      JoinConcat(a, b[..n]);
    }
  }

  lemma {:induction false} JoinCut(s: string)
    ensures JoinBars(Cut(s)) == s && AllPlain(Cut(s))
  {
    if s != [] {
      var rest := Cut(s[1..]);
      JoinCut(s[1..]);
      if s[0] == '|' {
        JoinConcat([[]], rest);
      } else {
        Prepend(s[0], rest);
      }
    }
  }

  lemma Prepend(c: char, ps: seq<string>)
    requires ps != []
    ensures JoinBars([[c] + ps[0]] + ps[1..]) == [c] + JoinBars(ps)
  {
    if |ps| > 1 {
      JoinConcat([ps[0]], ps[1..]);
      JoinConcat([[c] + ps[0]], ps[1..]);
      assert [ps[0]] + ps[1..] == ps;
    }
  }

  lemma {:induction false} JoinPieces(fs: seq<string>)
    requires fs != []
    ensures JoinBars(Pieces(fs)) == JoinBars(fs) && AllPlain(Pieces(fs))
  {
    var n := |fs| - 1;
    JoinCut(fs[n]);
    if n == 0 {
      assert Pieces(fs) == Cut(fs[n]);
    } else {
      JoinPieces(fs[..n]);
      JoinConcat(Pieces(fs[..n]), Cut(fs[n]));
    }
  }

  lemma {:induction false} JoinBarsInjective(a: seq<string>, b: seq<string>)
    requires a != [] && b != [] && AllPlain(a) && AllPlain(b) && JoinBars(a) == JoinBars(b)
    ensures a == b
  {
    var m, n := |a| - 1, |b| - 1;
    BarsShow(a);
    BarsShow(b);
    if m > 0 {
      SplitAtLast(JoinBars(a[..m]), a[m], JoinBars(b[..n]), b[n], '|');
      JoinBarsInjective(a[..m], b[..n]);
      assert a == a[..m] + [a[m]] && b == b[..n] + [b[n]];
    }
  }

  lemma BarsShow(ps: seq<string>)
    requires ps != [] && AllPlain(ps)
    ensures '|' in JoinBars(ps) <==> |ps| > 1
  {
    if |ps| > 1 {
      assert JoinBars(ps)[|JoinBars(ps[..|ps| - 1])|] == '|';
    }
  }

  lemma SamePrefix(x: string, y: string, tail: string)
    ensures x + tail == y + tail <==> x == y
  {
    if x + tail == y + tail {
      assert x == (x + tail)[..|x|] && y == (y + tail)[..|y|];
    }
  }

  /** Exactly when two events have one payload: their shown fields, cut at every bar and laid
      end to end, are the same pieces. */
  lemma SamePayloadIff(d: Event, e: Event, prevHash: Option<string>)
    ensures Payload(d, prevHash) == Payload(e, prevHash) <==> Pieces(Fields(d)) == Pieces(Fields(e))
  {
    hide JoinBars, Pieces, Fields;
    PayloadSplits(d, prevHash);
    PayloadSplits(e, prevHash);
    var x, y, tail := JoinBars(Fields(d)), JoinBars(Fields(e)), ['|'] + Show(prevHash);
    assert Payload(d, prevHash) == x + tail && Payload(e, prevHash) == y + tail;
    SamePrefix(x, y, tail);
    JoinPieces(Fields(d));
    JoinPieces(Fields(e));
    if x == y {
      JoinBarsInjective(Pieces(Fields(d)), Pieces(Fields(e)));
    }
  }

  predicate PlainOption(s: Option<string>) { s.Some? ==> Plain(s.value) }

  /** No field contains a bar. The user id cannot. */
  predicate PlainEvent(e: Event) {
    && Plain(e.eventType) && PlainOption(e.agentId) && PlainOption(e.resource) && Plain(e.action)
    && PlainOption(e.metadataJson) && PlainOption(e.ipAddress) && Plain(e.timestamp)
  }

  /** A text that spells "None" is shown as no text is. */
  function Unspelled(s: Option<string>): Option<string> { if s == Some("None") then None else s }

  /** The event as its shown fields tell it. */
  function Shown(e: Event): Event {
    e.(agentId := Unspelled(e.agentId), resource := Unspelled(e.resource),
       metadataJson := Unspelled(e.metadataJson), ipAddress := Unspelled(e.ipAddress))
  }

  lemma SameShow(x: Option<string>, y: Option<string>)
    ensures Show(x) == Show(y) <==> Unspelled(x) == Unspelled(y)
  {}

  lemma SameShowId(x: Option<nat>, y: Option<nat>)
    ensures ShowId(x) == ShowId(y) <==> x == y
  {
    ShowIdPlain(x);
    ShowIdPlain(y);
    if x.Some? && y.Some? && Decimal(x.value) == Decimal(y.value) {
      DecimalInjective(x.value, y.value);
    }
  }

  lemma SameFieldsIff(d: Event, e: Event)
    ensures Fields(d) == Fields(e) <==> Shown(d) == Shown(e)
  {
    SameShowId(d.userId, e.userId);
    SameShow(d.agentId, e.agentId);
    SameShow(d.resource, e.resource);
    SameShow(d.metadataJson, e.metadataJson);
    SameShow(d.ipAddress, e.ipAddress);
    hide Show, ShowId;
    var f, g := Fields(d), Fields(e);
    assert f == g <==> forall i | 0 <= i < 8 :: f[i] == g[i];
    assert f[0] == d.eventType && f[1] == ShowId(d.userId) && f[2] == Show(d.agentId) && f[3] == Show(d.resource);
    assert f[4] == d.action && f[5] == Show(d.metadataJson) && f[6] == Show(d.ipAddress) && f[7] == d.timestamp;
  }

  lemma ShowIdPlain(id: Option<nat>)
    ensures Plain(ShowId(id))
    ensures id.Some? ==> ShowId(id) != "None"
  {
    if id.Some? {
      var d := Decimal(id.value);
      assert IsDigit(d[0]);
    }
  }

  /** For events without bars: one payload means the same event, but for optional texts that
      spell "None". */
  lemma PlainPayloadDeterminesEvent(d: Event, e: Event, prevHash: Option<string>)
    requires PlainEvent(d) && PlainEvent(e)
    ensures Payload(d, prevHash) == Payload(e, prevHash) <==> Shown(d) == Shown(e)
  {
    hide Fields, JoinBars;
    PayloadSplits(d, prevHash);
    PayloadSplits(e, prevHash);
    var x, y, tail := JoinBars(Fields(d)), JoinBars(Fields(e)), ['|'] + Show(prevHash);
    assert Payload(d, prevHash) == x + tail && Payload(e, prevHash) == y + tail;
    SamePrefix(x, y, tail);
    FieldsPlain(d);
    FieldsPlain(e);
    if x == y {
      JoinBarsInjective(Fields(d), Fields(e));
    }
    SameFieldsIff(d, e);
  }

  lemma FieldsPlain(e: Event)
    requires PlainEvent(e)
    ensures AllPlain(Fields(e))
  {
    ShowIdPlain(e.userId);
    assert Plain("None");
  }

  /** Cutting a payload at its bars gives the pieces of its fields, in their order, and then
      those of the previous hash. */
  lemma PayloadReads(e: Event, prevHash: Option<string>)
    ensures Cut(Payload(e, prevHash)) == Pieces(Fields(e) + [Show(prevHash)])
  {
    hide Fields, Pieces, Cut;
    var fs := Fields(e) + [Show(prevHash)];
    JoinPieces(fs);
    JoinCut(Payload(e, prevHash));
    JoinBarsInjective(Cut(Payload(e, prevHash)), Pieces(fs));
  }

  lemma {:induction false} PlainCut(s: string)
    requires Plain(s)
    ensures Cut(s) == [s]
  {
    if s != [] {
      PlainCut(s[1..]);
      assert [s[0]] + s[1..] == s && [s[1..]][1..] == [];
    }
  }

  lemma {:induction false} PlainPieces(fs: seq<string>)
    requires AllPlain(fs)
    ensures Pieces(fs) == fs
  {
    if fs != [] {
      PlainPieces(fs[..|fs| - 1]);
      PlainCut(fs[|fs| - 1]);
    }
  }

  /** So without bars in them a reader gets the nine fields back, each where it belongs. */
  lemma PlainPayloadReads(e: Event, prevHash: Option<string>)
    requires PlainEvent(e) && PlainOption(prevHash)
    ensures var ps := Cut(Payload(e, prevHash));
            && |ps| == 9
            && ps[0] == e.eventType && ps[4] == e.action && ps[7] == e.timestamp
            && ps[1] == (match e.userId case Some(n) => Decimal(n) case None => "None")
            && ps[2] == OrNone(e.agentId) && ps[3] == OrNone(e.resource)
            && ps[5] == OrNone(e.metadataJson) && ps[6] == OrNone(e.ipAddress) && ps[8] == OrNone(prevHash)
  {
    hide JoinBars, Cut, Pieces;
    PayloadReads(e, prevHash);
    FieldsPlain(e);
    assert Plain("None");
    PlainPieces(Fields(e) + [Show(prevHash)]);
  }

  function OrNone(s: Option<string>): string { if s == None then "None" else s.value }

  lemma {:induction false} ChangedOne(h: Hash, log: seq<Entry>, i: nat, x: Entry)
    requires Verified(h, log) && i < |log| && x.prevHash == log[i].prevHash && x.entryHash == log[i].entryHash
    ensures Findings(h, log[i := x]) == CheckEntry(h, x, log[i].prevHash)
    decreases |log|
  {
    hide Payload;
    var n, changed := |log| - 1, log[i := x];
    VerifiedPrefix(h, log);
    if i == n {
      assert changed[..n] == log[..n];
    } else {
      ChangedOne(h, log[..n], i, x);
      assert changed[..n] == log[..n][i := x];
      assert LastHash(changed[..n]) == LastHash(log[..n]);
    }
  }

  /** Tampering with the event of one entry of a verified log gives exactly one finding, at
      that entry, unless the new event has a payload of the same hash. */
  lemma ChangedEventIsFound(h: Hash, log: seq<Entry>, i: nat, e: Event)
    requires Verified(h, log) && i < |log|
    ensures var expected := h(Payload(e, log[i].prevHash));
            Findings(h, log[i := log[i].(event := e)])
            == if expected == log[i].entryHash then [] else [EntryHashMismatch(log[i].id, expected, log[i].entryHash)]
  {
    ChangedOne(h, log, i, log[i].(event := e));
  }

  /** An absent optional text and one that spells "None" give one payload, with no bar
      anywhere. */
  lemma PayloadHidesAbsence(e: Event, prevHash: Option<string>)
    requires e.agentId.None?
    ensures e.(agentId := Some("None")) != e && Payload(e.(agentId := Some("None")), prevHash) == Payload(e, prevHash)
  {
    assert Fields(e.(agentId := Some("None"))) == Fields(e);
  }

  /** And a bar moved between two fields leaves the payload unchanged. */
  lemma PayloadHidesFieldBoundaries(e: Event, prevHash: Option<string>)
    requires e.agentId == Some("a|b") && e.resource == Some("c")
    ensures Payload(e, prevHash) == Payload(e.(agentId := Some("a"), resource := Some("b|c")), prevHash)
  {
    var d := e.(agentId := Some("a"), resource := Some("b|c"));
    PayloadSplits(e, prevHash);
    PayloadSplits(d, prevHash);
    var (f, g) := (Fields(e), Fields(d));
    BarsUnfold(f);
    BarsUnfold(g);
    assert "a|b" + ['|'] + "c" == "a" + ['|'] + "b|c";
  }

  lemma BarsUnfold(f: seq<string>)
    requires |f| == 8
    ensures JoinBars(f)
        == JoinBars(f[..2]) + ['|'] + (f[2] + ['|'] + f[3]) + ['|'] + f[4] + ['|'] + f[5] + ['|'] + f[6] + ['|'] + f[7]
  {
    hide JoinBars;
    var j := JoinBars(f[..2]);
    assert j + ['|'] + f[2] + ['|'] + f[3] == j + ['|'] + (f[2] + ['|'] + f[3]);
    BarsStep(f, 7);
    BarsStep(f, 6);
    BarsStep(f, 5);
    BarsStep(f, 4);
    BarsStep(f, 3);
    BarsStep(f, 2);
    assert f[..8] == f;
  }

  lemma BarsStep(f: seq<string>, n: nat)
    requires 0 < n < |f|
    ensures JoinBars(f[..n + 1]) == JoinBars(f[..n]) + ['|'] + f[n]
  {
    assert f[..n + 1][..n] == f[..n];
  }

  // ------------------------------------------------------------------------- the trail

  class AuditTrail {
    const hash: Hash
    var entries: seq<Entry>
    var nextId: nat

    /** `record_audit_event`, one writer at a time. */
    method RecordAuditEvent(e: Event) returns (entry: Entry)
      modifies this
      ensures entries == Append(hash, old(entries), old(nextId), e) && entry == entries[|entries| - 1]
      ensures Findings(hash, entries) == Findings(hash, old(entries))
    {
      AppendKeepsFindings(hash, entries, nextId, e);
      var prevHash := None;
      if |entries| > 0 {
        prevHash := Some(entries[|entries| - 1].entryHash);
      }
      entry := Entry(nextId, e, prevHash, hash(Payload(e, prevHash)));
      entries := entries + [entry];
      nextId := nextId + 1;
    }

    /** `verify_audit_chain` */
    method VerifyAuditChain() returns (valid: bool, total: nat, errors: seq<Finding>)
      ensures errors == Findings(hash, entries) && total == |entries|
      ensures valid <==> forall i: nat | i < |entries| :: Linked(hash, entries, i)
    {
      errors := [];
      var prevHash := None;
      for i := 0 to |entries|
        invariant errors == Findings(hash, entries[..i])
        invariant prevHash == LastHash(entries[..i])
      {
        assert entries[..i + 1][..i] == entries[..i];
        if entries[i].prevHash != prevHash {
          errors := errors + [PrevHashMismatch(entries[i].id, prevHash, entries[i].prevHash)];
        }
        var expected := hash(Payload(entries[i].event, entries[i].prevHash));
        if entries[i].entryHash != expected {
          errors := errors + [EntryHashMismatch(entries[i].id, expected, entries[i].entryHash)];
        }
        prevHash := Some(entries[i].entryHash);
      }
      assert entries[..|entries|] == entries;
      VerifiesIff(hash, entries);
      valid := |errors| == 0;
      total := |entries|;
    }
  }
}
