/** Envelope encryption of credentials: per-user data keys wrapped under a master key, and
    the operations that replace the master key.

    Authenticated encryption is symbolic: a sealed value opens under the key it was sealed
    with and under no other. Nonces carry no information here and are left out. */
module Envelope {
  import opened Text

  /** A key whose bytes the servers hold, or one that never leaves a key service. */
  datatype Key = Bytes(id: nat) | Service(id: nat)

  datatype Content = Words(text: string) | KeyBytes(key: Key)

  /** An AES-GCM value, or one in the legacy Fernet format. */
  datatype Sealed = Gcm(key: Key, content: Content) | Fernet(key: Key, text: string)

  /** What wraps the data keys: the master key itself, or a key held by an external service. */
  datatype Provider = Local | External(key: Key)

  datatype Settings = Settings(current: Key, previous: Option<Key>, version: int, provider: Provider)

  datatype User = User(dek: Option<Sealed>)

  /** An access token row. `user` is the row number of its owner, if that row exists. */
  datatype Token = Token(user: Option<nat>, username: Sealed, password: Sealed, version: int)

  // ------------------------------------------------------------- sealing and opening

  function Open(k: Key, c: Sealed): Option<Content> {
    if c.Gcm? && c.key == k then Some(c.content) else None
  }

  function OpenText(k: Key, c: Sealed): Option<string> {
    match Open(k, c)
    case Some(Words(text)) => Some(text)
    case _ => None
  }

  function OpenKey(k: Key, c: Sealed): Option<Key> {
    match Open(k, c)
    case Some(KeyBytes(key)) => Some(key)
    case _ => None
  }

  function EncryptCredential(st: Settings, text: string): Sealed { Gcm(st.current, Words(text)) }

  /** Tries the current master key, then the legacy format under the same key. The previous
      master key is never tried. */
  function DecryptCredential(st: Settings, c: Sealed): Option<string> {
    if OpenText(st.current, c).Some? then OpenText(st.current, c)
    else if c.Fernet? && c.key == st.current then Some(c.text)
    else None
  }

  function WrapKey(st: Settings): Key { if st.provider.Local? then st.current else st.provider.key }

  function WrapDek(st: Settings, dek: Key): Sealed { Gcm(WrapKey(st), KeyBytes(dek)) }

  /** Only the local provider falls back on the previous master key. */
  function UnwrapDek(st: Settings, w: Sealed): Option<Key> {
    if OpenKey(WrapKey(st), w).Some? then OpenKey(WrapKey(st), w)
    else if st.provider.Local? && st.previous.Some? then OpenKey(st.previous.value, w)
    else None
  }

  /** None where the source raises: the user's data key does not unwrap. */
  function EncryptForUser(st: Settings, u: User, text: string): Option<Sealed> {
    match u.dek
    case None => Some(EncryptCredential(st, text))
    case Some(w) =>
      match UnwrapDek(st, w)
      case Some(dek) => Some(Gcm(dek, Words(text)))
      case None => None
  }

  function DecryptForUser(st: Settings, u: User, c: Sealed): Option<string> {
    match u.dek
    case None => DecryptCredential(st, c)
    case Some(w) =>
      match UnwrapDek(st, w)
      case None => None
      case Some(dek) => if OpenText(dek, c).Some? then OpenText(dek, c) else DecryptCredential(st, c)
  }

  // ------------------------------------------------------------ what a sealed value is

  /** The data key inside the envelope, whatever wraps it. */
  predicate HasDek(u: User, dek: Key) {
    u.dek.Some? && u.dek.value.Gcm? && u.dek.value.content == KeyBytes(dek)
  }

  predicate WellKept(u: User) {
    u.dek.Some? ==> u.dek.value.Gcm? && u.dek.value.content.KeyBytes?
  }

  predicate DekSealed(u: User, c: Sealed, text: string) {
    u.dek.Some? && c.Gcm? && HasDek(u, c.key) && c.content == Words(text)
  }

  predicate MasterSealed(c: Sealed, m: Key, text: string) {
    c == Gcm(m, Words(text)) || c == Fernet(m, text)
  }

  predicate Unwraps(st: Settings, u: User) {
    u.dek.Some? ==>
      || u.dek.value.key == WrapKey(st)
      || (st.provider.Local? && Some(u.dek.value.key) == st.previous)
  }

  /** Exactly when a credential can be read back: the owner's data key (if there is one)
      unwraps, and the credential is sealed under that data key or under the master key
      that is current now. */
  lemma ReadableIff(st: Settings, u: User, c: Sealed, text: string, m: Key)
    requires WellKept(u) && (DekSealed(u, c, text) || MasterSealed(c, m, text))
    ensures DecryptForUser(st, u, c) == Some(text)
       <==> Unwraps(st, u) && (DekSealed(u, c, text) || MasterSealed(c, st.current, text))
    ensures DecryptForUser(st, u, c).Some? ==> DecryptForUser(st, u, c).value == text
  {}

  /** What a user's own key seals, the same user reads back. */
  lemma UserRoundTrip(st: Settings, u: User, text: string)
    requires WellKept(u)
    ensures EncryptForUser(st, u, text).Some? <==> Unwraps(st, u)
    ensures EncryptForUser(st, u, text).Some? ==>
              var c := EncryptForUser(st, u, text).value;
              && DecryptForUser(st, u, c) == Some(text)
              && (DekSealed(u, c, text) || (u.dek.None? && MasterSealed(c, st.current, text)))
  {}

  // ------------------------------------------------------------------ the operations

  /** The database, the settings of the running servers, a master key that a finished
      `rotate_master_key` has wrapped the data keys under but that is not configured yet, and
      likewise the key of a provider that data keys are being migrated to. */
  datatype World = World(
    settings: Settings,
    users: seq<User>,
    tokens: seq<Token>,
    pending: Option<Key>,
    migrating: Option<Key>)

  function Rewrap(u: User, oldKey: Key, newKey: Key): User {
    match u.dek
    case None => u
    case Some(w) => match OpenKey(oldKey, w) case Some(dek) => User(Some(Gcm(newKey, KeyBytes(dek)))) case None => u
  }

  predicate Opens(u: User, k: Key) { u.dek.Some? ==> OpenKey(k, u.dek.value).Some? }

  predicate AllOpen(users: seq<User>, k: Key) { forall i | 0 <= i < |users| :: Opens(users[i], k) }

  function RewrapAll(users: seq<User>, oldKey: Key, newKey: Key): (r: seq<User>)
    ensures |r| == |users| && forall i | 0 <= i < |users| :: r[i] == Rewrap(users[i], oldKey, newKey)
  {
    if users == [] then []
        else RewrapAll(users[..|users| - 1], oldKey, newKey) + [Rewrap(users[|users| - 1], oldKey, newKey)]
  }

  predicate Stale(st: Settings, t: Token) { t.version < st.version }

  function Owner(users: seq<User>, t: Token): Option<User> {
    if t.user.Some? && t.user.value < |users| then Some(users[t.user.value]) else None
  }

  /** One round of the loop in `re_encrypt_tokens`: None where the token is skipped. */
  function ReEncrypted(st: Settings, users: seq<User>, t: Token): Option<Token> {
    match Owner(users, t)
    case None => None
    case Some(u) =>
      if u.dek.None? then None
      else
        match (DecryptForUser(st, u, t.username), DecryptForUser(st, u, t.password))
        case (Some(name), Some(pass)) =>
          (match (EncryptForUser(st, u, name), EncryptForUser(st, u, pass))
           case (Some(x), Some(y)) => Some(Token(t.user, x, y, st.version))
           case _ => None)
        case _ => None
  }

  /** Which rows a batch query may return: different stale ones, as many as there are up to
      the batch size. */
  ghost predicate Fetched(st: Settings, tokens: seq<Token>, rows: seq<nat>, batch: nat) {
    && (forall i | 0 <= i < |rows| :: rows[i] < |tokens| && Stale(st, tokens[rows[i]]))
    && (forall i, j | 0 <= i < j < |rows| :: rows[i] != rows[j])
    && |rows| == if StaleCount(st, tokens) < batch then StaleCount(st, tokens) else batch
  }

  function StaleCount(st: Settings, tokens: seq<Token>): nat {
    if tokens == [] then 0
    else StaleCount(st, tokens[..|tokens| - 1]) + if Stale(st, tokens[|tokens| - 1]) then 1 else 0
  }

  function AfterRow(st: Settings, users: seq<User>, tokens: seq<Token>, row: nat): seq<Token>
    requires row < |tokens|
  {
    match ReEncrypted(st, users, tokens[row])
    case Some(t) => tokens[row := t]
    case None => tokens
  }

  function AfterRows(st: Settings, users: seq<User>, tokens: seq<Token>, rows: seq<nat>): (r: seq<Token>)
    requires forall i | 0 <= i < |rows| :: rows[i] < |tokens|
    ensures |r| == |tokens|
    decreases |rows|
  {
    if rows == [] then tokens
    else AfterRow(st, users, AfterRows(st, users, tokens, rows[..|rows| - 1]), rows[|rows| - 1])
  }

  datatype Step =
    | AddUser
    | EnsureDek(user: nat, dek: Key)
    | StoreToken(user: nat, name: string, pass: string)
    | Rotate(newKey: Key)
    | SwitchKey
    | ReEncrypt(rows: seq<nat>, batch: nat)
    | MigrateKms(target: Key, failing: set<nat>)
    | SwitchProvider

  ghost predicate Enabled(w: World, step: Step) {
    match step
    case AddUser => true
    case EnsureDek(u, _) => u < |w.users|
    case StoreToken(u, _, _) => u < |w.users|
    case Rotate(newKey) => w.pending.None? && w.migrating.None? && newKey.Bytes?
    case SwitchKey => w.pending.Some?
    case ReEncrypt(rows, batch) => Fetched(w.settings, w.tokens, rows, batch)
    case MigrateKms(target, _) =>
      && w.pending.None? && target.Service? && target != WrapKey(w.settings)
      && (w.migrating.Some? ==> w.migrating.value == target)
    case SwitchProvider => w.migrating.Some?
  }

  function RotateUsers(users: seq<User>, oldKey: Key, newKey: Key): Option<seq<User>> {
    if AllOpen(users, oldKey) then Some(RewrapAll(users, oldKey, newKey)) else None
  }

  /** One round of the KMS migration: skipped if the source provider cannot unwrap the data
      key, rolled back if the target provider fails to wrap it. */
  function Migrated(u: User, source: Key, target: Key, wrapFails: bool): User {
    if wrapFails then u else Rewrap(u, source, target)
  }

  function MigrateAll(users: seq<User>, source: Key, target: Key, failing: set<nat>): (r: seq<User>)
    ensures |r| == |users| && forall i | 0 <= i < |users| :: r[i] == Migrated(users[i], source, target, i in failing)
  {
    seq(|users|, i requires 0 <= i < |users| => Migrated(users[i], source, target, i in failing))
  }

  /** A rotation that meets a data key it cannot open raises before it commits. `SwitchKey`
      and `SwitchProvider` are the operator's part: the new key becomes current, the old one
      previous; or the new provider is configured. */
  ghost function Next(w: World, step: Step): World
    requires Enabled(w, step)
  {
    match step
    case AddUser => w.(users := w.users + [User(None)])
    case EnsureDek(u, dek) =>
      if w.users[u].dek.Some? then w else w.(users := w.users[u := User(Some(WrapDek(w.settings, dek)))])
    case StoreToken(u, name, pass) =>
      (match (EncryptForUser(w.settings, w.users[u], name), EncryptForUser(w.settings, w.users[u], pass))
       case (Some(x), Some(y)) => w.(tokens := w.tokens + [Token(Some(u), x, y, w.settings.version)])
       case _ => w)
    case Rotate(newKey) =>
      (match RotateUsers(w.users, w.settings.current, newKey)
       case Some(users) => w.(users := users, pending := Some(newKey))
       case None => w)
    case SwitchKey =>
      w.(settings := Settings(w.pending.value, Some(w.settings.current), w.settings.version + 1, w.settings.provider),
         pending := None)
    case ReEncrypt(rows, _) => w.(tokens := AfterRows(w.settings, w.users, w.tokens, rows))
    case MigrateKms(target, failing) =>
      w.(users := MigrateAll(w.users, WrapKey(w.settings), target, failing), migrating := Some(target))
    case SwitchProvider =>
      w.(settings := w.settings.(provider := External(w.migrating.value)), migrating := None)
  }

  // ------------------------------------------------------------ plaintexts survive runs

  /** What was entrusted to each token: its owner's user name and password. */
  type Secrets = seq<(string, string)>

  /** The credential is sealed under its owner's data key or under some master key. */
  ghost predicate Sound(u: User, c: Sealed, text: string) {
    DekSealed(u, c, text) || exists m :: MasterSealed(c, m, text)
  }

  ghost predicate Inv(w: World, secrets: Secrets) {
    && |secrets| == |w.tokens|
    && (forall i | 0 <= i < |w.users| :: WellKept(w.users[i]))
    && (forall i | 0 <= i < |w.tokens| :: Holds(w.users, w.tokens[i], secrets[i]))
  }

  ghost predicate Holds(users: seq<User>, t: Token, secret: (string, string)) {
    && t.user.Some? && t.user.value < |users|
    && Sound(users[t.user.value], t.username, secret.0)
    && Sound(users[t.user.value], t.password, secret.1)
  }

  /** The secrets after a step: a stored token adds its own. */
  ghost function SecretsAfter(w: World, secrets: Secrets, step: Step): Secrets
    requires Enabled(w, step)
  {
    if step.StoreToken? && |Next(w, step).tokens| > |w.tokens| then secrets + [(step.name, step.pass)] else secrets
  }

  lemma RewrapKeepsDek(u: User, oldKey: Key, newKey: Key)
    requires WellKept(u)
    ensures WellKept(Rewrap(u, oldKey, newKey))
    ensures forall dek :: HasDek(Rewrap(u, oldKey, newKey), dek) <==> HasDek(u, dek)
    ensures u.dek.Some? && Opens(u, oldKey) ==>
        Rewrap(u, oldKey, newKey).dek.Some? && Rewrap(u, oldKey, newKey).dek.value.key == newKey
    ensures u.dek.None? || u.dek.value.key != oldKey ==> Rewrap(u, oldKey, newKey) == u
  {}

  /** Re-encryption keeps the plaintext and leaves the token sealed under the data key. */
  lemma ReEncryptedSound(st: Settings, users: seq<User>, t: Token, secret: (string, string))
    requires Holds(users, t, secret) && WellKept(users[t.user.value])
    ensures ReEncrypted(st, users, t).Some? ==>
              var r := ReEncrypted(st, users, t).value;
              && Holds(users, r, secret) && r.version == st.version
              && DekSealed(users[t.user.value], r.username, secret.0)
              && DekSealed(users[t.user.value], r.password, secret.1)
  {
    var u := users[t.user.value];
    if ReEncrypted(st, users, t).Some? {
      SoundReads(st, u, t.username, secret.0);
      SoundReads(st, u, t.password, secret.1);
      UserRoundTrip(st, u, secret.0);
      UserRoundTrip(st, u, secret.1);
    }
  }

  lemma SoundReads(st: Settings, u: User, c: Sealed, text: string)
    requires WellKept(u) && Sound(u, c, text)
    ensures DecryptForUser(st, u, c).Some? ==> DecryptForUser(st, u, c) == Some(text)
  {
    if DekSealed(u, c, text) {
      ReadableIff(st, u, c, text, Bytes(0));
    } else {
      var m :| MasterSealed(c, m, text);
      ReadableIff(st, u, c, text, m);
    }
  }

  lemma {:induction false} AfterRowsHold(st: Settings, users: seq<User>, tokens: seq<Token>, rows: seq<nat>,
      secrets: Secrets)
    requires forall i | 0 <= i < |rows| :: rows[i] < |tokens|
    requires |secrets| == |tokens| && forall i | 0 <= i < |tokens| :: Holds(users, tokens[i], secrets[i])
    requires forall i | 0 <= i < |users| :: WellKept(users[i])
    ensures forall i | 0 <= i < |tokens| :: Holds(users, AfterRows(st, users, tokens, rows)[i], secrets[i])
    decreases |rows|
  {
    if rows != [] {
      var init := rows[..|rows| - 1];
      AfterRowsHold(st, users, tokens, init, secrets);
      var row := rows[|rows| - 1];
      ReEncryptedSound(st, users, AfterRows(st, users, tokens, init)[row], secrets[row]);
    }
  }

  lemma HoldsUnder(users: seq<User>, users': seq<User>, t: Token, secret: (string, string))
    requires Holds(users, t, secret) && |users'| >= |users|
    requires forall i | 0 <= i < |users| :: forall dek :: HasDek(users[i], dek) ==> HasDek(users'[i], dek)
    ensures Holds(users', t, secret)
  {
    var u, u' := users[t.user.value], users'[t.user.value];
    assert forall c: Sealed, text :: DekSealed(u, c, text) ==> DekSealed(u', c, text);
  }

  lemma InvStep(w: World, secrets: Secrets, step: Step)
    requires Inv(w, secrets) && Enabled(w, step)
    ensures Inv(Next(w, step), SecretsAfter(w, secrets, step))
  {
    var w' := Next(w, step);
    match step {
      case AddUser =>
        forall i | 0 <= i < |w.tokens| ensures Holds(w'.users, w.tokens[i], secrets[i]) {
          HoldsUnder(w.users, w'.users, w.tokens[i], secrets[i]);
        }
      case EnsureDek(u, dek) =>
        forall i | 0 <= i < |w.tokens| ensures Holds(w'.users, w.tokens[i], secrets[i]) {
          HoldsUnder(w.users, w'.users, w.tokens[i], secrets[i]);
        }
      case StoreToken(u, name, pass) =>
        UserRoundTrip(w.settings, w.users[u], name);
        UserRoundTrip(w.settings, w.users[u], pass);
      case Rotate(newKey) => InvRotate(w, secrets, newKey);
      case SwitchKey =>
      case ReEncrypt(rows, _) => AfterRowsHold(w.settings, w.users, w.tokens, rows, secrets);
      case MigrateKms(target, failing) => InvMigrate(w, secrets, target, failing);
      case SwitchProvider =>
    }
  }

  lemma InvRotate(w: World, secrets: Secrets, newKey: Key)
    requires Inv(w, secrets) && Enabled(w, Rotate(newKey))
    ensures Inv(Next(w, Rotate(newKey)), secrets)
  {
    var w' := Next(w, Rotate(newKey));
    if AllOpen(w.users, w.settings.current) {
      forall i | 0 <= i < |w.users|
        ensures WellKept(w'.users[i])
        ensures forall dek :: HasDek(w'.users[i], dek) <==> HasDek(w.users[i], dek)
      {
        assert Opens(w.users[i], w.settings.current);
        RewrapKeepsDek(w.users[i], w.settings.current, newKey);
      }
      forall i | 0 <= i < |w.tokens|
        ensures Holds(w'.users, w'.tokens[i], secrets[i])
      {
        HoldsUnder(w.users, w'.users, w.tokens[i], secrets[i]);
      }
    }
  }

  /** A rotation goes through exactly when every data key is under the current master key;
      then every one is under the new key, with its value kept. Otherwise nothing changes. */
  lemma RotationRewraps(w: World, secrets: Secrets, newKey: Key)
    requires Inv(w, secrets) && Enabled(w, Rotate(newKey))
    ensures var t := Next(w, Rotate(newKey));
            if forall i | 0 <= i < |w.users| && w.users[i].dek.Some? :: w.users[i].dek.value.key == w.settings.current
            then
              && t == w.(users := t.users, pending := Some(newKey)) && |t.users| == |w.users|
              && forall i | 0 <= i < |w.users| ::
                   && (t.users[i].dek.Some? <==> w.users[i].dek.Some?)
                   && (t.users[i].dek.Some? ==>
                         && t.users[i].dek.value.key == newKey
                         && forall dek :: HasDek(t.users[i], dek) <==> HasDek(w.users[i], dek))
            else t == w
  {
    forall i | 0 <= i < |w.users|
      ensures Opens(w.users[i], w.settings.current)
         <==> (w.users[i].dek.Some? ==> w.users[i].dek.value.key == w.settings.current)
    {
      assert WellKept(w.users[i]);
    }
    if AllOpen(w.users, w.settings.current) {
      forall i | 0 <= i < |w.users|
        ensures var u, v := w.users[i], Rewrap(w.users[i], w.settings.current, newKey);
                && (v.dek.Some? <==> u.dek.Some?)
                && (v.dek.Some? ==> v.dek.value.key == newKey)
                && forall dek :: HasDek(v, dek) <==> HasDek(u, dek)
      {
        assert WellKept(w.users[i]) && Opens(w.users[i], w.settings.current);
        RewrapKeepsDek(w.users[i], w.settings.current, newKey);
      }
    }
  }

  lemma InvMigrate(w: World, secrets: Secrets, target: Key, failing: set<nat>)
    requires Inv(w, secrets) && Enabled(w, MigrateKms(target, failing))
    ensures Inv(Next(w, MigrateKms(target, failing)), secrets)
  {
    var w' := Next(w, MigrateKms(target, failing));
    forall i | 0 <= i < |w.users|
      ensures WellKept(w'.users[i])
      ensures forall dek :: HasDek(w'.users[i], dek) <==> HasDek(w.users[i], dek)
    {
      RewrapKeepsDek(w.users[i], WrapKey(w.settings), target);
    }
    forall i | 0 <= i < |w.tokens|
      ensures Holds(w'.users, w'.tokens[i], secrets[i])
    {
      HoldsUnder(w.users, w'.users, w.tokens[i], secrets[i]);
    }
  }

  ghost predicate Run(w: World, secrets: Secrets, steps: seq<Step>, w': World, secrets': Secrets)
    decreases |steps|
  {
    if steps == [] then w == w' && secrets == secrets'
    else Enabled(w, steps[0]) && Run(Next(w, steps[0]), SecretsAfter(w, secrets, steps[0]), steps[1..], w', secrets')
  }

  lemma {:induction false} InvRun(w: World, secrets: Secrets, steps: seq<Step>, w': World, secrets': Secrets)
    requires Inv(w, secrets) && Run(w, secrets, steps, w', secrets')
    ensures Inv(w', secrets')
    decreases |steps|
  {
    if steps != [] {
      InvStep(w, secrets, steps[0]);
      InvRun(Next(w, steps[0]), SecretsAfter(w, secrets, steps[0]), steps[1..], w', secrets');
    }
  }

  /** Plaintexts survive every run of key creation, storing, rotation, migration, switching
      and re-encryption: in any reached state a credential reads back as what was stored
      exactly when its owner's data key (if there is one) unwraps and the credential is
      sealed under it or under the current master key; and none ever reads back as anything
      else. */
  lemma PlaintextsSurvive(st: Settings, steps: seq<Step>, w: World, secrets: Secrets, i: nat)
    requires Run(World(st, [], [], None, None), [], steps, w, secrets) && i < |w.tokens|
    ensures |secrets| == |w.tokens|
    ensures var t := w.tokens[i];
      && t.user.Some? && t.user.value < |w.users|
      && Reads(w, w.users[t.user.value], t.username, secrets[i].0)
      && Reads(w, w.users[t.user.value], t.password, secrets[i].1)
  {
    InvRun(World(st, [], [], None, None), [], steps, w, secrets);
    var t := w.tokens[i];
    assert Holds(w.users, t, secrets[i]);
    var u := w.users[t.user.value];
    assert WellKept(u);
    ReadsSound(w, u, t.username, secrets[i].0);
    ReadsSound(w, u, t.password, secrets[i].1);
  }

  ghost predicate Reads(w: World, u: User, c: Sealed, text: string) {
    var d := DecryptForUser(w.settings, u, c);
    && (d.Some? ==> d.value == text)
    && (d.Some? <==> Unwraps(w.settings, u) && (DekSealed(u, c, text) || MasterSealed(c, w.settings.current, text)))
  }

  /** Every data key has been migrated to the target. */
  predicate MigrationComplete(w: World)
    requires w.migrating.Some?
  {
    forall i | 0 <= i < |w.users| && w.users[i].dek.Some? :: w.users[i].dek.value.key == w.migrating.value
  }

  /** Data keys are under the key that wraps now or, locally, under the previous master key;
      between a rotation and the switch, under the current or the coming master key; during a
      migration some are under the target already. */
  predicate EnvelopeKnown(w: World, u: User) {
    u.dek.Some? ==>
      var k := Some(u.dek.value.key);
      || k == Some(WrapKey(w.settings))
      || (w.settings.provider.Local? && k == if w.pending.Some? then w.pending else w.settings.previous)
      || (w.migrating.Some? && k == w.migrating)
  }

  predicate Proper(st: Settings) { st.current.Bytes? && (st.provider.External? ==> st.provider.key.Service?) }

  ghost predicate AllKnown(w: World) {
    && Proper(w.settings)
    && (w.pending.Some? ==> w.pending.value.Bytes?)
    && (w.migrating.Some? ==> w.migrating.value.Service?)
    && (forall i | 0 <= i < |w.users| :: EnvelopeKnown(w, w.users[i]))
    && (w.pending.Some? ==> w.migrating.None?)
  }

  /** A new provider is configured only when every data key has been migrated to it. */
  ghost predicate Careful(w: World, steps: seq<Step>)
    decreases |steps|
  {
    steps != [] ==>
      && Enabled(w, steps[0])
      && (steps[0].SwitchProvider? ==> MigrationComplete(w))
      && Careful(Next(w, steps[0]), steps[1..])
  }

  lemma KnownStep(w: World, step: Step)
    requires AllKnown(w) && Enabled(w, step) && (step.SwitchProvider? ==> MigrationComplete(w))
    ensures AllKnown(Next(w, step))
  {
    if step.Rotate? && AllOpen(w.users, w.settings.current) {
      assert forall i | 0 <= i < |w.users| :: Opens(w.users[i], w.settings.current);
    }
  }

  lemma {:induction false} KnownRun(w: World, secrets: Secrets, steps: seq<Step>, w': World, secrets': Secrets)
    requires AllKnown(w) && Run(w, secrets, steps, w', secrets') && Careful(w, steps)
    ensures AllKnown(w')
    decreases |steps|
  {
    hide AllKnown, Next;
    if steps != [] {
      KnownStep(w, steps[0]);
      KnownRun(Next(w, steps[0]), SecretsAfter(w, secrets, steps[0]), steps[1..], w', secrets');
    }
  }

  /** On such runs every data key unwraps, in any state outside the window between a rotation
      and the switch and outside a migration; so what is sealed under a data key can always
      be read there. */
  lemma DataKeysUnwrap(st: Settings, steps: seq<Step>, w: World, secrets: Secrets, u: nat)
    requires Run(World(st, [], [], None, None), [], steps, w, secrets) && Careful(World(st, [], [], None, None), steps)
    requires Proper(st) && u < |w.users| && w.pending.None? && w.migrating.None?
    ensures Unwraps(w.settings, w.users[u])
  {
    KnownRun(World(st, [], [], None, None), [], steps, w, secrets);
  }

  /** The care is needed: configuring the new provider leaves every data key readable exactly
      when the migration was complete. */
  lemma SwitchProviderIff(w: World)
    requires w.migrating.Some?
    ensures MigrationComplete(w)
       <==> forall i | 0 <= i < |w.users| :: Unwraps(Next(w, SwitchProvider).settings, w.users[i])
  {}

  /** And the migration script reports success without it: a data key that is readable under
      the previous master key is skipped, not failed, and lost with the switch. */
  lemma SkippedDataKeyIsLost(w: World, u: nat, target: Key)
    requires Enabled(w, MigrateKms(target, {})) && w.settings.provider.Local? && u < |w.users|
    requires w.users[u].dek.Some? && WellKept(w.users[u])
    requires Some(w.users[u].dek.value.key) == w.settings.previous
    requires w.users[u].dek.value.key != w.settings.current && w.users[u].dek.value.key != target
    ensures Unwraps(w.settings, w.users[u])
    ensures var w1 := Next(w, MigrateKms(target, {}));
            var w2 := Next(w1, SwitchProvider);
            w2.users[u] == w.users[u] && !Unwraps(w2.settings, w2.users[u])
  {}

  lemma ReadsSound(w: World, u: User, c: Sealed, text: string)
    requires WellKept(u) && Sound(u, c, text)
    ensures Reads(w, u, c, text)
  {
    if DekSealed(u, c, text) {
      ReadableIff(w.settings, u, c, text, Bytes(0));
    } else {
      var m :| MasterSealed(c, m, text);
      ReadableIff(w.settings, u, c, text, m);
    }
  }

  /** A data key created between a rotation and the switch is still under the old key
      afterwards. It stays readable, but the next rotation meets it and aborts. */
  lemma LateDekBlocksNextRotation(w: World, u: nat, dek: Key, next: Key)
    requires u < |w.users| && w.users[u].dek.None? && w.pending.Some? && w.pending.value != w.settings.current
    requires w.settings.provider.Local? && w.migrating.None? && next.Bytes?
    ensures
      var w1 := Next(w, EnsureDek(u, dek));
      var w2 := Next(w1, SwitchKey);
      UnwrapDek(w2.settings, w2.users[u].dek.value) == Some(dek) && Next(w2, Rotate(next)) == w2
  {
    var w2 := Next(Next(w, EnsureDek(u, dek)), SwitchKey);
    assert !Opens(w2.users[u], w2.settings.current);
  }

  lemma {:induction false} RunSnoc(w: World, secrets: Secrets, steps: seq<Step>, w': World, secrets': Secrets, x: Step)
    requires Run(w, secrets, steps, w', secrets') && Enabled(w', x) && !x.StoreToken?
    ensures Run(w, secrets, steps + [x], Next(w', x), secrets')
    decreases |steps|
  {
    hide Next;
    if steps == [] {
      assert [] + [x] == [x] && [x][1..] == [];
    } else {
      assert (steps + [x])[1..] == steps[1..] + [x];
      RunSnoc(Next(w, steps[0]), SecretsAfter(w, secrets, steps[0]), steps[1..], w', secrets', x);
    }
  }

  /** Such a data key is reached from an empty database: after the switch it is under the
      previous master key, which the next rotation cannot open and a migration skips. */
  lemma LateDekReached(st: Settings, next: Key, dek: Key) returns (steps: seq<Step>, w: World)
    requires st.provider.Local? && st.current.Bytes? && next.Bytes? && next != st.current
    ensures Run(World(st, [], [], None, None), [], steps, w, [])
    ensures w.users == [User(Some(Gcm(st.current, KeyBytes(dek))))]
    ensures w.settings.previous == Some(st.current) && w.settings.current == next && w.settings.provider.Local?
    ensures w.pending.None? && w.migrating.None? && Unwraps(w.settings, w.users[0]) && !Opens(w.users[0], next)
  {
    hide Run;
    var w0 := World(st, [], [], None, None);
    NoSteps(w0);
    RunSnoc(w0, [], [], w0, [], AddUser);
    var w1 := Next(w0, AddUser);
    assert w1.users == [User(None)];
    RunSnoc(w0, [], [] + [AddUser], w1, [], Rotate(next));
    var w2 := Next(w1, Rotate(next));
    assert w2.users == [User(None)] && w2.pending == Some(next);
    RunSnoc(w0, [], [] + [AddUser] + [Rotate(next)], w2, [], EnsureDek(0, dek));
    var w3 := Next(w2, EnsureDek(0, dek));
    RunSnoc(w0, [], [] + [AddUser] + [Rotate(next)] + [EnsureDek(0, dek)], w3, [], SwitchKey);
    steps := [] + [AddUser] + [Rotate(next)] + [EnsureDek(0, dek)] + [SwitchKey];
    w := Next(w3, SwitchKey);
  }

  lemma NoSteps(w: World)
    ensures Run(w, [], [], w, [])
  {}

  // ------------------------------------------------------- batches, loops, migration

  lemma {:induction false} StaleCountUpdate(st: Settings, tokens: seq<Token>, row: nat, t: Token)
    requires row < |tokens|
    ensures StaleCount(st, tokens[row := t])
         == StaleCount(st, tokens) - (if Stale(st, tokens[row]) then 1 else 0) + (if Stale(st, t) then 1 else 0)
  {
    var n := |tokens| - 1;
    var r := tokens[row := t];
    if row == n {
      assert r[..n] == tokens[..n];
    } else {
      StaleCountUpdate(st, tokens[..n], row, t);
      assert r[..n] == tokens[..n][row := t];
    }
  }

  /** Rows of a batch that do get re-encrypted. */
  function Done(st: Settings, users: seq<User>, tokens: seq<Token>, rows: seq<nat>): nat
    requires forall i | 0 <= i < |rows| :: rows[i] < |tokens|
    decreases |rows|
  {
    if rows == [] then 0
    else
      Done(st, users, tokens, rows[..|rows| - 1])
      + (if ReEncrypted(st, users, tokens[rows[|rows| - 1]]).Some? then 1 else 0)
  }

  /** A batch touches no row but its own, and lowers the number of stale tokens by exactly
      the number it reports. */
  lemma {:induction false} BatchLowersStale(st: Settings, users: seq<User>, tokens: seq<Token>, rows: seq<nat>)
    requires forall i | 0 <= i < |rows| :: rows[i] < |tokens| && Stale(st, tokens[rows[i]])
    requires forall i, j | 0 <= i < j < |rows| :: rows[i] != rows[j]
    ensures StaleCount(st, AfterRows(st, users, tokens, rows)) == StaleCount(st, tokens) - Done(st, users, tokens, rows)
    ensures forall i | 0 <= i < |tokens| && i !in rows :: AfterRows(st, users, tokens, rows)[i] == tokens[i]
    decreases |rows|
  {
    if rows != [] {
      var init, row := rows[..|rows| - 1], rows[|rows| - 1];
      BatchLowersStale(st, users, tokens, init);
      var mid := AfterRows(st, users, tokens, init);
      assert row !in init;
      match ReEncrypted(st, users, tokens[row]) {
        case Some(t) => StaleCountUpdate(st, mid, row, t);
        case None =>
      }
    }
  }

  // -------------------------------------------------------- which tokens a batch renews

  /** The text sealed in a credential, whatever seals it. */
  function Sealing(c: Sealed): Option<string> {
    match c
    case Gcm(_, Words(text)) => Some(text)
    case Fernet(_, text) => Some(text)
    case _ => None
  }

  /** The credential is sealed under the data key of the user, or under the master key. */
  predicate Legible(u: User, c: Sealed, master: Key) {
    Sealing(c).Some? && (c.key == master || (c.Gcm? && HasDek(u, c.key)))
  }

  /** The owner exists and has a data key that unwraps, and both credentials are sealed under
      it or under the current master key. */
  predicate Recoverable(st: Settings, users: seq<User>, t: Token) {
    && t.user.Some? && t.user.value < |users|
    && var u := users[t.user.value];
       && u.dek.Some? && WellKept(u) && Unwraps(st, u)
       && Legible(u, t.username, st.current) && Legible(u, t.password, st.current)
  }

  /** `renewed` is the token under its owner's data key at the current version, texts as before. */
  predicate Renewed(st: Settings, users: seq<User>, t: Token, renewed: Token) {
    && t.user.Some? && t.user.value < |users| && renewed.user == t.user && renewed.version == st.version
    && var u := users[t.user.value];
       && renewed.username.Gcm? && HasDek(u, renewed.username.key) && Sealing(renewed.username) == Sealing(t.username)
       && renewed.password.Gcm? && HasDek(u, renewed.password.key) && Sealing(renewed.password) == Sealing(t.password)
  }

  lemma LegibleIff(st: Settings, u: User, c: Sealed)
    requires u.dek.Some?
    ensures DecryptForUser(st, u, c).Some? <==> WellKept(u) && Unwraps(st, u) && Legible(u, c, st.current)
    ensures DecryptForUser(st, u, c).Some? ==> DecryptForUser(st, u, c) == Sealing(c)
  {}

  /** A token is re-encrypted exactly when it is recoverable, one that is under its owner's
      data key already like any other, and it comes out renewed. */
  lemma ReEncryptedIff(st: Settings, users: seq<User>, t: Token)
    ensures ReEncrypted(st, users, t).Some? <==> Recoverable(st, users, t)
    ensures Recoverable(st, users, t) ==> Renewed(st, users, t, ReEncrypted(st, users, t).value)
  {
    if t.user.Some? && t.user.value < |users| && users[t.user.value].dek.Some? {
      var u := users[t.user.value];
      LegibleIff(st, u, t.username);
      LegibleIff(st, u, t.password);
      hide Unwraps, DecryptForUser, Legible, UnwrapDek;
      if DecryptForUser(st, u, t.username).Some? {
        SealsWithDek(st, u, Sealing(t.username).value);
      }
      if DecryptForUser(st, u, t.password).Some? {
        SealsWithDek(st, u, Sealing(t.password).value);
      }
    }
  }

  lemma SealsWithDek(st: Settings, u: User, text: string)
    requires u.dek.Some? && WellKept(u) && Unwraps(st, u)
    ensures var c := EncryptForUser(st, u, text);
            c.Some? && c.value.Gcm? && HasDek(u, c.value.key) && Sealing(c.value) == Some(text)
  {}

  /** What one batch leaves behind: each recoverable row of it is renewed, every other row is
      as it was. */
  ghost predicate BatchEffect(st: Settings, users: seq<User>, tokens: seq<Token>, rows: seq<nat>, after: seq<Token>) {
    && |after| == |tokens|
    && forall i | 0 <= i < |tokens| ::
         if i in rows && Recoverable(st, users, tokens[i]) then Renewed(st, users, tokens[i], after[i])
         else after[i] == tokens[i]
  }

  ghost function RecoverableRows(st: Settings, users: seq<User>, tokens: seq<Token>, rows: seq<nat>): set<nat> {
    set i | i in rows && i < |tokens| && Recoverable(st, users, tokens[i])
  }

  lemma EffectOfRow(st: Settings, users: seq<User>, tokens: seq<Token>, rows: seq<nat>, mid: seq<Token>, row: nat)
    requires BatchEffect(st, users, tokens, rows, mid) && row < |tokens| && row !in rows
    ensures BatchEffect(st, users, tokens, rows + [row], AfterRow(st, users, mid, row))
  {
    hide Renewed, Recoverable, ReEncrypted;
    var after := AfterRow(st, users, mid, row);
    ReEncryptedIff(st, users, tokens[row]);
    forall i | 0 <= i < |tokens|
      ensures if i in rows + [row] && Recoverable(st, users, tokens[i]) then Renewed(st, users, tokens[i], after[i])
          else after[i] == tokens[i]
    {
      assert i in rows + [row] <==> i in rows || i == row;
    }
  }

  lemma OneMoreRecoverable(st: Settings, users: seq<User>, tokens: seq<Token>, rows: seq<nat>, row: nat)
    requires row < |tokens| && row !in rows
    ensures |RecoverableRows(st, users, tokens, rows + [row])|
         == |RecoverableRows(st, users, tokens, rows)| + if Recoverable(st, users, tokens[row]) then 1 else 0
  {
    hide Recoverable;
    var before, all := RecoverableRows(st, users, tokens, rows), RecoverableRows(st, users, tokens, rows + [row]);
    assert row !in before;
    assert forall i :: i in rows + [row] <==> i in rows || i == row;
    assert all == before + if Recoverable(st, users, tokens[row]) then {row} else {};
  }

  /** A batch renews exactly its recoverable rows, and their number is what it reports. */
  lemma {:induction false} BatchRenews(st: Settings, users: seq<User>, tokens: seq<Token>, rows: seq<nat>)
    requires forall i | 0 <= i < |rows| :: rows[i] < |tokens|
    requires forall i, j | 0 <= i < j < |rows| :: rows[i] != rows[j]
    ensures BatchEffect(st, users, tokens, rows, AfterRows(st, users, tokens, rows))
    ensures Done(st, users, tokens, rows) == |RecoverableRows(st, users, tokens, rows)|
    decreases |rows|
  {
    hide Recoverable, ReEncrypted, BatchEffect, AfterRow;
    if rows == [] {
      NothingRenewed(st, users, tokens);
    } else {
      var init, row := rows[..|rows| - 1], rows[|rows| - 1];
      BatchRenews(st, users, tokens, init);
      assert init + [row] == rows;
      EffectOfRow(st, users, tokens, init, AfterRows(st, users, tokens, init), row);
      OneMoreRecoverable(st, users, tokens, init, row);
      ReEncryptedIff(st, users, tokens[row]);
    }
  }

  lemma NothingRenewed(st: Settings, users: seq<User>, tokens: seq<Token>)
    ensures BatchEffect(st, users, tokens, [], tokens) && |RecoverableRows(st, users, tokens, [])| == 0
  {}

  ghost function StaleRows(st: Settings, tokens: seq<Token>): set<nat> {
    set i: nat | i < |tokens| && tokens[i].version < st.version
  }

  lemma {:induction false} StaleCountIs(st: Settings, tokens: seq<Token>)
    ensures StaleCount(st, tokens) == |StaleRows(st, tokens)|
  {
    if tokens == [] {
      assert StaleRows(st, tokens) == {};
    } else {
      var n := |tokens| - 1;
      StaleCountIs(st, tokens[..n]);
      assert StaleRows(st, tokens) == StaleRows(st, tokens[..n]) + if tokens[n].version < st.version then {n} else {};
    }
  }

  /** No token is ahead of the configured version. */
  ghost predicate VersionsBehind(w: World) {
    forall i | 0 <= i < |w.tokens| :: w.tokens[i].version <= w.settings.version
  }

  lemma VersionsStep(w: World, step: Step)
    requires VersionsBehind(w) && Enabled(w, step)
    ensures VersionsBehind(Next(w, step))
  {
    if step.ReEncrypt? {
      BatchRenews(w.settings, w.users, w.tokens, step.rows);
    }
  }

  lemma {:induction false} VersionsRun(w: World, secrets: Secrets, steps: seq<Step>, w': World, secrets': Secrets)
    requires VersionsBehind(w) && Run(w, secrets, steps, w', secrets')
    ensures VersionsBehind(w')
    decreases |steps|
  {
    hide VersionsBehind, Next;
    if steps != [] {
      VersionsStep(w, steps[0]);
      VersionsRun(Next(w, steps[0]), SecretsAfter(w, secrets, steps[0]), steps[1..], w', secrets');
    }
  }

  /** Configuring a new master key makes every token there is stale, whatever the run before. */
  lemma SwitchMakesStale(st: Settings, steps: seq<Step>, w: World, secrets: Secrets)
    requires Run(World(st, [], [], None, None), [], steps, w, secrets) && w.pending.Some?
    ensures var w1 := Next(w, SwitchKey);
            w1.tokens == w.tokens && StaleCount(w1.settings, w1.tokens) == |w.tokens|
  {
    hide Run;
    VersionsRun(World(st, [], [], None, None), [], steps, w, secrets);
    AllStale(Next(w, SwitchKey).settings, w.tokens);
  }

  lemma {:induction false} AllStale(st: Settings, tokens: seq<Token>)
    requires forall i | 0 <= i < |tokens| :: tokens[i].version < st.version
    ensures StaleCount(st, tokens) == |tokens|
  {
    if tokens != [] {
      AllStale(st, tokens[..|tokens| - 1]);
    }
  }

  /** The data keys keep their values, and migrating again leaves migrated rows alone: two
      passes come to one pass that fails only where both failed. */
  lemma MigrationResumes(u: User, source: Key, target: Key, firstFails: bool, secondFails: bool)
    requires WellKept(u) && source != target
    ensures forall dek :: HasDek(Migrated(u, source, target, firstFails), dek) <==> HasDek(u, dek)
    ensures Migrated(Migrated(u, source, target, firstFails), source, target, secondFails)
         == Migrated(u, source, target, firstFails && secondFails)
    ensures u.dek.Some? && u.dek.value.key == target ==> Migrated(u, source, target, firstFails) == u
    ensures u.dek.Some? && u.dek.value.key == source && !firstFails ==>
              OpenKey(target, Migrated(u, source, target, firstFails).dek.value) == OpenKey(source, u.dek.value)
  {}

  /** The user's data key, if there is one, is wrapped under that key. */
  predicate Under(u: User, k: Key) { u.dek.Some? ==> u.dek.value.key == k }

  /** The rows, up to the n-th, that have a data key. */
  ghost function WithDek(users: seq<User>, n: nat): set<nat>
    requires n <= |users|
  {
    set i: nat | i < n && users[i].dek.Some?
  }

  lemma OneMoreRow(users: seq<User>, n: nat)
    requires n < |users|
    ensures WithDek(users, n + 1) == WithDek(users, n) + (if users[n].dek.Some? then {n} else {})
    ensures |WithDek(users, n + 1)| == |WithDek(users, n)| + if users[n].dek.Some? then 1 else 0
  {
    assert n !in WithDek(users, n);
    assert WithDek(users, n + 1) == WithDek(users, n) + if users[n].dek.Some? then {n} else {};
  }

  /** What becomes of one row of a migration. */
  datatype Migration = NoDek | Rewrapped | Skipped | Failed

  /** Which of them, by what wraps the data key and whether the target wrap fails. */
  predicate Becomes(u: User, source: Key, wrapFails: bool, fate: Migration) {
    match fate
    case NoDek => u.dek.None?
    case Skipped => u.dek.Some? && !Opens(u, source)
    case Failed => u.dek.Some? && Opens(u, source) && wrapFails
    case Rewrapped => u.dek.Some? && Opens(u, source) && !wrapFails
  }

  /** The rows, up to the n-th, with that fate. */
  ghost function RowsWith(users: seq<User>, source: Key, failing: set<nat>, fate: Migration, n: nat): set<nat>
    requires n <= |users|
  {
    set i: nat | i < n && Becomes(users[i], source, i in failing, fate)
  }

  lemma OneMoreFate(users: seq<User>, source: Key, failing: set<nat>, fate: Migration, n: nat)
    requires n < |users|
    ensures |RowsWith(users, source, failing, fate, n + 1)| == |RowsWith(users, source, failing, fate, n)|
         + if Becomes(users[n], source, n in failing, fate) then 1 else 0
  {
    hide Becomes;
    var before := RowsWith(users, source, failing, fate, n);
    assert n !in before;
    assert RowsWith(users, source, failing, fate, n + 1)
        == before + if Becomes(users[n], source, n in failing, fate) then {n} else {};
  }

  lemma NoRowsYet(users: seq<User>, source: Key, failing: set<nat>)
    ensures forall fate :: |RowsWith(users, source, failing, fate, 0)| == 0
  {}

  /** The three counters of a migration add up to the users with data keys. */
  lemma {:induction false} FatesAddUp(users: seq<User>, source: Key, failing: set<nat>, n: nat)
    requires n <= |users|
    ensures |RowsWith(users, source, failing, Rewrapped, n)| + |RowsWith(users, source, failing, Skipped, n)|
          + |RowsWith(users, source, failing, Failed, n)| == |WithDek(users, n)|
  {
    if n > 0 {
      FatesAddUp(users, source, failing, n - 1);
      OneMoreRow(users, n - 1);
      OneMoreFate(users, source, failing, Rewrapped, n - 1);
      OneMoreFate(users, source, failing, Skipped, n - 1);
      OneMoreFate(users, source, failing, Failed, n - 1);
    }
  }

  class Database {
    var settings: Settings
    var users: seq<User>
    var tokens: seq<Token>

    /** `ensure_user_dek` */
    method EnsureUserDek(u: nat, dek: Key)
      requires u < |users|
      modifies this`users
      ensures users == if old(users)[u].dek.Some? then old(users)
          else old(users)[u := User(Some(WrapDek(settings, dek)))]
    {
      if users[u].dek.None? {
        users := users[u := User(Some(WrapDek(settings, dek)))];
      }
    }

    /** `rotate_master_key`: re-wraps every data key, or raises with nothing committed. */
    method RotateMasterKey(oldKey: Key, newKey: Key) returns (count: Option<nat>)
      modifies this`users
      ensures count.Some? <==> AllOpen(old(users), oldKey)
      ensures users == if count.Some? then RewrapAll(old(users), oldKey, newKey) else old(users)
      ensures count.Some? ==> count.value == |WithDek(old(users), |old(users)|)|
    {
      var session := users;
      var n := 0;
      assert WithDek(users, 0) == {};
      hide WithDek;
      for i := 0 to |users|
        invariant |session| == |users| && users == old(users)
        invariant forall k | 0 <= k < i :: Opens(users[k], oldKey) && session[k] == Rewrap(users[k], oldKey, newKey)
        invariant forall k | i <= k < |users| :: session[k] == users[k]
        invariant |WithDek(users, i)| == n
      {
        OneMoreRow(users, i);
        match users[i].dek {
          case None =>
          case Some(w) =>
            match OpenKey(oldKey, w) {
              case None => return None;
              case Some(dek) =>
                session := session[i := User(Some(Gcm(newKey, KeyBytes(dek))))];
                n := n + 1;
            }
        }
      }
      users := session;
      count := Some(n);
    }

    /** The batch query of `re_encrypt_tokens`. */
    method FetchStale(batch: nat) returns (rows: seq<nat>)
      ensures Fetched(settings, tokens, rows, batch)
    {
      rows := [];
      ghost var seen := 0;
      for i := 0 to |tokens|
        invariant forall k | 0 <= k < |rows| :: rows[k] < i && Stale(settings, tokens[rows[k]])
        invariant forall k, l | 0 <= k < l < |rows| :: rows[k] != rows[l]
        invariant |rows| == if StaleCount(settings, tokens[..i]) < batch then StaleCount(settings, tokens[..i])
            else batch
      {
        assert tokens[..i + 1][..i] == tokens[..i];
        if Stale(settings, tokens[i]) && |rows| < batch {
          rows := rows + [i];
        }
      }
      assert tokens[..|tokens|] == tokens;
    }

    /** `re_encrypt_tokens`: of the stale rows that it fetches, exactly the recoverable ones
        are renewed, counted and stale no longer; nothing else changes. */
    method ReEncryptTokens(batch: nat) returns (count: nat, skipped: nat)
      modifies this`tokens
      ensures exists rows ::
        && Fetched(settings, old(tokens), rows, batch)
        && tokens == AfterRows(settings, users, old(tokens), rows)
        && BatchEffect(settings, users, old(tokens), rows, tokens)
        && (forall i | i in rows :: Stale(settings, tokens[i]) <==> !Recoverable(settings, users, old(tokens)[i]))
        && count == |RecoverableRows(settings, users, old(tokens), rows)| && count + skipped == |rows|
      ensures StaleCount(settings, tokens) == StaleCount(settings, old(tokens)) - count
    {
      var rows := FetchStale(batch);
      count, skipped := 0, 0;
      for i := 0 to |rows|
        invariant tokens == AfterRows(settings, users, old(tokens), rows[..i])
        invariant count == Done(settings, users, old(tokens), rows[..i]) && count + skipped == i
      {
        assert rows[..i + 1][..i] == rows[..i];
        BatchLowersStale(settings, users, old(tokens), rows[..i]);
        assert rows[i] !in rows[..i];
        match ReEncrypted(settings, users, tokens[rows[i]]) {
          case Some(t) =>
            tokens := tokens[rows[i] := t];
            count := count + 1;
          case None =>
            skipped := skipped + 1;
        }
      }
      assert rows[..|rows|] == rows;
      BatchLowersStale(settings, users, old(tokens), rows);
      BatchRenews(settings, users, old(tokens), rows);
    }

    /** The loop of the `rotate-key` command. It ends for every batch size from one up, and
        if the last batch skipped nothing then no token is stale. */
    method ReEncryptAll(batch: nat) returns (total: nat, skipped: nat)
      requires batch >= 1
      modifies this`tokens
      ensures StaleCount(settings, tokens) == StaleCount(settings, old(tokens)) - total
      ensures skipped == 0 ==> StaleCount(settings, tokens) == 0
    {
      total := 0;
      while true
        invariant StaleCount(settings, tokens) == StaleCount(settings, old(tokens)) - total
        decreases StaleCount(settings, tokens)
      {
        var count;
        count, skipped := ReEncryptTokens(batch);
        total := total + count;
        if count < batch {
          break;
        }
      }
    }

    /** The per-user loop of the KMS migration script; `failing` are the rows whose target
        wrap or commit fails. Each row is committed on its own. */
    method MigrateToKms(source: Key, target: Key, failing: set<nat>) returns (rewrapped: nat, skipped: nat, failed: nat)
      modifies this`users
      ensures users == MigrateAll(old(users), source, target, failing)
      ensures rewrapped == |RowsWith(old(users), source, failing, Rewrapped, |old(users)|)|
      ensures skipped == |RowsWith(old(users), source, failing, Skipped, |old(users)|)|
      ensures failed == |RowsWith(old(users), source, failing, Failed, |old(users)|)|
      ensures rewrapped + skipped + failed == |WithDek(old(users), |old(users)|)|
      ensures skipped == 0 && failed == 0 ==> forall i | 0 <= i < |users| :: Under(users[i], target)
    {
      rewrapped, skipped, failed := 0, 0, 0;
      hide WithDek, Migrated, Rewrap, OpenKey, Open, Under, Becomes;
      NoRowsYet(users, source, failing);
      hide RowsWith;
      for i := 0 to |users|
        invariant |users| == |old(users)|
        invariant forall k | 0 <= k < i :: users[k] == Migrated(old(users)[k], source, target, k in failing)
        invariant forall k | i <= k < |users| :: users[k] == old(users)[k]
        invariant rewrapped == |RowsWith(old(users), source, failing, Rewrapped, i)|
        invariant skipped == |RowsWith(old(users), source, failing, Skipped, i)|
        invariant failed == |RowsWith(old(users), source, failing, Failed, i)|
        invariant skipped == 0 && failed == 0 ==> forall k | 0 <= k < i :: Under(users[k], target)
      {
        OneMoreFate(old(users), source, failing, Rewrapped, i);
        OneMoreFate(old(users), source, failing, Skipped, i);
        OneMoreFate(old(users), source, failing, Failed, i);
        var done := MigrateRow(i, source, target, i in failing);
        match done {
          case NoDek =>
          case Rewrapped => rewrapped := rewrapped + 1;
          case Skipped => skipped := skipped + 1;
          case Failed => failed := failed + 1;
        }
      }
      FatesAddUp(old(users), source, failing, |users|);
    }

    method MigrateRow(i: nat, source: Key, target: Key, wrapFails: bool) returns (done: Migration)
      requires i < |users|
      modifies this`users
      ensures users == old(users)[i := Migrated(old(users)[i], source, target, wrapFails)]
      ensures forall fate :: Becomes(old(users)[i], source, wrapFails, fate) <==> fate == done
      ensures done.NoDek? || done.Rewrapped? ==> Under(users[i], target)
    {
      match users[i].dek {
        case None => return NoDek;
        case Some(w) =>
          match OpenKey(source, w) {
            case None => return Skipped;
            case Some(dek) =>
              if wrapFails {
                return Failed;
              }
              users := users[i := User(Some(Gcm(target, KeyBytes(dek))))];
              return Rewrapped;
          }
      }
    }
  }

}
