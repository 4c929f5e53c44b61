/** The lock scope of an access job: which requests exclude each other. */
module LockScope {
  import opened Text

  /** A request as `build_lock_scope` receives it. */
  datatype Request = Request(site: string, userId: Option<nat>, principalHint: Option<string>)

  /** Who the request acts for, up to the normalisation the scope applies. */
  datatype Principal = User(id: nat) | Hinted(hint: string) | Anonymous

  function PrincipalOf(r: Request): Principal {
    match r.userId
    case Some(id) => User(id)
    case None =>
      match r.principalHint
      case Some(hint) => if hint != [] then Hinted(Normalise(hint)) else Anonymous
      case None => Anonymous
  }

  /** A hint that names somebody. */
  predicate Hints(r: Request) { r.userId.None? && r.principalHint.Some? && r.principalHint.value != "" }

  /** Two requests act for the same principal exactly when both carry the same user, or
      neither carries a user and their hints are equal up to letter case and edge spaces, or
      both have none. */
  lemma SamePrincipalIff(r: Request, q: Request)
    ensures PrincipalOf(r) == PrincipalOf(q)
       <==> && r.userId == q.userId
            && (Hints(r) <==> Hints(q))
            && (Hints(r) && Hints(q) ==> SameButCase(Strip(r.principalHint.value), Strip(q.principalHint.value)))
  {
    if Hints(r) && Hints(q) {
      NormaliseIff(r.principalHint.value, q.principalHint.value);
    }
  }

  /** The text that `_scope_hash` digests. */
  function HashInput(hint: string, site: string): string {
    Normalise(site) + ":" + Normalise(hint)
  }

  const HASH_CHARS := 16

  function ScopeHash(digest: string -> string, hint: string, site: string): string
    requires |digest(HashInput(hint, site))| >= HASH_CHARS
  {
    digest(HashInput(hint, site))[..HASH_CHARS]
  }

  ghost predicate LongDigests(digest: string -> string) {
    forall s :: |digest(s)| >= HASH_CHARS
  }

  function BuildLockScope(digest: string -> string, r: Request): string
    requires LongDigests(digest)
  {
    var siteKey := Normalise(r.site);
    match r.userId
    case Some(id) => "user:" + Decimal(id) + ":site:" + siteKey
    case None =>
      match r.principalHint
      case Some(hint) =>
        if hint != [] then "principal:" + ScopeHash(digest, hint, siteKey) + ":site:" + siteKey
        else "anonymous:site:" + siteKey
      case None => "anonymous:site:" + siteKey
  }

  /** The digest tells the two hash inputs of these requests apart, if they differ. */
  ghost predicate NoCollision(digest: string -> string, r: Request, q: Request)
    requires LongDigests(digest)
  {
    PrincipalOf(r).Hinted? && PrincipalOf(q).Hinted? ==>
      var x := HashInput(r.principalHint.value, r.site);
      var y := HashInput(q.principalHint.value, q.site);
      digest(x)[..HASH_CHARS] == digest(y)[..HASH_CHARS] ==> x == y
  }

  /** Two requests share a lock scope exactly when they act for the same principal on the
      same site, up to letter case and edge spaces. */
  lemma ScopeSharedIff(digest: string -> string, r: Request, q: Request)
    requires LongDigests(digest) && NoCollision(digest, r, q)
    ensures BuildLockScope(digest, r) == BuildLockScope(digest, q)
       <==> PrincipalOf(r) == PrincipalOf(q) && SameButCase(Strip(r.site), Strip(q.site))
  {
    NormaliseIff(r.site, q.site);
    ScopesTell(digest, r, q);
  }

  lemma ScopesTell(digest: string -> string, r: Request, q: Request)
    requires LongDigests(digest) && NoCollision(digest, r, q)
    ensures BuildLockScope(digest, r) == BuildLockScope(digest, q)
       <==> PrincipalOf(r) == PrincipalOf(q) && Normalise(r.site) == Normalise(q.site)
  {
    NormaliseIdempotent(r.site);
    NormaliseIdempotent(q.site);
    var s := BuildLockScope(digest, r);
    var t := BuildLockScope(digest, q);
    assert PrincipalOf(r).User? ==> s[0] == 'u';
    assert PrincipalOf(r).Hinted? ==> s[0] == 'p';
    assert PrincipalOf(r).Anonymous? ==> s[0] == 'a';
    assert PrincipalOf(q).User? ==> t[0] == 'u';
    assert PrincipalOf(q).Hinted? ==> t[0] == 'p';
    assert PrincipalOf(q).Anonymous? ==> t[0] == 'a';
    if s == t {
      match PrincipalOf(r)
      case User(id) => UserScopes(id, Normalise(r.site), q.userId.value, Normalise(q.site));
      case Hinted(hint) => HintedScopes(digest, r, q);
      case Anonymous =>
        assert s[15..] == Normalise(r.site) && t[15..] == Normalise(q.site);
    }
  }

  lemma UserScopes(id: nat, site: string, id': nat, site': string)
    requires "user:" + Decimal(id) + ":site:" + site == "user:" + Decimal(id') + ":site:" + site'
    ensures id == id' && site == site'
  {
    var d, d' := Decimal(id), Decimal(id');
    UserSuffix(d, site);
    UserSuffix(d', site');
    SplitAtFirst(d, "site:" + site, d', "site:" + site', ':');
    assert ("site:" + site)[5..] == site && ("site:" + site')[5..] == site';
    DecimalInjective(id, id');
  }

  lemma UserSuffix(d: string, site: string)
    ensures ("user:" + d + ":site:" + site)[5..] == d + [':'] + ("site:" + site)
  {
    assert "user:" + d + ":site:" + site == "user:" + (d + [':'] + ("site:" + site));
  }

  lemma HintedScopes(digest: string -> string, r: Request, q: Request)
    requires LongDigests(digest) && NoCollision(digest, r, q)
    requires PrincipalOf(r).Hinted? && PrincipalOf(q).Hinted?
    requires BuildLockScope(digest, r) == BuildLockScope(digest, q)
    ensures PrincipalOf(r) == PrincipalOf(q) && Normalise(r.site) == Normalise(q.site)
  {
    NormaliseIdempotent(r.site);
    NormaliseIdempotent(q.site);
    var x := HashInput(r.principalHint.value, r.site);
    var y := HashInput(q.principalHint.value, q.site);
    var s := BuildLockScope(digest, r);
    var t := BuildLockScope(digest, q);
    assert s[10..26] == digest(x)[..HASH_CHARS] && t[10..26] == digest(y)[..HASH_CHARS];
    assert s[32..] == Normalise(r.site) && t[32..] == Normalise(q.site);
    var k := |Normalise(r.site)| + 1;
    assert x[k..] == Normalise(r.principalHint.value) && y[k..] == Normalise(q.principalHint.value);
  }
}
