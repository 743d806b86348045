/** The per-tenant token cache and the authentication of a reconcile
    (internal/client/oauth_client.go and Authenticate in internal/reconciler/reconciler.go). */
module Tokens {
  import opened Api
  import opened Engine
  import Operator

  const SAFETY_MARGIN: int := 10 * SECOND

  datatype Credentials = Credentials(clientID: string, clientSecret: string)

  /** A token, with the credentials the login that issued it was made with. */
  datatype Token = Token(accessToken: string, expiresIn: int, issuedTo: Credentials)

  datatype CachedToken = CachedToken(token: Token, retrieved: int)

  /** The identity server's answer to a login. */
  datatype Login = Refused | Issued(accessToken: string, expiresIn: int)

  /** The empty tenant shares the entry of the tenant "public". */
  function Slot(tenant: string): string {
    if tenant == "" then "public" else tenant
  }

  function Expiry(c: CachedToken): int {
    c.retrieved + c.token.expiresIn * SECOND
  }

  predicate IsExpired(c: CachedToken, now: int) {
    now > Expiry(c) - SAFETY_MARGIN
  }

  class TokenCache {
    var tokens: map<string, CachedToken>

    constructor ()
      ensures tokens == map[]
    {
      tokens := map[];
    }

    method Get(tenant: string) returns (c: Option<CachedToken>)
      ensures c == if Slot(tenant) in tokens then Some(tokens[Slot(tenant)]) else None
    {
      if tenant == "" {
        return if "public" in tokens then Some(tokens["public"]) else None;
      }
      return if tenant in tokens then Some(tokens[tenant]) else None;
    }

    method Set(tenant: string, token: Token, now: int)
      modifies this
      ensures tokens == old(tokens)[Slot(tenant) := CachedToken(token, now)]
    {
      if tenant == "" {
        tokens := tokens["public" := CachedToken(token, now)];
        return;
      }
      tokens := tokens[tenant := CachedToken(token, now)];
    }
  }

  /** The token a lookup serves: the tenant's entry, unless it is missing or expired. */
  function Served(tokens: map<string, CachedToken>, tenant: string, now: int): string {
    if Slot(tenant) in tokens && !IsExpired(tokens[Slot(tenant)], now)
    then tokens[Slot(tenant)].token.accessToken else ""
  }

  /** The moments at which reconciles can be interleaved: everything else they do here is local
      or under the token manager's lock. */
  datatype Op =
    | Query(tenant: string, now: int)
    | SetCredentials(c: Credentials)
    | Access(tenant: string, now: int, login: Login)

  datatype Store = Store(tokens: map<string, CachedToken>, credentials: Credentials)

  function Do(s: Store, op: Op): Store {
    match op
    case Query(_, _) => s
    case SetCredentials(c) => s.(credentials := c)
    case Access(tenant, now, login) =>
      match login
      case Refused => s
      case Issued(t, e) => s.(tokens := s.tokens[Slot(tenant) := CachedToken(Token(t, e, s.credentials), now)])
  }

  function DoAll(s: Store, ops: seq<Op>): Store {
    if ops == [] then s else Do(DoAll(s, ops[..|ops|-1]), ops[|ops|-1])
  }

  class TokenManager {
    const cache: TokenCache
    var credentials: Credentials

    constructor (credentials: Credentials)
      ensures this.credentials == credentials && fresh(cache) && cache.tokens == map[]
    {
      this.credentials := credentials;
      cache := new TokenCache();
    }

    function State(): Store
      reads this, cache
    {
      Store(cache.tokens, credentials)
    }

    method SetClientIdAndSecret(c: Credentials)
      modifies this
      ensures State() == Do(old(State()), SetCredentials(c))
    {
      credentials := c;
    }

    /** The tenant's cached token exactly until ten seconds before it expires, in nanoseconds. */
    method GetActiveToken(tenant: string, now: int) returns (token: string)
      ensures token == Served(cache.tokens, tenant, now)
      ensures token == var slot := if tenant == "" then "public" else tenant;
                       if slot in cache.tokens &&
                          now <= cache.tokens[slot].retrieved
                                 + cache.tokens[slot].token.expiresIn * 1_000_000_000 - 10_000_000_000
                       then cache.tokens[slot].token.accessToken else ""
    {
      var c := cache.Get(tenant);
      if c.Some? {
        if !IsExpired(c.value, now) {
          return c.value.token.accessToken;
        }
      }
      return "";
    }

    method GetAccessToken(checkCache: bool, tenant: string, now: int, login: Login) returns (token: Option<string>)
      modifies this, cache
      ensures var slot, tokens := if tenant == "" then "public" else tenant, old(cache.tokens);
              if checkCache && slot in tokens &&
                 now <= tokens[slot].retrieved + tokens[slot].token.expiresIn * 1_000_000_000 - 10_000_000_000
              then token == Some(tokens[slot].token.accessToken) && State() == old(State())
              else && State() == Do(old(State()), Access(tenant, now, login))
                   && token == (if login.Issued? then Some(login.accessToken) else None)
    {
      if checkCache {
        var c := cache.Get(tenant);
        if c.Some? {
          if !IsExpired(c.value, now) {
            return Some(c.value.token.accessToken);
          }
        }
      }
      match login
      case Refused => return None;
      case Issued(accessToken, expiresIn) =>
        cache.Set(tenant, Token(accessToken, expiresIn, credentials), now);
        return Some(accessToken);
    }
  }

  /** One authentication: the tenant, the time, Vault's answer (None when Vault is not asked or
      fails) and the identity server's. */
  datatype Attempt = Attempt(tenant: string, now: int, secret: Option<Credentials>, login: Login)

  /** The operations of one authentication that nothing interleaves with. */
  function Ops(s: Store, vaultEnabled: bool, a: Attempt): seq<Op> {
    if Served(s.tokens, a.tenant, a.now) != "" then [Query(a.tenant, a.now)]
    else if !vaultEnabled then [Query(a.tenant, a.now), Access(a.tenant, a.now, a.login)]
    else if a.secret.None? then [Query(a.tenant, a.now)]
    else [Query(a.tenant, a.now), SetCredentials(a.secret.value), Access(a.tenant, a.now, a.login)]
  }

  predicate Succeeds(s: Store, vaultEnabled: bool, a: Attempt) {
    Served(s.tokens, a.tenant, a.now) != "" || ((vaultEnabled ==> a.secret.Some?) && a.login.Issued?)
  }

  class Authenticator {
    const tokenManager: TokenManager
    const helper: Operator.HelperClient
    const vaultEnabled: bool

    constructor (tokenManager: TokenManager, helper: Operator.HelperClient, vaultEnabled: bool)
      ensures this.tokenManager == tokenManager && this.helper == helper && this.vaultEnabled == vaultEnabled
    {
      this.tokenManager, this.helper, this.vaultEnabled := tokenManager, helper, vaultEnabled;
    }

    /** Use the cached token if one is good, else log in, with the tenant's credentials from
        Vault when it is enabled; the token ends up in the HTTP client. */
    method Authenticate(a: Attempt) returns (ok: bool)
      modifies tokenManager, tokenManager.cache, helper`apiToken
      ensures tokenManager.State() == DoAll(old(tokenManager.State()), Ops(old(tokenManager.State()), vaultEnabled, a))
      ensures ok == Succeeds(old(tokenManager.State()), vaultEnabled, a)
      ensures helper.apiToken ==
                var served := Served(old(tokenManager.cache.tokens), a.tenant, a.now);
                if served != "" then served else if ok then a.login.accessToken else old(helper.apiToken)
    {
      ghost var s := tokenManager.State();
      DoAllOne(s, Query(a.tenant, a.now));
      DoAllTwo(s, Query(a.tenant, a.now), Access(a.tenant, a.now, a.login));
      var token := tokenManager.GetActiveToken(a.tenant, a.now);
      if token != "" {
        helper.SetAPIToken(token);
        return true;
      }
      if vaultEnabled {
        if a.secret.None? {
          return false;
        }
        DoAllThree(s, Query(a.tenant, a.now), SetCredentials(a.secret.value), Access(a.tenant, a.now, a.login));
        tokenManager.SetClientIdAndSecret(a.secret.value);
      }
      var access := tokenManager.GetAccessToken(false, a.tenant, a.now, a.login);
      if access.None? {
        return false;
      }
      helper.SetAPIToken(access.value);
      return true;
    }
  }

  lemma DoAllOne(s: Store, a: Op)
    ensures DoAll(s, [a]) == Do(s, a)
  {
    assert [a][..0] == [] && DoAll(s, []) == s;
  }

  lemma DoAllTwo(s: Store, a: Op, b: Op)
    ensures DoAll(s, [a, b]) == Do(Do(s, a), b)
  {
    assert [a, b][..1] == [a];
    DoAllOne(s, a);
  }

  lemma DoAllThree(s: Store, a: Op, b: Op, c: Op)
    ensures DoAll(s, [a, b, c]) == Do(Do(Do(s, a), b), c)
  {
    assert [a, b, c][..2] == [a, b];
    DoAllTwo(s, a, b);
  }

  /** An access touches the entry of its own tenant and no other, and two tenants share an entry
      exactly when they are equal or are "" and "public". */
  lemma AccessTouchesItsSlot(s: Store, tenant: string, now: int, login: Login, other: string)
    ensures Slot(other) != Slot(tenant) ==>
              Served(Do(s, Access(tenant, now, login)).tokens, other, now) == Served(s.tokens, other, now)
    ensures Slot(other) == Slot(tenant) <==> other == tenant || {other, tenant} == {"", "public"}
  {
    if Slot(other) == Slot(tenant) && other != tenant {
      assert {other, tenant} == {"", "public"};
    }
    if {other, tenant} == {"", "public"} {
      assert other in {"", "public"} && tenant in {"", "public"};
    }
  }

  // ---------- what a lookup serves ----------

  /** Operation i is the last login that was issued a token for the tenant's entry. */
  predicate LastIssue(ops: seq<Op>, i: nat, tenant: string) {
    && i < |ops| && Issues(ops[i], tenant)
    && forall j :: i < j < |ops| ==> !Issues(ops[j], tenant)
  }

  predicate Issues(op: Op, tenant: string) {
    && op.Access? && op.login.Issued?
    && (op.tenant == tenant || {op.tenant, tenant} == {"", "public"})
  }

  lemma IssuesToSlot(op: Op, tenant: string)
    ensures Issues(op, tenant) <==> op.Access? && op.login.Issued? && Slot(op.tenant) == Slot(tenant)
  {
    if op.Access? {
      AccessTouchesItsSlot(Store(map[], Credentials("", "")), tenant, 0, Refused, op.tenant);
    }
  }

  /** In every interleaving, a lookup serves the token of the last login for the tenant that was
      issued one, exactly until ten seconds before that token expires; queries, refused logins,
      changed credentials and other tenants make no difference. */
  lemma {:induction false} ServesLastIssue(s: Store, ops: seq<Op>, i: nat, tenant: string, now: int)
    requires LastIssue(ops, i, tenant)
    ensures Served(DoAll(s, ops).tokens, tenant, now) ==
              if now <= ops[i].now + ops[i].login.expiresIn * 1_000_000_000 - 10_000_000_000
              then ops[i].login.accessToken else ""
    decreases |ops|
  {
    var n := |ops| - 1;
    IssuesToSlot(ops[n], tenant);
    if i < n {
      assert !Issues(ops[n], tenant);
      assert ops[..n][i] == ops[i];
      ServesLastIssue(s, ops[..n], i, tenant, now);
    }
  }

  /** ... and before any such login, what it served at the start. */
  lemma {:induction false} ServesFirst(s: Store, ops: seq<Op>, tenant: string, now: int)
    requires forall j :: 0 <= j < |ops| ==> !Issues(ops[j], tenant)
    ensures Served(DoAll(s, ops).tokens, tenant, now) == Served(s.tokens, tenant, now)
  {
    if ops != [] {
      var n := |ops| - 1;
      IssuesToSlot(ops[n], tenant);
      assert !Issues(ops[n], tenant);
      ServesFirst(s, ops[..n], tenant, now);
    }
  }

  /** One authentication that nothing interleaves with: it succeeds exactly when a token is
      served, or the tenant's credentials are at hand and the login is issued a token; only then,
      and only without a served token, is the entry replaced, and Vault's credentials stay set
      even when the login is refused. */
  lemma AuthenticationEffect(s: Store, vaultEnabled: bool, a: Attempt)
    ensures var served, after := Served(s.tokens, a.tenant, a.now), DoAll(s, Ops(s, vaultEnabled, a));
            var logsIn := served == "" && (vaultEnabled ==> a.secret.Some?);
            && (Succeeds(s, vaultEnabled, a) <==> served != "" || (logsIn && a.login.Issued?))
            && after.credentials == (if logsIn && vaultEnabled then a.secret.value else s.credentials)
            && after.tokens ==
                 if logsIn && a.login.Issued?
                 then s.tokens[Slot(a.tenant) :=
                        CachedToken(Token(a.login.accessToken, a.login.expiresIn, after.credentials), a.now)]
                 else s.tokens
  {
    DoAllOne(s, Query(a.tenant, a.now));
    DoAllTwo(s, Query(a.tenant, a.now), Access(a.tenant, a.now, a.login));
    if a.secret.Some? {
      DoAllThree(s, Query(a.tenant, a.now), SetCredentials(a.secret.value), Access(a.tenant, a.now, a.login));
    }
  }

  // ---------- where the cached tokens come from ----------

  /** An operation of some authentication with Vault disabled. */
  ghost predicate FromDisabled(op: Op) {
    exists s, a :: op in Ops(s, false, a)
  }

  lemma DisabledSetsNothing(op: Op)
    requires FromDisabled(op)
    ensures !op.SetCredentials?
  {
  }

  /** With Vault disabled the credentials are set once, before any reconcile, so in every
      interleaving of the operations of any authentications every cached token was issued to
      them. */
  lemma {:induction false} StaticCredentials(s: Store, ops: seq<Op>)
    requires forall op :: op in ops ==> FromDisabled(op)
    requires forall k :: k in s.tokens ==> s.tokens[k].token.issuedTo == s.credentials
    ensures var s' := DoAll(s, ops);
            && s'.credentials == s.credentials
            && forall k :: k in s'.tokens ==> s'.tokens[k].token.issuedTo == s.credentials
  {
    hide FromDisabled;
    if ops != [] {
      assert ops[|ops|-1] in ops;
      DisabledSetsNothing(ops[|ops|-1]);
      StaticCredentials(s, ops[..|ops|-1]);
    }
  }

  /** Operation i is the last one that sets the credentials. */
  predicate LastSet(ops: seq<Op>, i: nat) {
    && i < |ops| && ops[i].SetCredentials?
    && forall j :: i < j < |ops| ==> !ops[j].SetCredentials?
  }

  lemma {:induction false} CredentialsAreLastSet(s: Store, ops: seq<Op>)
    ensures (forall i: nat :: !LastSet(ops, i)) ==> DoAll(s, ops).credentials == s.credentials
    ensures forall i: nat :: LastSet(ops, i) ==> DoAll(s, ops).credentials == ops[i].c
  {
    if ops != [] {
      var n := |ops| - 1;
      if ops[n].SetCredentials? {
        assert LastSet(ops, n);
      } else {
        CredentialsAreLastSet(s, ops[..n]);
        forall i: nat | LastSet(ops[..n], i) ensures LastSet(ops, i) {
          forall j | i < j < |ops| ensures !ops[j].SetCredentials? {
            assert j < n ==> ops[..n][j] == ops[j];
          }
        }
        forall i: nat | LastSet(ops, i) ensures LastSet(ops[..n], i) && ops[..n][i] == ops[i] {
          assert i < n;
        }
      }
    }
  }

  lemma {:induction false} DoAllAppends(s: Store, ops: seq<Op>, ops': seq<Op>)
    ensures DoAll(s, ops + ops') == DoAll(DoAll(s, ops), ops')
  {
    if ops' == [] {
      assert ops + ops' == ops;
    } else {
      var n := |ops'| - 1;
      assert (ops + ops')[..|ops + ops'| - 1] == ops + ops'[..n];
      DoAllAppends(s, ops, ops'[..n]);
    }
  }

  /** With Vault enabled, whatever comes before and in between: the token an authentication
      caches was issued to the credentials it set itself exactly when the last credentials set
      between its two operations, if any, are the same. */
  lemma OwnCredentialsIff(s: Store, before: seq<Op>, c: Credentials, between: seq<Op>, tenant: string, now: int,
                          accessToken: string, expiresIn: int)
    ensures var ops := before + [SetCredentials(c)] + between + [Access(tenant, now, Issued(accessToken, expiresIn))];
            var tokens := DoAll(s, ops).tokens;
            && Slot(tenant) in tokens && tokens[Slot(tenant)].token.accessToken == accessToken
            && (tokens[Slot(tenant)].token.issuedTo == c <==>
                  forall i: nat :: LastSet(between, i) ==> between[i].c == c)
  {
    var access := Access(tenant, now, Issued(accessToken, expiresIn));
    var afterSet := DoAll(s, before + [SetCredentials(c)]);
    DoAllAppends(s, before, [SetCredentials(c)]);
    DoAllOne(DoAll(s, before), SetCredentials(c));
    DoAllAppends(s, before + [SetCredentials(c)], between);
    DoAllAppends(s, before + [SetCredentials(c)] + between, [access]);
    DoAllOne(DoAll(afterSet, between), access);
    CredentialsAreLastSet(afterSet, between);
  }

  function AuthenticateAll(s: Store, attempts: seq<Attempt>): Store {
    if attempts == [] then s
    else
      var before := AuthenticateAll(s, attempts[..|attempts|-1]);
      DoAll(before, Ops(before, true, attempts[|attempts|-1]))
  }

  /** Some attempt for the entry's tenant read from Vault the credentials the token was issued to. */
  predicate FromVault(attempts: seq<Attempt>, slot: string, c: CachedToken) {
    exists i :: 0 <= i < |attempts| && Slot(attempts[i].tenant) == slot
                && attempts[i].secret == Some(c.token.issuedTo) && attempts[i].now == c.retrieved
  }

  predicate AllFromVault(attempts: seq<Attempt>, tokens: map<string, CachedToken>) {
    forall k :: k in tokens ==> FromVault(attempts, k, tokens[k])
  }

  lemma FromVaultGrows(earlier: seq<Attempt>, a: Attempt, slot: string, c: CachedToken)
    requires FromVault(earlier, slot, c)
    ensures FromVault(earlier + [a], slot, c)
  {
    var i :| 0 <= i < |earlier| && Slot(earlier[i].tenant) == slot
             && earlier[i].secret == Some(c.token.issuedTo) && earlier[i].now == c.retrieved;
    assert (earlier + [a])[i] == earlier[i];
  }

  /** With Vault enabled and authentications one after another, every cached token was issued to
      credentials that Vault returned for the tenant it is cached under. */
  lemma {:induction false} CachedTokensAreOwn(credentials: Credentials, attempts: seq<Attempt>)
    ensures AllFromVault(attempts, AuthenticateAll(Store(map[], credentials), attempts).tokens)
  {
    if attempts != [] {
      var earlier, a := attempts[..|attempts|-1], attempts[|attempts|-1];
      assert attempts == earlier + [a];
      var before := AuthenticateAll(Store(map[], credentials), earlier);
      CachedTokensAreOwn(credentials, earlier);
      OpsTokens(before, a);
      var after := DoAll(before, Ops(before, true, a)).tokens;
      forall k | k in after ensures FromVault(attempts, k, after[k]) {
        if k in before.tokens && after[k] == before.tokens[k] {
          FromVaultGrows(earlier, a, k, before.tokens[k]);
        } else {
          assert attempts[|attempts|-1] == a;
        }
      }
    }
  }

  lemma OpsTokens(s: Store, a: Attempt)
    ensures var s' := DoAll(s, Ops(s, true, a));
            || s'.tokens == s.tokens
            || (&& a.secret.Some? && a.login.Issued?
                && s'.tokens == s.tokens[Slot(a.tenant) :=
                     CachedToken(Token(a.login.accessToken, a.login.expiresIn, a.secret.value), a.now)])
  {
    DoAllOne(s, Query(a.tenant, a.now));
    if a.secret.Some? {
      DoAllThree(s, Query(a.tenant, a.now), SetCredentials(a.secret.value), Access(a.tenant, a.now, a.login));
    }
  }
}
