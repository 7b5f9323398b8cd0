/** The browser auth context of app/auth_sessions.py: the Redis keys as one value
    and each Lua script as a function of that value and the Redis clock. Times
    are absolute, in milliseconds; a key written with its remaining PTTL keeps
    its deadline. */
module AuthScripts {
  import opened Options

  const SECOND: int := 1_000
  const MAX_EPOCH: int := 9_007_199_254_740_991

  type Digest = string
  type Handle = string

  /** A principal: the fields a refresh must not change, the fields whose change
      it announces, each as its JSON text, and everything else. */
  datatype Principal = Principal(tenant: string, user: string, fields: map<string, string>, rest: map<string, string>)

  const COMPANY_FIELDS := {"company_role", "company_username", "company_department"}
  const AUTHORIZATION_FIELDS := COMPANY_FIELDS + {
    "department_id", "direct_department_ids", "department_ids", "department_authority_status",
    "authz_policy_version", "roles", "permissions"}

  /** How the commit script reads a field: a missing company field is empty. */
  function FieldText(p: Principal, name: string): string {
    if name in p.fields then p.fields[name] else if name in COMPANY_FIELDS then "\"\"" else "null"
  }

  predicate SameAuthorization(a: Principal, b: Principal) {
    forall name :: name in AUTHORIZATION_FIELDS ==> FieldText(a, name) == FieldText(b, name)
  }

  predicate SameSubject(a: Principal, b: Principal) {
    a.tenant == b.tenant && a.user == b.user
  }

  /** The part of a context record both versions share. */
  datatype Core = Core(
    nonce: string,
    principal: Option<Principal>,
    subjectEpoch: int,
    operationEpoch: int,
    token: string,
    kind: string,
    leaseUntil: int)

  datatype Context =
    | V1(core: Core)
    | V2(core: Core, digest: Digest, generation: int, refresh: Option<int>)
  {
    /** successful_refresh_epoch, absent read as zero. */
    function Marker(): int {
      if V2? && refresh.Some? then refresh.value else 0
    }
  }

  datatype Ticket = Ticket(digest: string, generation: int, deadline: int)

  datatype Authority = Authority(digest: Digest, generation: int, handle: Handle, ticket: Option<Ticket>)

  datatype Key<+T> = Key(value: T, deadline: int)

  /** A stored credential; `context` notes whose lease wrote it. */
  datatype Credential = Credential(text: string, context: Handle)

  datatype Store = Store(
    authorities: map<Digest, Key<Authority>>,
    contexts: map<Handle, Key<Context>>,
    credentials: map<string, Key<Credential>>)

  const NOTHING := Store(map[], map[], map[])

  datatype CookieKind = NoCookie | V1Matching | V1Conflict | V2Cookie(digest: Digest, generation: int, handle: Handle) | InvalidCookie

  datatype NewCredential = NewCredential(key: string, text: string, expiresAt: int)

  datatype Reply =
    | Corrupt | Missing | Stale | GenerationGap | GenerationConflict | MigrationConflict | InvalidTicket
    | Created(ttl: int) | Migrated(ttl: int) | Existing(ttl: int) | Repair(ttl: int) | RebootstrapRequired
    | Rotated(generation: int, ttl: int) | Reconciled | TargetRepaired(ttl: int) | AuthorityBase | Issued
    | RefreshBusy | Begun(epoch: int, marker: int, principal: Option<Principal>, subjectEpoch: int)
    | Superseded | Expired | Committed(subjectEpoch: int) | Stored
    | Granted(principal: Option<Principal>, subjectEpoch: int, operationEpoch: int, marker: int)

  datatype Script =
    | BootstrapV1(handle: Handle, nonce: string, ttl: int, matching: bool)
    | BeginV1(handle: Handle, lease: int, token: string, kind: string)
    | CommitV1(handle: Handle, epoch: int, token: string, principal: Option<Principal>)
    | Bootstrap(digest: Digest, generation: int, handle: Handle, nonce: string, ttl: int, cookie: CookieKind, recovery: bool)
    | Rotate(digest: Digest, generation: int, handle: Handle, newHandle: Handle, nonce: string, ttl: int, ticket: string)
    | Reconcile(digest: Digest, generation: int, handle: Handle)
    | RepairTarget(digest: Digest, generation: int, target: int, handle: Handle, newHandle: Handle)
    | IssueTicket(digest: Digest, generation: int, handle: Handle, ticket: string, seconds: int)
    | ReadGrant(digest: Digest, generation: int, handle: Handle)
    | Begin(digest: Digest, generation: int, handle: Handle, lease: int, token: string, kind: string)
    | Commit(digest: Digest, generation: int, handle: Handle, epoch: int, token: string,
             principal: Option<Principal>, credential: Option<NewCredential>)
    | StoreCredential(digest: Digest, generation: int, handle: Handle, epoch: int, subjectEpoch: int,
                      tenant: string, user: string, stored: NewCredential)

  // ---- Record checks ------------------------------------------------------------------------

  predicate IsEpoch(n: int) {
    0 <= n <= MAX_EPOCH
  }

  predicate ValidCore(c: Core) {
    IsEpoch(c.operationEpoch) && IsEpoch(c.subjectEpoch) && c.leaseUntil >= 0
  }

  predicate ValidV1(c: Context) {
    c.V1? && ValidCore(c.core)
  }

  predicate ValidV2(c: Context) {
    && c.V2? && ValidCore(c.core) && IsEpoch(c.generation) && c.generation >= 1
    && (c.refresh.Some? ==> IsEpoch(c.refresh.value) && c.refresh.value <= c.core.operationEpoch)
  }

  predicate ValidAuthority(a: Authority) {
    && IsEpoch(a.generation) && a.generation >= 1
    && (a.ticket.Some? ==> a.ticket.value.generation == a.generation && a.ticket.value.deadline >= 0)
  }

  predicate Pristine(c: Core) {
    c.principal.None? && c.subjectEpoch == 0 && c.operationEpoch == 0 && c.token == "" && c.kind == "" && c.leaseUntil == 0
  }

  function Blank(nonce: string): Core {
    Core(nonce, None, 0, 0, "", "", 0)
  }

  predicate IdentityArgs(digest: Digest, generation: int, handle: Handle) {
    digest != "" && IsEpoch(generation) && generation >= 1 && handle != ""
  }

  predicate IsSpan(n: int) {
    IsEpoch(n) && n >= 1
  }

  /** Expired keys are gone by the time a script looks. */
  function Live(s: Store, now: int): Store {
    Store(
      map d | d in s.authorities && now < s.authorities[d].deadline :: s.authorities[d],
      map h | h in s.contexts && now < s.contexts[h].deadline :: s.contexts[h],
      map k | k in s.credentials && now < s.credentials[k].deadline :: s.credentials[k])
  }

  /** ttl_consistent: both keys live, with deadlines at most a second apart. */
  predicate Consistent(s: Store, digest: Digest, handle: Handle) {
    && digest in s.authorities && handle in s.contexts
    && -1000 <= s.authorities[digest].deadline - s.contexts[handle].deadline <= 1000
  }

  function Shared(s: Store, digest: Digest, handle: Handle): int
    requires digest in s.authorities && handle in s.contexts
  {
    var a, c := s.authorities[digest].deadline, s.contexts[handle].deadline;
    if a < c then a else c
  }

  predicate SameAuthority(s: Store, digest: Digest, generation: int, handle: Handle) {
    && digest in s.authorities && handle in s.contexts
    && var a, c := s.authorities[digest].value, s.contexts[handle].value;
       && ValidAuthority(a) && ValidV2(c)
       && a.digest == digest && a.generation == generation && a.handle == handle
       && c.digest == digest && c.generation == generation
  }

  /** The gate of every V2 operation on a context. */
  predicate Owns(s: Store, digest: Digest, generation: int, handle: Handle) {
    Consistent(s, digest, handle) && SameAuthority(s, digest, generation, handle)
  }

  function PutContext(s: Store, handle: Handle, c: Context, deadline: int): Store {
    s.(contexts := s.contexts[handle := Key(c, deadline)])
  }

  /** Rewrites a live context with its remaining PTTL. */
  function Rewrite(s: Store, handle: Handle, c: Context): Store
    requires handle in s.contexts
  {
    PutContext(s, handle, c, s.contexts[handle].deadline)
  }

  function PutAuthority(s: Store, digest: Digest, a: Authority, deadline: int): Store {
    s.(authorities := s.authorities[digest := Key(a, deadline)])
  }

  // ---- Version 1 ----------------------------------------------------------------------------

  function BootstrapV1Script(s: Store, handle: Handle, nonce: string, ttl: int, matching: bool, now: int): (Store, Reply) {
    if !IsSpan(ttl) then (s, Corrupt)
    else if handle !in s.contexts then
      (PutContext(s, handle, V1(Blank(nonce)), now + ttl * SECOND), Created(ttl * SECOND))
    else
      var c := s.contexts[handle].value;
      if !ValidV1(c) || c.core.nonce != nonce then (s, Corrupt)
      else if matching || Pristine(c.core) then (s, Existing(s.contexts[handle].deadline - now))
      else (s, RebootstrapRequired)
  }

  function Opened(c: Core, token: string, kind: string, leaseUntil: int): Core {
    c.(operationEpoch := c.operationEpoch + 1, token := token, kind := kind, leaseUntil := leaseUntil)
  }

  function Closed(c: Core, principal: Option<Principal>, subjectEpoch: int): Core {
    c.(principal := principal, subjectEpoch := subjectEpoch, token := "", kind := "", leaseUntil := 0)
  }

  function BeginV1Script(s: Store, handle: Handle, lease: int, token: string, kind: string, now: int): (Store, Reply) {
    if !IsSpan(lease) || token == "" || kind == "" then (s, Corrupt)
    else if handle !in s.contexts then (s, Missing)
    else
      var c := s.contexts[handle].value;
      if !ValidV1(c) || c.core.operationEpoch >= MAX_EPOCH then (s, Corrupt)
      else
        var core := Opened(c.core, token, kind, now + lease * SECOND);
        (Rewrite(s, handle, V1(core)), Begun(core.operationEpoch, 0, core.principal, core.subjectEpoch))
  }

  function CommitV1Script(s: Store, handle: Handle, epoch: int, token: string, principal: Option<Principal>, now: int): (Store, Reply) {
    if !IsSpan(epoch) || token == "" then (s, Corrupt)
    else if handle !in s.contexts then (s, Missing)
    else
      var c := s.contexts[handle].value;
      if !ValidV1(c) || c.core.subjectEpoch >= MAX_EPOCH then (s, Corrupt)
      else if c.core.operationEpoch != epoch || c.core.token != token then (s, Superseded)
      else if c.core.leaseUntil <= now then (s, Expired)
      else
        var core := Closed(c.core, principal, c.core.subjectEpoch + 1);
        (Rewrite(s, handle, V1(core)), Committed(core.subjectEpoch))
  }

  // ---- Version 2: browser authority -----------------------------------------------------------

  /** No authority yet: create it, or migrate the version 1 context. */
  function EstablishScript(
    s: Store, digest: Digest, generation: int, handle: Handle, nonce: string, ttl: int, cookie: CookieKind, recovery: bool, now: int
  ): (Store, Reply) {
    if recovery then (s, Missing)
    else if cookie.V2Cookie? || cookie.V1Conflict? || cookie.InvalidCookie? then (s, Stale)
    else if generation != 1 then (s, GenerationGap)
    else if handle in s.contexts && (!ValidV1(s.contexts[handle].value) || s.contexts[handle].value.core.nonce != nonce) then
      (s, Stale)
    else if handle in s.contexts && !cookie.V1Matching? && !Pristine(s.contexts[handle].value.core) then
      (s, MigrationConflict)
    else
      var core := if handle in s.contexts then s.contexts[handle].value.core else Blank(nonce);
      var deadline := if handle in s.contexts then s.contexts[handle].deadline else now + ttl * SECOND;
      var s' := PutAuthority(
        PutContext(s, handle, V2(core, digest, generation, None), deadline),
        digest, Authority(digest, generation, handle, None), deadline);
      (s', if core.principal.None? then Created(deadline - now) else Migrated(deadline - now))
  }

  /** Both call sites pass an empty ticket digest, so a request for another
      handle than the authority's is a conflict. */
  function BootstrapScript(
    s: Store, digest: Digest, generation: int, handle: Handle, nonce: string, ttl: int, cookie: CookieKind, recovery: bool, now: int
  ): (Store, Reply) {
    if !IdentityArgs(digest, generation, handle) || nonce == "" || !IsSpan(ttl) then (s, Corrupt)
    else if digest !in s.authorities then
      EstablishScript(s, digest, generation, handle, nonce, ttl, cookie, recovery, now)
    else
      var a := s.authorities[digest].value;
      if !ValidAuthority(a) then (s, Corrupt)
      else if handle !in s.contexts then (s, GenerationConflict)
      else if !ValidV2(s.contexts[handle].value) then (s, Corrupt)
      else if !Consistent(s, digest, handle) || a.digest != digest || generation < a.generation then (s, Stale)
      else if generation > a.generation then (s, GenerationGap)
      else if a.handle != handle then (s, GenerationConflict)
      else if !SameAuthority(s, digest, generation, handle) || s.contexts[handle].value.core.nonce != nonce then (s, Stale)
      else
        var ttl := Shared(s, digest, handle) - now;
        (s, if cookie == V2Cookie(digest, generation, handle) then Existing(ttl) else Repair(ttl))
  }

  predicate TicketAdmits(a: Authority, ticket: string, generation: int, now: int) {
    && a.ticket.Some? && a.ticket.value.digest == ticket
    && a.ticket.value.generation == generation && a.ticket.value.deadline >= now
  }

  function RotateScript(
    s: Store, digest: Digest, generation: int, handle: Handle, newHandle: Handle, nonce: string, ttl: int, ticket: string, now: int
  ): (Store, Reply) {
    if handle == newHandle || !IdentityArgs(digest, generation, handle) || newHandle == "" || nonce == ""
       || !IsSpan(ttl) || ticket == "" then (s, Corrupt)
    else if !Owns(s, digest, generation, handle) then (s, Stale)
    else if !TicketAdmits(s.authorities[digest].value, ticket, generation, now) then (s, InvalidTicket)
    else if newHandle in s.contexts then (s, GenerationConflict)
    else if generation + 1 > MAX_EPOCH then (s, Corrupt)
    else
      var deadline := Shared(s, digest, handle);
      var s' := PutAuthority(
        PutContext(s, newHandle, V2(Blank(nonce), digest, generation + 1, None), deadline),
        digest, Authority(digest, generation + 1, newHandle, None), deadline);
      (s', Rotated(generation + 1, deadline - now))
  }

  function ReconcileScript(s: Store, digest: Digest, generation: int, handle: Handle): (Store, Reply) {
    if !IdentityArgs(digest, generation, handle) then (s, Corrupt)
    else if !Owns(s, digest, generation, handle) then (s, Stale)
    else (s, Reconciled)
  }

  function RepairScript(
    s: Store, digest: Digest, generation: int, target: int, handle: Handle, newHandle: Handle, now: int
  ): (Store, Reply) {
    if handle == newHandle || !IdentityArgs(digest, generation, handle)
       || !IsEpoch(target) || target != generation + 1 || newHandle == "" then (s, Corrupt)
    else if digest !in s.authorities || handle !in s.contexts then (s, Stale)
    else
      var base := s.contexts[handle].value;
      if !ValidAuthority(s.authorities[digest].value) || !ValidV2(base) || base.digest != digest || base.generation != generation
      then (s, Stale)
      else if newHandle in s.contexts then
        if Owns(s, digest, target, newHandle) then (s, TargetRepaired(Shared(s, digest, newHandle) - now)) else (s, Stale)
      else if Owns(s, digest, generation, handle) then (s, AuthorityBase)
      else (s, Stale)
  }

  function IssueTicketScript(
    s: Store, digest: Digest, generation: int, handle: Handle, ticket: string, seconds: int, now: int
  ): (Store, Reply) {
    if !IdentityArgs(digest, generation, handle) || ticket == "" || !IsSpan(seconds) then (s, Corrupt)
    else if !Owns(s, digest, generation, handle) then (s, Stale)
    else
      var a := s.authorities[digest].value.(ticket := Some(Ticket(ticket, generation, now / SECOND * SECOND + seconds * SECOND)));
      (PutAuthority(s, digest, a, Shared(s, digest, handle)), Issued)
  }

  // ---- Version 2: operations -------------------------------------------------------------------

  function ReadGrantScript(s: Store, digest: Digest, generation: int, handle: Handle): (Store, Reply) {
    if !Owns(s, digest, generation, handle) then (s, Stale)
    else
      var c := s.contexts[handle].value;
      (s, Granted(c.core.principal, c.core.subjectEpoch, c.core.operationEpoch, c.Marker()))
  }

  function BeginScript(
    s: Store, digest: Digest, generation: int, handle: Handle, lease: int, token: string, kind: string, now: int
  ): (Store, Reply) {
    if !IdentityArgs(digest, generation, handle) || !IsSpan(lease) || token == "" || kind == "" then (s, Corrupt)
    else if !Owns(s, digest, generation, handle) then (s, Stale)
    else
      var c := s.contexts[handle].value;
      if c.core.operationEpoch >= MAX_EPOCH then (s, Corrupt)
      else if kind == "refresh" && c.core.principal.None? then (s, Missing)
      else if kind == "refresh" && c.core.leaseUntil > now then (s, RefreshBusy)
      else
        var c' := c.(core := Opened(c.core, token, kind, now + lease * SECOND),
                     refresh := if kind == "refresh" then c.refresh else Some(0));
        (Rewrite(s, handle, c'), Begun(c'.core.operationEpoch, c'.Marker(), c'.core.principal, c'.core.subjectEpoch))
  }

  predicate IsRefresh(c: Context, principal: Option<Principal>) {
    c.core.kind == "refresh" && principal.Some?
  }

  /** Whether a commit moves the subject epoch. */
  predicate Announces(c: Context, principal: Option<Principal>) {
    !IsRefresh(c, principal) || c.core.principal.None? || !SameAuthorization(c.core.principal.value, principal.value)
  }

  function Recorded(c: Context, principal: Option<Principal>, epoch: int, withCredential: bool): Context
    requires c.V2?
  {
    c.(core := Closed(c.core, principal, if Announces(c, principal) then c.core.subjectEpoch + 1 else c.core.subjectEpoch),
       refresh := if withCredential && IsRefresh(c, principal) then Some(epoch) else c.refresh)
  }

  function PutCredential(s: Store, handle: Handle, n: NewCredential, deadline: int): Store {
    s.(credentials := s.credentials[n.key := Key(Credential(n.text, handle), deadline)])
  }

  predicate CredentialLive(n: NewCredential, now: int) {
    n.text != "" && IsEpoch(n.expiresAt) && n.expiresAt * SECOND > now
  }

  function CommitScript(
    s: Store, digest: Digest, generation: int, handle: Handle, epoch: int, token: string,
    principal: Option<Principal>, credential: Option<NewCredential>, now: int
  ): (Store, Reply) {
    if !IdentityArgs(digest, generation, handle) || !IsSpan(epoch) || token == "" then (s, Corrupt)
    else if !Owns(s, digest, generation, handle) then (s, Stale)
    else
      var c := s.contexts[handle].value;
      if c.core.operationEpoch != epoch || c.core.token != token then (s, Superseded)
      else if c.core.leaseUntil <= now then (s, Expired)
      else if c.core.subjectEpoch >= MAX_EPOCH then (s, Corrupt)
      else if IsRefresh(c, principal) && (c.core.principal.None? || !SameSubject(c.core.principal.value, principal.value)) then
        (s, Superseded)
      else if credential.Some? && !CredentialLive(credential.value, now) then (s, Expired)
      else
        var deadline := s.contexts[handle].deadline;
        var c' := Recorded(c, principal, epoch, credential.Some?);
        var s' := Rewrite(s, handle, c');
        (if credential.None? then s'
         else PutCredential(s', handle, credential.value,
                            if credential.value.expiresAt * SECOND < deadline then credential.value.expiresAt * SECOND else deadline),
         Committed(c'.core.subjectEpoch))
  }

  function StoreCredentialScript(
    s: Store, digest: Digest, generation: int, handle: Handle, epoch: int, subjectEpoch: int,
    tenant: string, user: string, credential: NewCredential
  ): (Store, Reply) {
    if !Owns(s, digest, generation, handle) then (s, Superseded)
    else
      var c := s.contexts[handle].value.core;
      if c.operationEpoch != epoch || c.subjectEpoch != subjectEpoch || c.token != "" || c.principal.None?
         || c.principal.value.tenant != tenant || c.principal.value.user != user
      then (s, Superseded)
      else (PutCredential(s, handle, credential, Shared(s, digest, handle)), Stored)
  }

  /** One atomic script at Redis time `now`. */
  function Step(s0: Store, script: Script, now: int): (Store, Reply) {
    var s := Live(s0, now);
    match script
    case BootstrapV1(handle, nonce, ttl, matching) => BootstrapV1Script(s, handle, nonce, ttl, matching, now)
    case BeginV1(handle, lease, token, kind) => BeginV1Script(s, handle, lease, token, kind, now)
    case CommitV1(handle, epoch, token, principal) => CommitV1Script(s, handle, epoch, token, principal, now)
    case Bootstrap(digest, generation, handle, nonce, ttl, cookie, recovery) =>
      BootstrapScript(s, digest, generation, handle, nonce, ttl, cookie, recovery, now)
    case Rotate(digest, generation, handle, newHandle, nonce, ttl, ticket) =>
      RotateScript(s, digest, generation, handle, newHandle, nonce, ttl, ticket, now)
    case Reconcile(digest, generation, handle) => ReconcileScript(s, digest, generation, handle)
    case RepairTarget(digest, generation, target, handle, newHandle) =>
      RepairScript(s, digest, generation, target, handle, newHandle, now)
    case IssueTicket(digest, generation, handle, ticket, seconds) =>
      IssueTicketScript(s, digest, generation, handle, ticket, seconds, now)
    case ReadGrant(digest, generation, handle) => ReadGrantScript(s, digest, generation, handle)
    case Begin(digest, generation, handle, lease, token, kind) =>
      BeginScript(s, digest, generation, handle, lease, token, kind, now)
    case Commit(digest, generation, handle, epoch, token, principal, credential) =>
      CommitScript(s, digest, generation, handle, epoch, token, principal, credential, now)
    case StoreCredential(digest, generation, handle, epoch, subjectEpoch, tenant, user, credential) =>
      StoreCredentialScript(s, digest, generation, handle, epoch, subjectEpoch, tenant, user, credential)
  }

  // ---- Runs --------------------------------------------------------------------------------------

  /** A script call of some client, with the Redis time it ran at. */
  datatype Call = Call(script: Script, now: int)

  function Next(s: Store, call: Call): Store {
    Step(s, call.script, call.now).0
  }

  ghost function After(s: Store, run: seq<Call>): Store
    decreases |run|
  {
    if run == [] then s else After(Next(s, run[0]), run[1..])
  }

  /** The store before the i-th call of a run. */
  ghost function Before(s: Store, run: seq<Call>, i: nat): Store
    requires i <= |run|
    decreases i
  {
    if i == 0 then s else Before(Next(s, run[0]), run[1..], i - 1)
  }

  /** The context key `handle` never expires during the run. */
  ghost predicate ContextLives(s: Store, run: seq<Call>, handle: Handle)
    decreases |run|
  {
    && handle in s.contexts
    && (run == [] || (run[0].now < s.contexts[handle].deadline && ContextLives(Next(s, run[0]), run[1..], handle)))
  }

  ghost predicate AuthorityLives(s: Store, run: seq<Call>, digest: Digest)
    decreases |run|
  {
    && digest in s.authorities
    && (run == [] || (run[0].now < s.authorities[digest].deadline && AuthorityLives(Next(s, run[0]), run[1..], digest)))
  }
}
