/** The auth keys as mutable fields, and each Lua script as a method that updates
    them in place, proved to have the effect and reply of its script function. */
module AuthStore {
  import opened Options
  import opened AuthScripts

  /** The names in the order the commit script compares them. */
  const COMPARED := [
    "department_id", "direct_department_ids", "department_ids", "department_authority_status", "authz_policy_version",
    "company_role", "company_username", "company_department", "roles", "permissions"]

  lemma ComparedAll(name: string)
    ensures name in COMPARED <==> name in AUTHORIZATION_FIELDS
  {
  }

  /** Compares the authorization fields one by one. */
  method AuthorizationChanged(previous: Principal, principal: Principal) returns (changed: bool)
    ensures changed <==> !SameAuthorization(previous, principal)
  {
    hide FieldText;
    changed := false;
    for i := 0 to |COMPARED|
      invariant changed <==> exists j :: 0 <= j < i && FieldText(previous, COMPARED[j]) != FieldText(principal, COMPARED[j])
    {
      if FieldText(previous, COMPARED[i]) != FieldText(principal, COMPARED[i]) { changed := true; }
    }
    forall name | name in AUTHORIZATION_FIELDS ensures name in COMPARED { ComparedAll(name); }
    forall j | 0 <= j < |COMPARED| ensures COMPARED[j] in AUTHORIZATION_FIELDS { ComparedAll(COMPARED[j]); }
  }

  class Sessions {
    var authorities: map<Digest, Key<Authority>>
    var contexts: map<Handle, Key<Context>>
    var credentials: map<string, Key<Credential>>

    ghost function Snapshot(): Store
      reads this
    {
      Store(authorities, contexts, credentials)
    }

    constructor ()
      ensures Snapshot() == NOTHING
    {
      authorities, contexts, credentials := map[], map[], map[];
    }

    method Expire(now: int)
      modifies this
      ensures Snapshot() == Live(old(Snapshot()), now)
    {
      authorities := map d | d in authorities && now < authorities[d].deadline :: authorities[d];
      contexts := map h | h in contexts && now < contexts[h].deadline :: contexts[h];
      credentials := map k | k in credentials && now < credentials[k].deadline :: credentials[k];
    }

    /** Writes a context with the deadline it already has. */
    method RewriteContext(handle: Handle, c: Context)
      requires handle in contexts
      modifies this`contexts
      ensures Snapshot() == Rewrite(old(Snapshot()), handle, c)
    {
      contexts := contexts[handle := Key(c, contexts[handle].deadline)];
    }

    method OwnsContext(digest: Digest, generation: int, handle: Handle) returns (owns: bool)
      ensures owns == Owns(Snapshot(), digest, generation, handle)
    {
      if digest !in authorities || handle !in contexts { return false; }
      var gap := authorities[digest].deadline - contexts[handle].deadline;
      if gap > 1000 || gap < -1000 { return false; }
      var a, c := authorities[digest].value, contexts[handle].value;
      if !ValidAuthority(a) || !ValidV2(c) { return false; }
      owns := a.digest == digest && a.generation == generation && a.handle == handle
              && c.digest == digest && c.generation == generation;
    }

    method SharedDeadline(digest: Digest, handle: Handle) returns (deadline: int)
      requires digest in authorities && handle in contexts
      ensures deadline == Shared(Snapshot(), digest, handle)
    {
      deadline := authorities[digest].deadline;
      if contexts[handle].deadline <= deadline { deadline := contexts[handle].deadline; }
    }

    // ---- Version 1 --------------------------------------------------------------------------

    method BootstrapOld(handle: Handle, nonce: string, ttl: int, matching: bool, now: int) returns (reply: Reply)
      modifies this
      ensures (Snapshot(), reply) == BootstrapV1Script(Live(old(Snapshot()), now), handle, nonce, ttl, matching, now)
    {
      hide Live;
      Expire(now);
      if !IsSpan(ttl) { return Corrupt; }
      if handle !in contexts {
        contexts := contexts[handle := Key(V1(Blank(nonce)), now + ttl * SECOND)];
        return Created(ttl * SECOND);
      }
      var c := contexts[handle].value;
      if !ValidV1(c) || c.core.nonce != nonce { return Corrupt; }
      reply := if matching || Pristine(c.core) then Existing(contexts[handle].deadline - now) else RebootstrapRequired;
    }

    method BeginOld(handle: Handle, lease: int, token: string, kind: string, now: int) returns (reply: Reply)
      modifies this
      ensures (Snapshot(), reply) == BeginV1Script(Live(old(Snapshot()), now), handle, lease, token, kind, now)
    {
      hide Live;
      Expire(now);
      if !IsSpan(lease) || token == "" || kind == "" { return Corrupt; }
      if handle !in contexts { return Missing; }
      var c := contexts[handle].value;
      if !ValidV1(c) || c.core.operationEpoch >= MAX_EPOCH { return Corrupt; }
      var core := c.core.(operationEpoch := c.core.operationEpoch + 1);
      core := core.(token := token, kind := kind, leaseUntil := now + lease * SECOND);
      RewriteContext(handle, V1(core));
      reply := Begun(core.operationEpoch, 0, core.principal, core.subjectEpoch);
    }

    method CommitOld(handle: Handle, epoch: int, token: string, principal: Option<Principal>, now: int) returns (reply: Reply)
      modifies this
      ensures (Snapshot(), reply) == CommitV1Script(Live(old(Snapshot()), now), handle, epoch, token, principal, now)
    {
      hide Live;
      Expire(now);
      if !IsSpan(epoch) || token == "" { return Corrupt; }
      if handle !in contexts { return Missing; }
      var c := contexts[handle].value;
      if !ValidV1(c) || c.core.subjectEpoch >= MAX_EPOCH { return Corrupt; }
      if c.core.operationEpoch != epoch || c.core.token != token { return Superseded; }
      if c.core.leaseUntil <= now { return Expired; }
      var core := c.core.(principal := principal, subjectEpoch := c.core.subjectEpoch + 1);
      core := core.(token := "", kind := "", leaseUntil := 0);
      RewriteContext(handle, V1(core));
      reply := Committed(core.subjectEpoch);
    }

    // ---- Browser authority ------------------------------------------------------------------

    /** Points the authority at a new current context, both with one deadline. */
    method Install(digest: Digest, generation: int, handle: Handle, core: Core, deadline: int)
      modifies this`contexts, this`authorities
      ensures Snapshot() == PutAuthority(
                              PutContext(old(Snapshot()), handle, V2(core, digest, generation, None), deadline),
                              digest, Authority(digest, generation, handle, None), deadline)
    {
      contexts := contexts[handle := Key(V2(core, digest, generation, None), deadline)];
      authorities := authorities[digest := Key(Authority(digest, generation, handle, None), deadline)];
    }

    method Establish(digest: Digest, generation: int, handle: Handle, nonce: string, ttl: int, cookie: CookieKind, recovery: bool, now: int)
      returns (reply: Reply)
      modifies this`contexts, this`authorities
      ensures (Snapshot(), reply) == EstablishScript(old(Snapshot()), digest, generation, handle, nonce, ttl, cookie, recovery, now)
    {
      if recovery { return Missing; }
      if cookie.V2Cookie? || cookie.V1Conflict? || cookie.InvalidCookie? { return Stale; }
      if generation != 1 { return GenerationGap; }
      var core, deadline := Blank(nonce), now + ttl * SECOND;
      if handle in contexts {
        var existing := contexts[handle].value;
        if !ValidV1(existing) || existing.core.nonce != nonce { return Stale; }
        if !cookie.V1Matching? && !Pristine(existing.core) { return MigrationConflict; }
        core, deadline := existing.core, contexts[handle].deadline;
      }
      Install(digest, generation, handle, core, deadline);
      reply := if core.principal.None? then Created(deadline - now) else Migrated(deadline - now);
    }

    method BootstrapContext(digest: Digest, generation: int, handle: Handle, nonce: string, ttl: int, cookie: CookieKind, recovery: bool, now: int)
      returns (reply: Reply)
      modifies this
      ensures (Snapshot(), reply) == BootstrapScript(Live(old(Snapshot()), now), digest, generation, handle, nonce, ttl, cookie, recovery, now)
    {
      hide Live, EstablishScript, ValidAuthority, ValidV2;
      Expire(now);
      if !IdentityArgs(digest, generation, handle) || nonce == "" || !IsSpan(ttl) { return Corrupt; }
      if digest !in authorities {
        reply := Establish(digest, generation, handle, nonce, ttl, cookie, recovery, now);
        return;
      }
      var a := authorities[digest].value;
      if !ValidAuthority(a) { return Corrupt; }
      if handle !in contexts { return GenerationConflict; }
      if !ValidV2(contexts[handle].value) { return Corrupt; }
      var gap := authorities[digest].deadline - contexts[handle].deadline;
      if gap > 1000 || gap < -1000 || a.digest != digest || generation < a.generation { return Stale; }
      if generation > a.generation { return GenerationGap; }
      if a.handle != handle { return GenerationConflict; }
      var owns := OwnsContext(digest, generation, handle);
      if !owns || contexts[handle].value.core.nonce != nonce { return Stale; }
      var deadline := SharedDeadline(digest, handle);
      reply := if cookie == V2Cookie(digest, generation, handle) then Existing(deadline - now) else Repair(deadline - now);
    }

    method RotateContext(digest: Digest, generation: int, handle: Handle, newHandle: Handle, nonce: string, ttl: int, ticket: string, now: int)
      returns (reply: Reply)
      modifies this
      ensures (Snapshot(), reply) == RotateScript(Live(old(Snapshot()), now), digest, generation, handle, newHandle, nonce, ttl, ticket, now)
    {
      hide Live;
      Expire(now);
      if handle == newHandle || !IdentityArgs(digest, generation, handle) || newHandle == "" || nonce == ""
         || !IsSpan(ttl) || ticket == "" { return Corrupt; }
      var owns := OwnsContext(digest, generation, handle);
      if !owns { return Stale; }
      var a := authorities[digest].value;
      if a.ticket.None? || a.ticket.value.digest != ticket || a.ticket.value.generation != generation || a.ticket.value.deadline < now {
        return InvalidTicket;
      }
      if newHandle in contexts { return GenerationConflict; }
      if generation + 1 > MAX_EPOCH { return Corrupt; }
      var deadline := SharedDeadline(digest, handle);
      Install(digest, generation + 1, newHandle, Blank(nonce), deadline);
      reply := Rotated(generation + 1, deadline - now);
    }

    method ReconcileRotation(digest: Digest, generation: int, handle: Handle, now: int) returns (reply: Reply)
      modifies this
      ensures (Snapshot(), reply) == ReconcileScript(Live(old(Snapshot()), now), digest, generation, handle)
    {
      hide Live, Owns;
      Expire(now);
      if !IdentityArgs(digest, generation, handle) { return Corrupt; }
      var owns := OwnsContext(digest, generation, handle);
      reply := if owns then Reconciled else Stale;
    }

    method RepairRotation(digest: Digest, generation: int, target: int, handle: Handle, newHandle: Handle, now: int) returns (reply: Reply)
      modifies this
      ensures (Snapshot(), reply) == RepairScript(Live(old(Snapshot()), now), digest, generation, target, handle, newHandle, now)
    {
      hide Live, SameAuthority, ValidAuthority, ValidCore;
      Expire(now);
      if handle == newHandle || !IdentityArgs(digest, generation, handle) || !IsEpoch(target)
         || target != generation + 1 || newHandle == "" { return Corrupt; }
      if digest !in authorities || handle !in contexts { return Stale; }
      var base := contexts[handle].value;
      if !ValidAuthority(authorities[digest].value) || !ValidV2(base) || base.digest != digest || base.generation != generation {
        return Stale;
      }
      if newHandle in contexts {
        var moved := OwnsContext(digest, target, newHandle);
        if !moved { return Stale; }
        var deadline := SharedDeadline(digest, newHandle);
        return TargetRepaired(deadline - now);
      }
      var atBase := OwnsContext(digest, generation, handle);
      reply := if atBase then AuthorityBase else Stale;
    }

    method IssueRotationTicket(digest: Digest, generation: int, handle: Handle, ticket: string, seconds: int, now: int) returns (reply: Reply)
      modifies this
      ensures (Snapshot(), reply) == IssueTicketScript(Live(old(Snapshot()), now), digest, generation, handle, ticket, seconds, now)
    {
      hide Live, SameAuthority;
      Expire(now);
      if !IdentityArgs(digest, generation, handle) || ticket == "" || !IsSpan(seconds) { return Corrupt; }
      var owns := OwnsContext(digest, generation, handle);
      if !owns { return Stale; }
      var deadline := SharedDeadline(digest, handle);
      var a := authorities[digest].value;
      a := a.(ticket := Some(Ticket(ticket, generation, now / SECOND * SECOND + seconds * SECOND)));
      authorities := authorities[digest := Key(a, deadline)];
      reply := Issued;
    }

    // ---- Operations -------------------------------------------------------------------------

    method ReadContext(digest: Digest, generation: int, handle: Handle, now: int) returns (reply: Reply)
      modifies this
      ensures (Snapshot(), reply) == ReadGrantScript(Live(old(Snapshot()), now), digest, generation, handle)
    {
      hide Live, SameAuthority;
      Expire(now);
      var owns := OwnsContext(digest, generation, handle);
      if !owns { return Stale; }
      var c := contexts[handle].value;
      reply := Granted(c.core.principal, c.core.subjectEpoch, c.core.operationEpoch, c.Marker());
    }

    method BeginOperation(digest: Digest, generation: int, handle: Handle, lease: int, token: string, kind: string, now: int)
      returns (reply: Reply)
      modifies this
      ensures (Snapshot(), reply) == BeginScript(Live(old(Snapshot()), now), digest, generation, handle, lease, token, kind, now)
    {
      hide Live, Consistent, ValidAuthority;
      Expire(now);
      if !IdentityArgs(digest, generation, handle) || !IsSpan(lease) || token == "" || kind == "" { return Corrupt; }
      var owns := OwnsContext(digest, generation, handle);
      if !owns { return Stale; }
      var c := contexts[handle].value;
      if c.core.operationEpoch >= MAX_EPOCH { return Corrupt; }
      if kind == "refresh" {
        if c.core.principal.None? { return Missing; }
        if c.core.leaseUntil > now { return RefreshBusy; }
      } else {
        c := c.(refresh := Some(0));
      }
      var core := c.core.(operationEpoch := c.core.operationEpoch + 1);
      c := c.(core := core.(token := token, kind := kind, leaseUntil := now + lease * SECOND));
      RewriteContext(handle, c);
      reply := Begun(c.core.operationEpoch, c.Marker(), c.core.principal, c.core.subjectEpoch);
    }

    /** Whether the commit moves the subject epoch, or may not happen at all. */
    method CommitVerdict(c: Context, principal: Option<Principal>) returns (allowed: bool, announces: bool)
      ensures allowed <==> !(IsRefresh(c, principal) && (c.core.principal.None? || !SameSubject(c.core.principal.value, principal.value)))
      ensures allowed ==> announces == Announces(c, principal)
    {
      allowed, announces := true, true;
      if c.core.kind == "refresh" && principal.Some? {
        if c.core.principal.None? || c.core.principal.value.user != principal.value.user
           || c.core.principal.value.tenant != principal.value.tenant { return false, true; }
        announces := AuthorizationChanged(c.core.principal.value, principal.value);
      }
    }

    method CommitOperation(
      digest: Digest, generation: int, handle: Handle, epoch: int, token: string,
      principal: Option<Principal>, credential: Option<NewCredential>, now: int) returns (reply: Reply)
      modifies this
      ensures (Snapshot(), reply) ==
              CommitScript(Live(old(Snapshot()), now), digest, generation, handle, epoch, token, principal, credential, now)
    {
      hide Live, Consistent, ValidAuthority, SameSubject, Announces;
      Expire(now);
      if !IdentityArgs(digest, generation, handle) || !IsSpan(epoch) || token == "" { return Corrupt; }
      var owns := OwnsContext(digest, generation, handle);
      if !owns { return Stale; }
      var c := contexts[handle].value;
      if c.core.operationEpoch != epoch || c.core.token != token { return Superseded; }
      if c.core.leaseUntil <= now { return Expired; }
      if c.core.subjectEpoch >= MAX_EPOCH { return Corrupt; }
      var allowed, announces := CommitVerdict(c, principal);
      if !allowed { return Superseded; }
      if credential.Some? && !CredentialLive(credential.value, now) { return Expired; }
      var c' := c;
      if credential.Some? {
        SaveCredential(handle, credential.value);
        if c.core.kind == "refresh" && principal.Some? { c' := c'.(refresh := Some(epoch)); }
      }
      var core := c.core.(principal := principal);
      if announces { core := core.(subjectEpoch := core.subjectEpoch + 1); }
      c' := c'.(core := core.(token := "", kind := "", leaseUntil := 0));
      RewriteContext(handle, c');
      reply := Committed(core.subjectEpoch);
    }

    /** The credential lives no longer than asked for and than its context. */
    method SaveCredential(handle: Handle, n: NewCredential)
      requires handle in contexts
      modifies this`credentials
      ensures var deadline := contexts[handle].deadline;
              Snapshot() == PutCredential(old(Snapshot()), handle, n,
                                          if n.expiresAt * SECOND < deadline then n.expiresAt * SECOND else deadline)
    {
      var deadline := contexts[handle].deadline;
      if n.expiresAt * SECOND < deadline { deadline := n.expiresAt * SECOND; }
      credentials := credentials[n.key := Key(Credential(n.text, handle), deadline)];
    }

    method StoreLoginCredential(
      digest: Digest, generation: int, handle: Handle, epoch: int, subjectEpoch: int,
      tenant: string, user: string, n: NewCredential, now: int) returns (reply: Reply)
      modifies this
      ensures (Snapshot(), reply) ==
              StoreCredentialScript(Live(old(Snapshot()), now), digest, generation, handle, epoch, subjectEpoch, tenant, user, n)
    {
      hide Live, SameAuthority;
      Expire(now);
      var owns := OwnsContext(digest, generation, handle);
      if !owns { return Superseded; }
      var c := contexts[handle].value.core;
      if c.operationEpoch != epoch || c.subjectEpoch != subjectEpoch || c.token != "" || c.principal.None?
         || c.principal.value.tenant != tenant || c.principal.value.user != user { return Superseded; }
      var deadline := SharedDeadline(digest, handle);
      credentials := credentials[n.key := Key(Credential(n.text, handle), deadline)];
      reply := Stored;
    }

    /** Runs one script call. */
    method Perform(call: Call) returns (reply: Reply)
      modifies this
      ensures (Snapshot(), reply) == Step(old(Snapshot()), call.script, call.now)
    {
      hide Live, BootstrapV1Script, BeginV1Script, CommitV1Script, BootstrapScript, RotateScript, ReconcileScript, RepairScript,
           IssueTicketScript, ReadGrantScript, BeginScript, CommitScript, StoreCredentialScript;
      match call.script {
        case BootstrapV1(handle, nonce, ttl, matching) => reply := BootstrapOld(handle, nonce, ttl, matching, call.now);
        case BeginV1(handle, lease, token, kind) => reply := BeginOld(handle, lease, token, kind, call.now);
        case CommitV1(handle, epoch, token, principal) => reply := CommitOld(handle, epoch, token, principal, call.now);
        case Bootstrap(digest, generation, handle, nonce, ttl, cookie, recovery) =>
          reply := BootstrapContext(digest, generation, handle, nonce, ttl, cookie, recovery, call.now);
        case Rotate(digest, generation, handle, newHandle, nonce, ttl, ticket) =>
          reply := RotateContext(digest, generation, handle, newHandle, nonce, ttl, ticket, call.now);
        case Reconcile(digest, generation, handle) => reply := ReconcileRotation(digest, generation, handle, call.now);
        case RepairTarget(digest, generation, target, handle, newHandle) =>
          reply := RepairRotation(digest, generation, target, handle, newHandle, call.now);
        case IssueTicket(digest, generation, handle, ticket, seconds) =>
          reply := IssueRotationTicket(digest, generation, handle, ticket, seconds, call.now);
        case ReadGrant(digest, generation, handle) => reply := ReadContext(digest, generation, handle, call.now);
        case Begin(digest, generation, handle, lease, token, kind) =>
          reply := BeginOperation(digest, generation, handle, lease, token, kind, call.now);
        case Commit(digest, generation, handle, epoch, token, principal, credential) =>
          reply := CommitOperation(digest, generation, handle, epoch, token, principal, credential, call.now);
        case StoreCredential(digest, generation, handle, epoch, subjectEpoch, tenant, user, stored) =>
          reply := StoreLoginCredential(digest, generation, handle, epoch, subjectEpoch, tenant, user, stored, call.now);
      }
    }
  }
}
