/** The last check on a run's tool evidence (app/required_tool_contract.py): the Bash
    lifecycles, the capability records and the required builtin's record must agree
    on one owner for every call id. */
module ToolRuntime {
  import opened Options
  import opened ToolEvidence
  import opened ToolCompletion

  datatype Claim = Claim(callId: string, owner: Owner)

  function CapabilityClaims(es: seq<Evidence>): (cs: seq<Claim>)
    ensures |cs| == |es| && forall i :: 0 <= i < |es| ==> cs[i] == Claim(es[i].callId, OwnerOf(es[i]))
  {
    seq(|es|, i requires 0 <= i < |es| => Claim(es[i].callId, OwnerOf(es[i])))
  }

  function LocalClaims(vs: seq<Invocation>): (cs: seq<Claim>)
    ensures |cs| == |vs| && forall i :: 0 <= i < |vs| ==> cs[i] == Claim(vs[i].callId, Owner(Builtin, vs[i].identity))
  {
    seq(|vs|, i requires 0 <= i < |vs| => Claim(vs[i].callId, Owner(Builtin, vs[i].identity)))
  }

  /** No call id has two owners. */
  predicate Consistent(cs: seq<Claim>) {
    forall i, j :: 0 <= i < |cs| && 0 <= j < |cs| && cs[i].callId == cs[j].callId ==> cs[i].owner == cs[j].owner
  }

  predicate CompletedLocally(vs: seq<Invocation>, identity: string, callId: string) {
    exists i :: 0 <= i < |vs| && vs[i].phase == Completed && vs[i].identity == identity && vs[i].callId == callId
  }

  predicate RequiredHolds(raw: Raw<Evidence>, vs: seq<Invocation>) {
    && Whole(raw)
    && raw.record.kind == Builtin && raw.record.phase == Completed
    && CompletedLocally(vs, raw.record.identity, raw.record.callId)
  }

  /** Every call id has one owner across all evidence, and a required builtin's
      completion is one of the local completions. */
  ghost predicate OwnersAgree(capability: Option<seq<Raw<Evidence>>>, vs: seq<Invocation>, required: Option<Raw<Evidence>>) {
    && capability.Some?
    && (forall raw :: raw in capability.value ==> Whole(raw))
    && Consistent(CapabilityClaims(Records(capability.value)) + LocalClaims(vs))
    && (required.Some? ==> RequiredHolds(required.value, vs))
  }

  ghost predicate Registered(owners: map<string, Owner>, cs: seq<Claim>) {
    && (forall i :: 0 <= i < |cs| ==> cs[i].callId in owners && owners[cs[i].callId] == cs[i].owner)
    && (forall c :: c in owners ==> exists i :: 0 <= i < |cs| && cs[i].callId == c)
  }

  predicate Admits(owners: map<string, Owner>, c: Claim) {
    c.callId in owners ==> owners[c.callId] == c.owner
  }

  lemma RegisteredStep(owners: map<string, Owner>, cs: seq<Claim>, c: Claim)
    requires Registered(owners, cs)
    ensures Admits(owners, c) ==> Registered(owners[c.callId := c.owner], cs + [c])
    ensures !Admits(owners, c) ==> !Consistent(cs + [c])
  {
    var cs' := cs + [c];
    assert cs'[|cs|] == c;
    if Admits(owners, c) {
      forall k | k in owners ensures exists i :: 0 <= i < |cs'| && cs'[i].callId == k {
        var i :| 0 <= i < |cs| && cs[i].callId == k;
        assert cs'[i].callId == k;
      }
    } else {
      var i :| 0 <= i < |cs| && cs[i].callId == c.callId;
      assert cs'[i] == cs[i];
    }
  }

  lemma PrefixConsistent(cs: seq<Claim>, i: nat)
    requires i <= |cs| && Consistent(cs)
    ensures Consistent(cs[..i])
  {
  }

  lemma RegisteredConsistent(owners: map<string, Owner>, cs: seq<Claim>)
    requires Registered(owners, cs)
    ensures Consistent(cs)
  {
  }

  /** The claims in order, each kept unless it contradicts an earlier one. */
  method RegisterAll(claims: seq<Claim>) returns (ok: bool, owners: map<string, Owner>)
    ensures ok <==> Consistent(claims)
    ensures ok ==> Registered(owners, claims)
  {
    ok, owners := true, map[];
    hide Registered, Consistent, Admits;
    assert claims[..0] == [];
    NoneRegistered();
    for i := 0 to |claims|
      invariant Registered(owners, claims[..i])
    {
      var c := claims[i];
      RegisteredStep(owners, claims[..i], c);
      assert claims[..i + 1] == claims[..i] + [c];
      if !Admits(owners, c) {
        if Consistent(claims) { PrefixConsistent(claims, i + 1); }
        ok := false;
        return;
      }
      owners := owners[c.callId := c.owner];
    }
    assert claims[..|claims|] == claims;
    RegisteredConsistent(owners, claims);
  }

  lemma NoneRegistered()
    ensures Registered(map[], [])
  {
  }

  /** Whether the three kinds of evidence disagree. */
  method OwnerError(capability: Option<seq<Raw<Evidence>>>, vs: seq<Invocation>, required: Option<Raw<Evidence>>) returns (error: bool)
    ensures !error <==> OwnersAgree(capability, vs, required)
  {
    if capability.None? { return true; }
    hide ValidEvidence;
    if exists raw :: raw in capability.value && !Whole(raw) { return true; }
    var claims := CapabilityClaims(Records(capability.value)) + LocalClaims(vs);
    var ok, owners := RegisterAll(claims);
    if !ok { return true; }
    if required.None? { return false; }
    if !Whole(required.value) { return true; }
    var record := required.value.record;
    CompletedClaimed(owners, capability.value, vs, record);
    var fits := && record.kind == Builtin && record.phase == Completed
                && Admits(owners, Claim(record.callId, OwnerOf(record)))
                && CompletedLocally(vs, record.identity, record.callId);
    return !fits;
  }

  /** A local completion has already claimed the call for the builtin. */
  lemma CompletedClaimed(owners: map<string, Owner>, raws: seq<Raw<Evidence>>, vs: seq<Invocation>, record: Evidence)
    requires forall raw :: raw in raws ==> raw.Payload?
    requires Registered(owners, CapabilityClaims(Records(raws)) + LocalClaims(vs))
    ensures record.kind == Builtin && CompletedLocally(vs, record.identity, record.callId) ==>
              Admits(owners, Claim(record.callId, OwnerOf(record)))
  {
    if record.kind == Builtin && CompletedLocally(vs, record.identity, record.callId) {
      var i :| 0 <= i < |vs| && vs[i].identity == record.identity && vs[i].callId == record.callId;
      var caps, locals := CapabilityClaims(Records(raws)), LocalClaims(vs);
      assert (caps + locals)[|caps| + i] == locals[i];
    }
  }

  const MISMATCH := "tool_invocation_evidence_mismatch"

  /** The whole check: the Bash evidence, then the error already found for the
      capabilities, then the owners. */
  method RuntimeEvidence(value: Option<seq<Raw<Invocation>>>, required: Option<Raw<Evidence>>, binding: Binding,
                         capability: Option<seq<Raw<Evidence>>>, capabilityError: Option<string>)
      returns (vs: seq<Invocation>, error: Option<string>)
    ensures error.None? <==>
      && value.Some? && WellFormed(value.value, binding)
      && (capabilityError.None? || capabilityError.value == "")
      && OwnersAgree(capability, Records(value.value), required)
    ensures vs == if value.Some? && WellFormed(value.value, binding) then Records(value.value) else []
    ensures error.Some? ==> error.value == MISMATCH || error == capabilityError
  {
    hide WellFormed, OwnersAgree;
    var v := ValidateInvocations(value, binding);
    vs := if v.Accepted? then v.records else [];
    var disagree := OwnerError(capability, vs, required);
    if v.Mismatch? {
      error := Some(MISMATCH);
    } else if capabilityError.Some? && capabilityError.value != "" {
      error := capabilityError;
    } else if disagree {
      error := Some(MISMATCH);
    } else {
      error := None;
    }
  }

  /** Accepted required evidence stands for a Bash call of this very run that
      started and then completed. */
  lemma RequiredBacked(raws: seq<Raw<Invocation>>, binding: Binding, capability: Option<seq<Raw<Evidence>>>, required: Raw<Evidence>)
    requires WellFormed(raws, binding) && OwnersAgree(capability, Records(raws), Some(required))
    ensures required.record.identity == BashName()
    ensures var call := CallOf(Records(raws), required.record.callId);
            |call| == 2 && call[0].phase == Started && call[1].phase == Completed && Matches(call[1].binding, binding)
  {
    var vs, c := Records(raws), required.record.callId;
    var i :| 0 <= i < |vs| && vs[i].phase == Completed && vs[i].identity == required.record.identity && vs[i].callId == c;
    assert raws[i] in raws;
    OwnCall(vs, i);
    var call := CallOf(vs, c);
    assert Lifecycle(call);
    hide CallOf, BashName, ValidCallId;
    assert vs[i] == call[0] || vs[i] == call[1];
  }

  lemma OwnCall(vs: seq<Invocation>, i: nat)
    requires i < |vs|
    ensures vs[i] in CallOf(vs, vs[i].callId)
  {
    ToolEvidence.CallMembers(vs, vs[i].callId);
    assert vs[i] in vs;
  }

  /** In accepted evidence a call id of a capability is never a Bash call. */
  lemma CallsDisjoint(raws: seq<Raw<Invocation>>, binding: Binding, capability: seq<Raw<Evidence>>, required: Option<Raw<Evidence>>, i: nat, j: nat)
    requires WellFormed(raws, binding) && OwnersAgree(Some(capability), Records(raws), required)
    requires i < |capability| && j < |raws|
    requires capability[i].Payload? && raws[j].Payload? && capability[i].record.kind != Builtin
    ensures capability[i].record.callId != raws[j].record.callId
  {
    var es, vs := Records(capability), Records(raws);
    var caps, locals := CapabilityClaims(es), LocalClaims(vs);
    assert (caps + locals)[i] == caps[i] && (caps + locals)[|caps| + j] == locals[j];
  }
}
