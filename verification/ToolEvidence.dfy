/** Evidence of tool invocations (app/required_tool_contract.py): the records, what
    makes one valid by itself, and the loop that follows the lifecycle of every
    Bash call. */
module ToolEvidence {
  import opened Options

  // ---- Records -------------------------------------------------------------------------------------

  /** The run and attempt a record belongs to; a missing field is empty. */
  datatype Binding = Binding(tenant: string, workspace: string, user: string, session: string, run: string, attempt: string)

  predicate Complete(b: Binding) {
    b.tenant != "" && b.workspace != "" && b.user != "" && b.session != "" && b.run != "" && b.attempt != ""
  }

  predicate Matches(left: Binding, right: Binding) {
    Complete(left) && left == right
  }

  /** A record as it arrives: anything that is not a dictionary with exactly the
      expected keys and string values is malformed. */
  datatype Raw<+R> = Malformed | Payload(record: R)

  // The strings the contract knows, one constructor each, and one for every other string.
  datatype Schema = EvidenceV1 | InvocationV1 | OtherSchema
  datatype Label = SafeLabel | OtherLabel
  datatype Kind = Builtin | Skill | Mcp | OtherKind
  datatype Phase = Requested | Started | Completed | Failed | OtherPhase
  datatype Status = Invoking | Succeeded | Unsuccessful | OtherStatus
  datatype Source = PrivatePayload | SdkHook | OtherSource
  datatype Basis = AttemptBound | CallBound | ErrorResult | OtherBasis

  datatype Evidence = Evidence(
    schema: Schema, binding: Binding, callId: string, kind: Kind, identity: string,
    phase: Phase, status: Status, source: Source, basis: Basis,
    publicLabel: Label, publicStatus: Status, digest: string)

  datatype Invocation = Invocation(
    schema: Schema, binding: Binding, callId: string, identity: string,
    phase: Phase, status: Status, source: Source, basis: Basis)

  /** The one local tool. */
  function BashName(): string { "Bash" }

  /** Printable ASCII, at least one and at most 512 characters. */
  predicate ValidCallId(s: string) {
    0 < |s| <= 512 && forall c :: c in s ==> 33 <= c as int <= 126
  }

  predicate Trusted(kind: Kind, source: Source, basis: Basis) {
    match kind
    case Builtin => source == PrivatePayload && basis == AttemptBound
    case Mcp => source == SdkHook && (basis == CallBound || basis == ErrorResult)
    case Skill => source == SdkHook && basis == CallBound
    case OtherKind => false
  }

  /** The status that goes with each phase of a capability's evidence. */
  predicate EvidencePair(phase: Phase, status: Status) {
    || (phase == Requested && status == Invoking)
    || (phase == Completed && status == Succeeded)
    || (phase == Failed && status == Unsuccessful)
  }

  predicate InvocationPair(phase: Phase, status: Status) {
    || (phase == Started && status == Invoking)
    || (phase == Completed && status == Succeeded)
    || (phase == Failed && status == Unsuccessful)
  }

  predicate ValidEvidence(e: Evidence) {
    && e.schema == EvidenceV1
    && Complete(e.binding) && ValidCallId(e.callId)
    && e.identity != "" && e.digest != ""
    && EvidencePair(e.phase, e.status)
    && e.publicLabel == SafeLabel && e.publicStatus == e.status
    && Trusted(e.kind, e.source, e.basis)
    && (e.basis == ErrorResult ==> e.phase == Failed)
  }

  predicate ValidInvocation(v: Invocation) {
    && v.schema == InvocationV1
    && Complete(v.binding) && ValidCallId(v.callId)
    && v.identity == BashName()
    && InvocationPair(v.phase, v.status)
    && v.source == PrivatePayload && v.basis == AttemptBound
  }

  // ---- The records of one call -----------------------------------------------------------------------

  /** The elements that satisfy `p`, in order. */
  function Filter<T>(s: seq<T>, p: T -> bool): seq<T> {
    if s == [] then [] else (if p(s[0]) then [s[0]] else []) + Filter(s[1..], p)
  }

  lemma {:induction false} FilterMembers<T(!new)>(s: seq<T>, p: T -> bool)
    ensures forall x :: x in Filter(s, p) <==> x in s && p(x)
    decreases |s|
  {
    if s != [] {
      FilterMembers(s[1..], p);
      assert forall x :: x in s <==> x == s[0] || x in s[1..];
    }
  }

  lemma {:induction false} FilterConcat<T(!new)>(a: seq<T>, b: seq<T>, p: T -> bool)
    ensures Filter(a + b, p) == Filter(a, p) + Filter(b, p)
    decreases |a|
  {
    if a == [] {
      assert a + b == b;
    } else {
      assert (a + b)[0] == a[0] && (a + b)[1..] == a[1..] + b;
      FilterConcat(a[1..], b, p);
      var head := if p(a[0]) then [a[0]] else [];
      assert Filter(a + b, p) == head + (Filter(a[1..], p) + Filter(b, p));
      assert Filter(a, p) == head + Filter(a[1..], p);
      hide Filter;
    }
  }

  lemma FilterSnoc<T(!new)>(s: seq<T>, x: T, p: T -> bool)
    ensures Filter(s + [x], p) == Filter(s, p) + (if p(x) then [x] else [])
  {
    FilterConcat(s, [x], p);
    assert [x][1..] == [];
  }

  /** What is kept of a beginning is the beginning of what is kept. */
  lemma FilterPrefix<T(!new)>(s: seq<T>, i: nat, p: T -> bool)
    requires i <= |s|
    ensures Filter(s[..i], p) <= Filter(s, p)
  {
    assert s == s[..i] + s[i..];
    FilterConcat(s[..i], s[i..], p);
  }

  lemma {:induction false} FilterNone<T(!new)>(s: seq<T>, p: T -> bool)
    requires forall x :: x in s ==> !p(x)
    ensures Filter(s, p) == []
    decreases |s|
  {
    if s != [] { FilterNone(s[1..], p); }
  }

  lemma {:induction false} FilterAll<T(!new)>(s: seq<T>, p: T -> bool)
    requires forall x :: x in s ==> p(x)
    ensures Filter(s, p) == s
    decreases |s|
  {
    if s != [] { FilterAll(s[1..], p); }
  }

  // ---- Bash ------------------------------------------------------------------------------------------

  function CallOf(vs: seq<Invocation>, c: string): seq<Invocation> {
    Filter(vs, (v: Invocation) => v.callId == c)
  }

  /** One start followed by one end. */
  predicate Lifecycle(call: seq<Invocation>) {
    |call| == 2 && call[0].phase == Started && (call[1].phase == Completed || call[1].phase == Failed)
  }

  predicate WholeInvocation(raw: Raw<Invocation>, binding: Binding) {
    raw.Payload? && ValidInvocation(raw.record) && Matches(raw.record.binding, binding)
  }

  function Records<R>(raws: seq<Raw<R>>): (r: seq<R>)
    requires forall raw :: raw in raws ==> raw.Payload?
    ensures |r| == |raws| && forall i :: 0 <= i < |r| ==> r[i] == raws[i].record
  {
    seq(|raws|, i requires 0 <= i < |raws| => assert raws[i] in raws; raws[i].record)
  }

  /** What the Bash evidence promises: every record is valid and bound, and the
      records of each call are one start followed by one end. */
  ghost predicate WellFormed(raws: seq<Raw<Invocation>>, binding: Binding) {
    && (forall raw :: raw in raws ==> WholeInvocation(raw, binding))
    && forall raw :: raw in raws ==> Lifecycle(CallOf(Records(raws), raw.record.callId))
  }

  /** The recorded phase is the last one of the call, and the call has gone well so far. */
  predicate Tracks(phase: Phase, call: seq<Invocation>) {
    if phase == Started then |call| == 1 && call[0].phase == Started
    else (phase == Completed || phase == Failed) && |call| == 2 && call[0].phase == Started && call[1].phase == phase
  }

  ghost predicate Tracked(states: map<(string, string), Phase>, seen: seq<Invocation>) {
    && (forall v :: v in seen ==> (BashName(), v.callId) in states)
    && (forall k :: k in states ==> k.0 == BashName() && Tracks(states[k], CallOf(seen, k.1)))
  }

  /** The next record does not continue its call. */
  predicate Refused(states: map<(string, string), Phase>, v: Invocation) {
    var key := (v.identity, v.callId);
    if v.phase == Started then key in states else !(key in states && states[key] == Started)
  }

  lemma CallSnoc(vs: seq<Invocation>, v: Invocation, c: string)
    ensures CallOf(vs + [v], c) == CallOf(vs, c) + (if v.callId == c then [v] else [])
  {
    FilterSnoc(vs, v, (w: Invocation) => w.callId == c);
  }

  lemma CallPrefix(vs: seq<Invocation>, i: nat, c: string)
    requires i <= |vs|
    ensures CallOf(vs[..i], c) <= CallOf(vs, c)
  {
    FilterPrefix(vs, i, (w: Invocation) => w.callId == c);
  }

  lemma CallMembers(vs: seq<Invocation>, c: string)
    ensures forall v :: v in CallOf(vs, c) <==> v in vs && v.callId == c
  {
    FilterMembers(vs, (v: Invocation) => v.callId == c);
  }

  lemma CallEmpty(vs: seq<Invocation>, c: string)
    requires forall v :: v in vs ==> v.callId != c
    ensures CallOf(vs, c) == []
  {
    FilterNone(vs, (v: Invocation) => v.callId == c);
  }

  lemma TrackedStep(states: map<(string, string), Phase>, seen: seq<Invocation>, v: Invocation)
    requires Tracked(states, seen) && ValidInvocation(v) && !Refused(states, v)
    ensures Tracked(states[(BashName(), v.callId) := v.phase], seen + [v])
  {
    hide BashName, Tracks, Complete, ValidCallId;
    var states' := states[(BashName(), v.callId) := v.phase];
    if (BashName(), v.callId) !in states { CallEmpty(seen, v.callId); }
    forall k | k in states' ensures k.0 == BashName() && Tracks(states'[k], CallOf(seen + [v], k.1)) {
      CallSnoc(seen, v, k.1);
      TrackedCall(states, seen, v, k);
    }
  }

  lemma TrackedCall(states: map<(string, string), Phase>, seen: seq<Invocation>, v: Invocation, k: (string, string))
    requires Tracked(states, seen) && ValidInvocation(v) && !Refused(states, v)
    requires k in states || k == (BashName(), v.callId)
    requires (BashName(), v.callId) !in states ==> CallOf(seen, v.callId) == []
    ensures k.0 == BashName()
    ensures Tracks(if k == (BashName(), v.callId) then v.phase else states[k], CallOf(seen, k.1) + if v.callId == k.1 then [v] else [])
  {
    hide BashName, CallOf, Complete, ValidCallId;
    if k in states { assert Tracks(states[k], CallOf(seen, k.1)); }
  }

  lemma Spoiled(before: seq<Invocation>, v: Invocation, call: seq<Invocation>)
    requires before + [v] <= call && ValidInvocation(v)
    requires before == [] || Tracks(Started, before) || Tracks(Completed, before) || Tracks(Failed, before)
    requires if v.phase == Started then before != [] else !Tracks(Started, before)
    ensures !Lifecycle(call)
  {
    hide ValidCallId, Complete;
    assert call[|before|] == v;
    assert before != [] ==> before[0] == call[0];
  }

  lemma CallContinues(seen: seq<Invocation>, v: Invocation, vs: seq<Invocation>)
    requires seen + [v] <= vs
    ensures CallOf(seen, v.callId) + [v] <= CallOf(vs, v.callId)
  {
    hide CallOf;
    assert vs[..|seen| + 1] == seen + [v];
    CallSnoc(seen, v, v.callId);
    CallPrefix(vs, |seen| + 1, v.callId);
  }

  lemma TrackedAt(states: map<(string, string), Phase>, seen: seq<Invocation>, c: string)
    requires Tracked(states, seen)
    ensures if (BashName(), c) in states then Tracks(states[(BashName(), c)], CallOf(seen, c)) else CallOf(seen, c) == []
  {
    hide BashName, CallOf, Tracks;
    if (BashName(), c) !in states { CallEmpty(seen, c); }
  }

  /** Once refused, no continuation makes the call whole. */
  lemma RefusedForever(states: map<(string, string), Phase>, seen: seq<Invocation>, v: Invocation, vs: seq<Invocation>)
    requires Tracked(states, seen) && ValidInvocation(v) && Refused(states, v)
    requires seen + [v] <= vs
    ensures !Lifecycle(CallOf(vs, v.callId))
  {
    hide BashName, CallOf, Tracked, ValidCallId, Complete, Lifecycle;
    CallContinues(seen, v, vs);
    TrackedAt(states, seen, v.callId);
    Spoiled(CallOf(seen, v.callId), v, CallOf(vs, v.callId));
  }

  /** What is returned for accepted evidence, and the one error otherwise. */
  datatype Validation = Accepted(records: seq<Invocation>) | Mismatch

  lemma BashOnly(v: Invocation)
    requires ValidInvocation(v)
    ensures v.identity == BashName()
  {
  }

  /** The validator of the sandbox's Bash evidence; a value that is no list is a
      mismatch. */
  method ValidateInvocations(value: Option<seq<Raw<Invocation>>>, binding: Binding) returns (r: Validation)
    ensures r.Accepted? <==> value.Some? && WellFormed(value.value, binding)
    ensures r.Accepted? ==> r.records == Records(value.value)
  {
    if value.None? { return Mismatch; }
    var raws := value.value;
    var states: map<(string, string), Phase> := map[];
    assert Tracked(states, []);
    hide BashName, CallOf, Tracked, Lifecycle, Refused, ValidInvocation, Matches, WellFormed;
    var normalized: seq<Invocation> := [];
    for i := 0 to |raws|
      invariant forall k :: 0 <= k < i ==> WholeInvocation(raws[k], binding)
      invariant |normalized| == i && forall k :: 0 <= k < i ==> normalized[k] == raws[k].record
      invariant Tracked(states, normalized)
    {
      if !WholeInvocation(raws[i], binding) {
        NotWhole(raws, i, binding);
        return Mismatch;
      }
      var v := raws[i].record;
      if Refused(states, v) {
        RefusedSpoils(raws, binding, states, normalized);
        return Mismatch;
      }
      TrackedStep(states, normalized, v);
      BashOnly(v);
      states := states[(v.identity, v.callId) := v.phase];
      normalized := normalized + [v];
    }
    assert normalized == Records(raws);
    EndDecides(raws, binding, states);
    if exists k :: k in states && states[k] == Started {
      return Mismatch;
    }
    return Accepted(normalized);
  }

  lemma NotWhole(raws: seq<Raw<Invocation>>, i: nat, binding: Binding)
    requires i < |raws| && !WholeInvocation(raws[i], binding)
    ensures !WellFormed(raws, binding)
  {
    hide WholeInvocation, CallOf, Lifecycle;
    assert raws[i] in raws;
  }

  lemma RefusedSpoils(raws: seq<Raw<Invocation>>, binding: Binding, states: map<(string, string), Phase>, seen: seq<Invocation>)
    requires |seen| < |raws| && WholeInvocation(raws[|seen|], binding)
    requires forall k :: 0 <= k < |seen| ==> raws[k].Payload? && seen[k] == raws[k].record
    requires Tracked(states, seen) && Refused(states, raws[|seen|].record)
    ensures !WellFormed(raws, binding)
  {
    assert raws[|seen|] in raws;
    if forall raw :: raw in raws ==> raw.Payload? {
      var vs := Records(raws);
      assert vs[..|seen| + 1] == seen + [raws[|seen|].record];
      RefusedForever(states, seen, raws[|seen|].record, vs);
    }
    hide CallOf, Refused, Tracked, Lifecycle;
  }

  lemma EndDecides(raws: seq<Raw<Invocation>>, binding: Binding, states: map<(string, string), Phase>)
    requires forall raw :: raw in raws ==> raw.Payload? && WholeInvocation(raw, binding)
    requires Tracked(states, Records(raws))
    ensures WellFormed(raws, binding) <==> forall k :: k in states ==> states[k] != Started
  {
    var vs := Records(raws);
    forall raw | raw in raws ensures raw.record in vs && (BashName(), raw.record.callId) in states {
      var i :| 0 <= i < |raws| && raws[i] == raw;
      assert vs[i] == raw.record;
    }
    if WellFormed(raws, binding) {
      forall k | k in states ensures states[k] != Started {
        var v := CallOf(vs, k.1)[0];
        CallMembers(vs, k.1);
        var i :| 0 <= i < |vs| && vs[i] == v;
        assert raws[i] in raws;
      }
    }
  }

  /** The well-formed records of one call, in order. */
  function OfCall(raws: seq<Raw<Invocation>>, c: string): seq<Invocation> {
    if raws == [] then []
    else (if raws[0].Payload? && raws[0].record.callId == c then [raws[0].record] else []) + OfCall(raws[1..], c)
  }

  /** Two lists of evidence are interleavings of the same calls. */
  ghost predicate Interleaved(raws: seq<Raw<Invocation>>, raws': seq<Raw<Invocation>>) {
    multiset(raws) == multiset(raws') && forall c :: OfCall(raws, c) == OfCall(raws', c)
  }

  lemma {:induction false} OfCallRecords(raws: seq<Raw<Invocation>>, c: string)
    requires forall raw :: raw in raws ==> raw.Payload?
    ensures OfCall(raws, c) == CallOf(Records(raws), c)
    decreases |raws|
  {
    if raws != [] {
      assert Records(raws)[1..] == Records(raws[1..]);
      OfCallRecords(raws[1..], c);
    }
  }

  lemma SameCalls(raws: seq<Raw<Invocation>>, raws': seq<Raw<Invocation>>, c: string)
    requires Interleaved(raws, raws') && (forall raw :: raw in raws ==> raw.Payload?) && (forall raw :: raw in raws' ==> raw.Payload?)
    ensures CallOf(Records(raws), c) == CallOf(Records(raws'), c)
  {
    hide OfCall, CallOf;
    OfCallRecords(raws, c);
    OfCallRecords(raws', c);
  }

  lemma InterleavedFormed(raws: seq<Raw<Invocation>>, raws': seq<Raw<Invocation>>, binding: Binding)
    requires Interleaved(raws, raws')
    ensures WellFormed(raws, binding) <==> WellFormed(raws', binding)
  {
    assert forall raw :: raw in raws <==> raw in multiset(raws);
    assert forall raw :: raw in raws' <==> raw in multiset(raws');
    hide CallOf, Lifecycle;
    if forall raw :: raw in raws ==> WholeInvocation(raw, binding) {
      forall c ensures CallOf(Records(raws), c) == CallOf(Records(raws'), c) { SameCalls(raws, raws', c); }
    }
    hide WholeInvocation, Interleaved;
  }

  /** Whatever the interleaving of the calls, even with malformed records among them,
      two validations agree. */
  method InterleavingIrrelevant(raws: seq<Raw<Invocation>>, raws': seq<Raw<Invocation>>, binding: Binding) returns (r: Validation, r': Validation)
    requires Interleaved(raws, raws')
    ensures r.Accepted? <==> r'.Accepted?
    ensures r.Accepted? <==> WellFormed(raws, binding)
  {
    hide WellFormed, Interleaved;
    r := ValidateInvocations(Some(raws), binding);
    r' := ValidateInvocations(Some(raws'), binding);
    InterleavedFormed(raws, raws', binding);
  }
}
