/** Whether the evidence of skill and MCP invocations completes a run
    (app/required_tool_contract.py): the decision for selected declarations, and
    the decision over every observed invocation, which groups records by call and
    asks the first one about each group. */
module ToolCompletion {
  import opened Options
  import opened ToolEvidence

  datatype Owner = Owner(kind: Kind, identity: string)

  // The strings a declaration may carry, and one for every other string.
  datatype DeclaredSchema = DeclarationV1 | UnknownSchema
  datatype DeclaredPhase = Selected | UnknownPhase
  datatype DeclaredStatus = Required | UnknownStatus
  datatype DeclaredSource = AuthorizedSubject | IntentParser | UnknownSource
  datatype DeclaredBasis = DerivedSubject | LockedInput | UnknownBasis

  /** The nine fields a declaration's digest covers. */
  datatype Content = Content(
    schema: DeclaredSchema, kind: Kind, identity: string, phase: DeclaredPhase, status: DeclaredStatus,
    source: DeclaredSource, basis: DeclaredBasis, publicLabel: Label, publicStatus: DeclaredStatus)

  datatype Declaration = Declaration(content: Content, digest: string)

  type Hash = Content -> string

  /** What a declaration of a capability has to say. */
  function Standard(kind: Kind, identity: string): Content {
    if kind == Builtin
    then Content(DeclarationV1, kind, BashName(), Selected, Required, IntentParser, LockedInput, SafeLabel, Required)
    else Content(DeclarationV1, kind, identity, Selected, Required, AuthorizedSubject, DerivedSubject, SafeLabel, Required)
  }

  /** The declaration made for an authorized skill or MCP tool. */
  function FromSubject(hash: Hash, owner: Owner): Declaration {
    Declaration(Standard(owner.kind, owner.identity), hash(Standard(owner.kind, owner.identity)))
  }

  datatype Reason = NotSelected | EvidenceValid | EvidenceMissing | EvidenceMismatch

  datatype Decision = Decision(allowed: bool, reason: Reason, about: Option<Owner>)

  function OwnerOf(e: Evidence): Owner { Owner(e.kind, e.identity) }

  function Declares(d: Declaration): Owner { Owner(d.content.kind, d.content.identity) }

  predicate ValidDeclaration(hash: Hash, d: Declaration) {
    && d.content.kind != OtherKind && d.content == Standard(d.content.kind, d.content.identity)
    && d.digest == hash(d.content)
  }

  predicate Whole(raw: Raw<Evidence>) {
    raw.Payload? && ValidEvidence(raw.record)
  }

  // ---- Selected declarations -----------------------------------------------------------------------

  function OwnedBy(es: seq<Evidence>, owner: Owner): seq<Evidence> {
    Filter(es, (e: Evidence) => OwnerOf(e) == owner)
  }

  /** A completion, or a failure that is allowed for the capability or is the
      MCP server's own error result. */
  predicate Finishes(e: Evidence, allowed: set<Owner>) {
    e.phase == Completed || (e.phase == Failed && (OwnerOf(e) in allowed || e.basis == ErrorResult))
  }

  /** One request followed by one acceptable end of the same call. */
  predicate Sequence(es: seq<Evidence>, allowed: set<Owner>) {
    |es| == 2 && es[0].phase == Requested && es[0].callId == es[1].callId && Finishes(es[1], allowed)
  }

  predicate Sealed(es: seq<Evidence>, digest: string, binding: Binding) {
    forall e :: e in es ==> e.digest == digest && Matches(binding, e.binding)
  }

  predicate OneOwner(es: seq<Evidence>) {
    forall i, j :: 0 <= i < |es| && 0 <= j < |es| && es[i].callId == es[j].callId ==> OwnerOf(es[i]) == OwnerOf(es[j])
  }

  predicate Distinct(ds: seq<Declaration>) {
    forall i, j :: 0 <= i < j < |ds| ==> Declares(ds[i]) != Declares(ds[j])
  }

  function Owners(es: seq<Evidence>): set<Owner> { set e | e in es :: OwnerOf(e) }

  function Declared(ds: seq<Declaration>): set<Owner> { set d | d in ds :: Declares(d) }

  predicate Satisfied(d: Declaration, es: seq<Evidence>, binding: Binding, allowed: set<Owner>) {
    var own := OwnedBy(es, Declares(d));
    Sequence(own, allowed) && Sealed(own, d.digest, binding)
  }

  /** What the selected declarations ask of the evidence. */
  ghost predicate SelectedHolds(hash: Hash, ds: seq<Declaration>, binding: Binding, raws: seq<Raw<Evidence>>, allowed: set<Owner>) {
    && (forall d :: d in ds ==> ValidDeclaration(hash, d))
    && (forall raw :: raw in raws ==> Whole(raw))
    && OneOwner(Records(raws))
    && Distinct(ds) && Owners(Records(raws)) == Declared(ds)
    && forall d :: d in ds ==> Satisfied(d, Records(raws), binding, allowed)
  }

  /** Records with their positions. */
  function Enumerate(es: seq<Evidence>, from: nat): seq<(nat, Evidence)> {
    if es == [] then [] else [(from, es[0])] + Enumerate(es[1..], from + 1)
  }

  predicate Ascending(s: seq<(nat, Evidence)>, from: nat) {
    && (forall i :: 0 <= i < |s| ==> from <= s[i].0)
    && (forall i, j :: 0 <= i < j < |s| ==> s[i].0 < s[j].0)
  }

  predicate Numbers(s: seq<(nat, Evidence)>, es: seq<Evidence>) {
    |s| == |es| && forall i :: 0 <= i < |s| ==> s[i].1 == es[i]
  }

  function Matching(es: seq<Evidence>, owner: Owner, from: nat): seq<(nat, Evidence)> {
    Filter(Enumerate(es, from), (x: (nat, Evidence)) => OwnerOf(x.1) == owner)
  }

  lemma {:induction false} MatchingNumbers(es: seq<Evidence>, owner: Owner, from: nat)
    ensures Ascending(Matching(es, owner, from), from)
    ensures Numbers(Matching(es, owner, from), OwnedBy(es, owner))
    decreases |es|
  {
    hide Matching, OwnedBy;
    if es == [] {
      MatchingNone(owner, from);
    } else {
      MatchingNumbers(es[1..], owner, from + 1);
      MatchingCons(es, owner, from);
      var rest, own := Matching(es[1..], owner, from + 1), OwnedBy(es[1..], owner);
      if OwnerOf(es[0]) == owner {
        NumbersCons(rest, own, es[0], from);
      } else {
        assert [] + rest == rest && [] + own == own;
      }
    }
  }

  lemma MatchingNone(owner: Owner, from: nat)
    ensures Matching([], owner, from) == [] && OwnedBy([], owner) == []
  {
  }

  lemma NumbersCons(s: seq<(nat, Evidence)>, es: seq<Evidence>, e: Evidence, from: nat)
    requires Ascending(s, from + 1) && Numbers(s, es)
    ensures Ascending([(from, e)] + s, from) && Numbers([(from, e)] + s, [e] + es)
  {
  }

  lemma MatchingCons(es: seq<Evidence>, owner: Owner, from: nat)
    requires es != []
    ensures Matching(es, owner, from) == (if OwnerOf(es[0]) == owner then [(from, es[0])] else []) + Matching(es[1..], owner, from + 1)
    ensures OwnedBy(es, owner) == (if OwnerOf(es[0]) == owner then [es[0]] else []) + OwnedBy(es[1..], owner)
  {
    var all := Enumerate(es, from);
    assert all[0] == (from, es[0]) && all[1..] == Enumerate(es[1..], from + 1);
  }

  function InPhase(s: seq<(nat, Evidence)>, phase: Phase): seq<(nat, Evidence)> {
    Filter(s, (x: (nat, Evidence)) => x.1.phase == phase)
  }

  /** The test made on the three lists of a declaration's records. */
  predicate Passes(matching: seq<(nat, Evidence)>, owner: Owner, allowed: set<Owner>) {
    var invoking := InPhase(matching, Requested);
    var completed := InPhase(matching, Completed);
    var failed := InPhase(matching, Failed);
    || (&& |invoking| == 1 && |completed| == 1 && failed == []
        && invoking[0].0 < completed[0].0 && invoking[0].1.callId == completed[0].1.callId)
    || (&& (owner in allowed || (|failed| == 1 && failed[0].1.basis == ErrorResult))
        && |invoking| == 1 && completed == [] && |failed| == 1
        && invoking[0].0 < failed[0].0 && invoking[0].1.callId == failed[0].1.callId)
  }

  lemma {:induction false} PhasesPartition(s: seq<(nat, Evidence)>)
    requires forall x :: x in s ==> x.1.phase in {Requested, Completed, Failed}
    ensures |s| == |InPhase(s, Requested)| + |InPhase(s, Completed)| + |InPhase(s, Failed)|
    decreases |s|
  {
    if s != [] {
      PhasesPartition(s[1..]);
    }
  }

  lemma TwoInPhase(s: seq<(nat, Evidence)>, phase: Phase)
    requires |s| == 2
    ensures InPhase(s, phase) == (if s[0].1.phase == phase then [s[0]] else []) + (if s[1].1.phase == phase then [s[1]] else [])
  {
    var p := (x: (nat, Evidence)) => x.1.phase == phase;
    assert s == [] + [s[0]] + [s[1]];
    FilterSnoc([] + [s[0]], s[1], p);
    FilterSnoc([], s[0], p);
  }

  lemma PassesExact(s: seq<(nat, Evidence)>, es: seq<Evidence>, owner: Owner, allowed: set<Owner>)
    requires Numbers(s, es) && Ascending(s, 0)
    requires forall x :: x in s ==> x.1.phase in {Requested, Completed, Failed} && OwnerOf(x.1) == owner
    ensures Passes(s, owner, allowed) <==> Sequence(es, allowed)
  {
    PhasesPartition(s);
    if |s| == 2 {
      TwoInPhase(s, Requested);
      TwoInPhase(s, Completed);
      TwoInPhase(s, Failed);
      assert s[0] in s && s[1] in s;
    }
    hide InPhase;
  }

  lemma ValidPhase(e: Evidence)
    requires ValidEvidence(e)
    ensures e.phase in {Requested, Completed, Failed}
  {
  }

  /** What the loop body decides about one declaration. */
  lemma DeclarationExact(es: seq<Evidence>, d: Declaration, binding: Binding, allowed: set<Owner>)
    requires forall e :: e in es ==> ValidEvidence(e)
    ensures var m := Matching(es, Declares(d), 0);
            Satisfied(d, es, binding, allowed) <==>
              Passes(m, Declares(d), allowed) && forall x :: x in m ==> x.1.digest == d.digest && Matches(binding, x.1.binding)
  {
    hide ValidEvidence, Passes, Sequence, Matches;
    var own, m := OwnedBy(es, Declares(d)), Matching(es, Declares(d), 0);
    MatchingNumbers(es, Declares(d), 0);
    FilterMembers(es, (e: Evidence) => OwnerOf(e) == Declares(d));
    forall x | x in m ensures x.1 in own && x.1.phase in {Requested, Completed, Failed} {
      var i :| 0 <= i < |m| && m[i] == x;
      assert own[i] == x.1;
      ValidPhase(x.1);
    }
    forall e | e in own ensures exists x :: x in m && x.1 == e {
      var i :| 0 <= i < |own| && own[i] == e;
      assert m[i] in m && m[i].1 == e;
    }
    PassesExact(m, own, Declares(d), allowed);
  }

  /** The owner recorded for each call id is the owner of all its records. */
  ghost predicate Claimed(owners: map<string, Owner>, seen: seq<Evidence>) {
    && (forall e :: e in seen ==> e.callId in owners && owners[e.callId] == OwnerOf(e))
    && (forall c :: c in owners ==> exists e :: e in seen && e.callId == c)
  }

  method ClaimOwners(es: seq<Evidence>) returns (conflict: Option<Owner>)
    ensures conflict.None? <==> OneOwner(es)
    ensures conflict.Some? ==> exists e :: e in es && conflict.value == OwnerOf(e)
  {
    var owners: map<string, Owner> := map[];
    for i := 0 to |es|
      invariant Claimed(owners, es[..i])
    {
      assert es[..i + 1] == es[..i] + [es[i]];
      var e := es[i];
      if e.callId !in owners {
        owners := owners[e.callId := OwnerOf(e)];
      } else if owners[e.callId] != OwnerOf(e) {
        var e' :| e' in es[..i] && e'.callId == e.callId;
        var k :| 0 <= k < i && es[k] == e';
        return Some(OwnerOf(e));
      }
    }
    assert es[..|es|] == es;
    return None;
  }

  /** The decision for selected declarations. */
  method SelectedDecision(hash: Hash, declarations: seq<Declaration>, binding: Binding,
                          evidence: Option<seq<Raw<Evidence>>>, allowed: set<Owner>) returns (r: Decision)
    ensures r.allowed <==> declarations == [] || (evidence.Some? && SelectedHolds(hash, declarations, binding, evidence.value, allowed))
    ensures r.reason == NotSelected <==> declarations == []
    ensures r.reason == EvidenceValid <==> declarations != [] && r.allowed
    ensures r.reason == EvidenceMissing <==>
              declarations != [] && (forall d :: d in declarations ==> ValidDeclaration(hash, d)) && evidence == Some([])
    ensures r.reason == EvidenceMissing ==> r.about == Some(Declares(declarations[0]))
  {
    if declarations == [] { return Decision(true, NotSelected, None); }
    hide ValidDeclaration, ValidEvidence, Passes, Matching, Satisfied, Matches;
    if || (exists d :: d in declarations && !ValidDeclaration(hash, d)) || evidence.None?
       || (exists raw :: raw in evidence.value && !Whole(raw)) {
      return Decision(false, EvidenceMismatch, None);
    }
    var records := Records(evidence.value);
    forall e | e in records ensures ValidEvidence(e) {
      var i :| 0 <= i < |records| && records[i] == e;
      assert evidence.value[i] in evidence.value;
    }
    var conflict := ClaimOwners(records);
    if conflict.Some? { return Decision(false, EvidenceMismatch, conflict); }
    if records == [] {
      NothingSatisfies(declarations[0], binding, allowed);
      return Decision(false, EvidenceMissing, Some(Declares(declarations[0])));
    }
    if !Distinct(declarations) || Owners(records) != Declared(declarations) {
      return Decision(false, EvidenceMismatch, None);
    }
    var bad := FirstUnsatisfied(declarations, records, binding, allowed);
    if bad.Some? { return Decision(false, EvidenceMismatch, Some(Declares(bad.value))); }
    return Decision(true, EvidenceValid, None);
  }

  method FirstUnsatisfied(declarations: seq<Declaration>, records: seq<Evidence>, binding: Binding, allowed: set<Owner>) returns (bad: Option<Declaration>)
    requires forall e :: e in records ==> ValidEvidence(e)
    ensures bad.None? <==> forall d :: d in declarations ==> Satisfied(d, records, binding, allowed)
    ensures bad.Some? ==> bad.value in declarations && !Satisfied(bad.value, records, binding, allowed)
  {
    hide ValidEvidence, Passes, Matching, Satisfied, Matches;
    for i := 0 to |declarations|
      invariant forall k :: 0 <= k < i ==> Satisfied(declarations[k], records, binding, allowed)
    {
      var d := declarations[i];
      var matching := Matching(records, Declares(d), 0);
      DeclarationExact(records, d, binding, allowed);
      if !Passes(matching, Declares(d), allowed)
        || exists x :: x in matching && !(x.1.digest == d.digest && Matches(binding, x.1.binding)) {
        return Some(d);
      }
    }
    return None;
  }

  lemma NothingSatisfies(d: Declaration, binding: Binding, allowed: set<Owner>)
    ensures !Satisfied(d, [], binding, allowed)
  {
    assert OwnedBy([], Declares(d)) == [];
  }

  // ---- Every observed invocation ---------------------------------------------------------------------

  function CallEvidence(es: seq<Evidence>, c: string): seq<Evidence> {
    Filter(es, (e: Evidence) => e.callId == c)
  }

  /** The records of one call: one authorized owner, a request and then an
      acceptable end, all carrying the owner's digest and the run's binding. */
  predicate CallHolds(hash: Hash, available: set<Owner>, binding: Binding, call: seq<Evidence>, allowed: set<Owner>) {
    && |call| == 2
    && OwnerOf(call[0]) == OwnerOf(call[1]) && OwnerOf(call[0]) in available
    && (call[0].kind == Skill || call[0].kind == Mcp)
    && call[0].phase == Requested && Finishes(call[1], allowed)
    && Sealed(call, hash(Standard(call[0].kind, call[0].identity)), binding)
  }

  /** What the decision promises over all evidence of a run. */
  ghost predicate EveryCallHolds(hash: Hash, available: set<Owner>, binding: Binding, raws: seq<Raw<Evidence>>, allowed: set<Owner>) {
    && (forall raw :: raw in raws ==> Whole(raw))
    && forall raw :: raw in raws ==> CallHolds(hash, available, binding, CallEvidence(Records(raws), raw.record.callId), allowed)
  }

  datatype Key = Key(owner: Owner, callId: string)

  ghost predicate InGroup(key: Key, group: seq<Evidence>, seen: seq<Evidence>) {
    && group == CallEvidence(seen, key.callId) && group != []
    && forall e :: e in group ==> OwnerOf(e) == key.owner
  }

  ghost predicate Grouped(groups: map<Key, seq<Evidence>>, order: seq<Key>, owners: map<string, Owner>, seen: seq<Evidence>) {
    && Claimed(owners, seen)
    && (forall e :: e in seen ==> Key(OwnerOf(e), e.callId) in groups)
    && (forall k :: k in groups ==> InGroup(k, groups[k], seen))
    && (forall k :: k in order <==> k in groups)
  }

  lemma CallMembers(es: seq<Evidence>, c: string)
    ensures forall e :: e in CallEvidence(es, c) <==> e in es && e.callId == c
  {
    FilterMembers(es, (e: Evidence) => e.callId == c);
  }

  lemma CallSnoc(es: seq<Evidence>, e: Evidence, c: string)
    ensures CallEvidence(es + [e], c) == CallEvidence(es, c) + (if e.callId == c then [e] else [])
  {
    FilterSnoc(es, e, (x: Evidence) => x.callId == c);
  }

  lemma CallFresh(owners: map<string, Owner>, seen: seq<Evidence>, c: string)
    requires Claimed(owners, seen) && c !in owners
    ensures CallEvidence(seen, c) == []
  {
    FilterNone(seen, (e: Evidence) => e.callId == c);
  }

  function Appended(groups: map<Key, seq<Evidence>>, key: Key, e: Evidence): map<Key, seq<Evidence>> {
    groups[key := (if key in groups then groups[key] else []) + [e]]
  }

  lemma ClaimedSnoc(owners: map<string, Owner>, seen: seq<Evidence>, e: Evidence)
    requires Claimed(owners, seen)
    requires e.callId in owners ==> owners[e.callId] == OwnerOf(e)
    ensures Claimed(owners[e.callId := OwnerOf(e)], seen + [e])
  {
    assert e in seen + [e];
    forall c | c in owners ensures exists x :: x in seen + [e] && x.callId == c {
      var x :| x in seen && x.callId == c;
      assert x in seen + [e];
    }
  }

  /** A call whose owner has no group yet has no records yet. */
  lemma GroupBefore(groups: map<Key, seq<Evidence>>, order: seq<Key>, owners: map<string, Owner>, seen: seq<Evidence>, e: Evidence)
    requires Grouped(groups, order, owners, seen)
    requires e.callId in owners ==> owners[e.callId] == OwnerOf(e)
    ensures var key := Key(OwnerOf(e), e.callId);
            (if key in groups then groups[key] else []) == CallEvidence(seen, e.callId)
    ensures forall x :: x in CallEvidence(seen, e.callId) ==> OwnerOf(x) == OwnerOf(e)
  {
    CallMembers(seen, e.callId);
    hide CallEvidence;
    if e.callId !in owners {
      CallFresh(owners, seen, e.callId);
    }
  }

  lemma GroupedStep(groups: map<Key, seq<Evidence>>, order: seq<Key>, owners: map<string, Owner>, seen: seq<Evidence>, e: Evidence)
    requires Grouped(groups, order, owners, seen)
    requires e.callId in owners ==> owners[e.callId] == OwnerOf(e)
    ensures var key := Key(OwnerOf(e), e.callId);
            Grouped(Appended(groups, key, e), if key in groups then order else order + [key], owners[e.callId := OwnerOf(e)], seen + [e])
  {
    var key := Key(OwnerOf(e), e.callId);
    var groups' := Appended(groups, key, e);
    ClaimedSnoc(owners, seen, e);
    forall k | k in groups' ensures InGroup(k, groups'[k], seen + [e]) {
      GroupKept(groups, order, owners, seen, e, k);
    }
    hide InGroup, Claimed;
  }

  lemma GroupKept(groups: map<Key, seq<Evidence>>, order: seq<Key>, owners: map<string, Owner>, seen: seq<Evidence>, e: Evidence, k: Key)
    requires Grouped(groups, order, owners, seen)
    requires e.callId in owners ==> owners[e.callId] == OwnerOf(e)
    requires k in Appended(groups, Key(OwnerOf(e), e.callId), e)
    ensures InGroup(k, Appended(groups, Key(OwnerOf(e), e.callId), e)[k], seen + [e])
  {
    GroupBefore(groups, order, owners, seen, e);
    CallSnoc(seen, e, k.callId);
    hide CallEvidence, Claimed;
    if k != Key(OwnerOf(e), e.callId) {
      OtherGroup(groups, order, owners, seen, e, k);
      assert InGroup(k, groups[k], seen);
    }
  }

  lemma OtherGroup(groups: map<Key, seq<Evidence>>, order: seq<Key>, owners: map<string, Owner>, seen: seq<Evidence>, e: Evidence, k: Key)
    requires Grouped(groups, order, owners, seen) && k in groups && k != Key(OwnerOf(e), e.callId)
    requires e.callId in owners ==> owners[e.callId] == OwnerOf(e)
    ensures k.callId != e.callId
  {
    CallMembers(seen, k.callId);
    hide CallEvidence;
    var first := groups[k][0];
    assert first in groups[k];
  }

  lemma CallOwners(hash: Hash, available: set<Owner>, binding: Binding, call: seq<Evidence>, allowed: set<Owner>, e: Evidence, e': Evidence)
    requires CallHolds(hash, available, binding, call, allowed) && e in call && e' in call
    ensures OwnerOf(e) == OwnerOf(e') && OwnerOf(e) in available
  {
  }

  /** A record whose owner is not available, or not the owner of an earlier record
      of its call, spoils the evidence. */
  lemma Stray(hash: Hash, available: set<Owner>, binding: Binding, raws: seq<Raw<Evidence>>, allowed: set<Owner>, i: nat, j: nat)
    requires forall raw :: raw in raws ==> raw.Payload?
    requires i < |raws| && j < |raws| && raws[i].record.callId == raws[j].record.callId
    requires OwnerOf(raws[i].record) !in available || OwnerOf(raws[i].record) != OwnerOf(raws[j].record)
    ensures !EveryCallHolds(hash, available, binding, raws, allowed)
  {
    var es := Records(raws);
    assert raws[i] in raws && es[i] in es && es[j] in es;
    var call := CallEvidence(es, es[i].callId);
    CallMembers(es, es[i].callId);
    hide CallEvidence, Whole, CallHolds;
    if CallHolds(hash, available, binding, call, allowed) {
      CallOwners(hash, available, binding, call, allowed, es[i], es[j]);
    }
  }

  function Payloads(es: seq<Evidence>): (raws: seq<Raw<Evidence>>)
    ensures |raws| == |es| && forall i :: 0 <= i < |es| ==> raws[i] == Payload(es[i])
  {
    seq(|es|, i requires 0 <= i < |es| => Payload(es[i]))
  }

  /** For the records of one call by one owner, the selected-declaration decision
      is the per-call condition. */
  lemma GroupExact(hash: Hash, available: set<Owner>, binding: Binding, group: seq<Evidence>, allowed: set<Owner>, key: Key)
    requires key.owner in available && (key.owner.kind == Skill || key.owner.kind == Mcp)
    requires group != [] && forall e :: e in group ==> ValidEvidence(e) && OwnerOf(e) == key.owner && e.callId == key.callId
    ensures var d := FromSubject(hash, key.owner);
            SelectedHolds(hash, [d], binding, Payloads(group), allowed) <==> CallHolds(hash, available, binding, group, allowed)
  {
    var d := FromSubject(hash, key.owner);
    var raws := Payloads(group);
    hide ValidEvidence, Matches, Finishes;
    assert group[0] in group;
    assert forall raw :: raw in raws ==> Whole(raw);
    assert Records(raws) == group;
    GroupOwners(group, key.owner, d);
    FilterAll(group, (e: Evidence) => OwnerOf(e) == key.owner);
    assert OwnedBy(group, key.owner) == group;
    assert d in [d];
    assert OneOwner(group);
    hide OwnedBy, Owners, Declared, OneOwner;
    assert SelectedHolds(hash, [d], binding, raws, allowed) <==> Satisfied(d, group, binding, allowed);
    assert |group| == 2 ==> group[0] in group && group[1] in group;
  }

  lemma GroupOwners(group: seq<Evidence>, owner: Owner, d: Declaration)
    requires group != [] && forall e :: e in group ==> OwnerOf(e) == owner
    requires Declares(d) == owner
    ensures Owners(group) == Declared([d])
  {
    assert group[0] in group && d in [d];
    assert Owners(group) == {owner} && Declared([d]) == {owner};
  }

  datatype Outcome = Decided(decision: Decision) | Raised

  predicate Allows(o: Outcome) {
    o.Decided? && o.decision.allowed
  }

  /** Every record has an available owner, and no call has two. */
  predicate Orderly(available: set<Owner>, es: seq<Evidence>) {
    (forall i :: 0 <= i < |es| ==> OwnerOf(es[i]) in available) && OneOwner(es)
  }

  /** Record `k` is the first of a builtin, and the calls of all earlier records hold. */
  predicate FirstBuiltin(hash: Hash, available: set<Owner>, binding: Binding, es: seq<Evidence>, allowed: set<Owner>, k: nat) {
    && k < |es| && es[k].kind == Builtin
    && forall j :: 0 <= j < k ==> es[j].kind != Builtin && CallHolds(hash, available, binding, CallEvidence(es, es[j].callId), allowed)
  }

  /** When building a declaration raises: for orderly evidence in which a builtin's
      record comes before any call that does not hold. */
  ghost predicate RaisesOn(hash: Hash, available: set<Owner>, binding: Binding, raws: seq<Raw<Evidence>>, allowed: set<Owner>) {
    && (forall raw :: raw in raws ==> Whole(raw))
    && Orderly(available, Records(raws))
    && exists k: nat :: FirstBuiltin(hash, available, binding, Records(raws), allowed, k)
  }

  /** The decision over every observed invocation. Building a declaration raises
      for an owner that is neither a skill nor an MCP tool. */
  method InvocationDecision(hash: Hash, available: set<Owner>, binding: Binding,
                            evidence: Option<seq<Raw<Evidence>>>, allowed: set<Owner>) returns (r: Outcome)
    ensures Allows(r) <==> evidence.Some? && EveryCallHolds(hash, available, binding, evidence.value, allowed)
    ensures Allows(r) ==> r.decision.reason == if evidence.value == [] then NotSelected else EvidenceValid
    ensures r.Raised? <==> evidence.Some? && RaisesOn(hash, available, binding, evidence.value, allowed)
  {
    var mismatch := Decided(Decision(false, EvidenceMismatch, None));
    if evidence.None? { return mismatch; }
    var raws := evidence.value;
    hide ValidEvidence, EveryCallHolds, CallHolds, Grouped, Orderly, FirstBuiltin;
    if exists raw :: raw in raws && !Whole(raw) {
      Broken(hash, available, binding, raws, allowed);
      return mismatch;
    }
    var ok, groups, order, owners := GroupByCall(available, raws);
    if !ok {
      Disorderly(hash, available, binding, raws, allowed);
      return mismatch;
    }
    OrderlyRaws(available, raws);
    r := DecideGroups(hash, available, binding, raws, groups, order, owners, allowed);
    RaisedByRecord(hash, available, binding, raws, groups, order, owners, allowed);
  }

  lemma OrderlyRaws(available: set<Owner>, raws: seq<Raw<Evidence>>)
    requires (forall raw :: raw in raws ==> raw.Payload?) && Orderly(available, Records(raws))
    ensures forall raw :: raw in raws ==> OwnerOf(raw.record) in available
  {
    forall raw | raw in raws ensures OwnerOf(raw.record) in available {
      var i :| 0 <= i < |raws| && raws[i] == raw;
      assert Records(raws)[i] == raw.record;
    }
  }

  lemma Disorderly(hash: Hash, available: set<Owner>, binding: Binding, raws: seq<Raw<Evidence>>, allowed: set<Owner>)
    requires (forall raw :: raw in raws ==> raw.Payload?) && !Orderly(available, Records(raws))
    ensures !EveryCallHolds(hash, available, binding, raws, allowed)
  {
    hide EveryCallHolds;
    var es := Records(raws);
    if i :| 0 <= i < |es| && OwnerOf(es[i]) !in available {
      Stray(hash, available, binding, raws, allowed, i, i);
    } else {
      var i, j :| 0 <= i < |es| && 0 <= j < |es| && es[i].callId == es[j].callId && OwnerOf(es[i]) != OwnerOf(es[j]);
      Stray(hash, available, binding, raws, allowed, i, j);
    }
  }

  function KeyOf(e: Evidence): Key { Key(OwnerOf(e), e.callId) }

  /** The calls in the order of their first records. */
  function Firsts(es: seq<Evidence>): seq<Key> {
    if es == [] then []
    else
      var front := Firsts(es[..|es| - 1]);
      var key := KeyOf(es[|es| - 1]);
      if key in front then front else front + [key]
  }

  lemma FirstsSnoc(es: seq<Evidence>, e: Evidence)
    ensures Firsts(es + [e]) == if KeyOf(e) in Firsts(es) then Firsts(es) else Firsts(es) + [KeyOf(e)]
  {
    assert (es + [e])[..|es|] == es;
  }

  lemma {:induction false} FirstsMembers(es: seq<Evidence>)
    ensures forall e :: e in es ==> KeyOf(e) in Firsts(es)
    ensures forall k :: k in Firsts(es) ==> exists i :: 0 <= i < |es| && KeyOf(es[i]) == k
  {
    if es != [] {
      var front := es[..|es| - 1];
      FirstsMembers(front);
      assert es == front + [es[|es| - 1]];
      forall k | k in Firsts(es) ensures exists i :: 0 <= i < |es| && KeyOf(es[i]) == k {
        if k in Firsts(front) {
          var i :| 0 <= i < |front| && KeyOf(front[i]) == k;
          assert KeyOf(es[i]) == k;
        } else {
          assert KeyOf(es[|es| - 1]) == k;
        }
      }
    }
  }

  lemma {:induction false} FirstsKinds(es: seq<Evidence>)
    requires forall i :: 0 <= i < |es| ==> es[i].kind != Builtin
    ensures forall k :: k in Firsts(es) ==> k.owner.kind != Builtin
  {
    if es != [] { FirstsKinds(es[..|es| - 1]); }
  }

  lemma {:induction false} FirstsPrefix(es: seq<Evidence>, k: nat)
    requires k <= |es|
    ensures Firsts(es[..k]) <= Firsts(es)
    decreases |es|
  {
    if k < |es| {
      var front := es[..|es| - 1];
      FirstsPrefix(front, k);
      assert front[..k] == es[..k];
    } else {
      assert es[..k] == es;
    }
  }

  /** The first loop: records by owner and call, in the order the calls appear. */
  method GroupByCall(available: set<Owner>, raws: seq<Raw<Evidence>>)
      returns (ok: bool, groups: map<Key, seq<Evidence>>, order: seq<Key>, owners: map<string, Owner>)
    requires forall raw :: raw in raws ==> raw.Payload?
    ensures ok <==> Orderly(available, Records(raws))
    ensures ok ==> Grouped(groups, order, owners, Records(raws)) && order == Firsts(Records(raws))
  {
    hide Grouped, Appended, Firsts;
    var records := Records(raws);
    ok, groups, order, owners := true, map[], [], map[];
    NothingGrouped();
    assert records[..0] == [];
    for i := 0 to |records|
      invariant Grouped(groups, order, owners, records[..i]) && order == Firsts(records[..i])
      invariant forall k :: 0 <= k < i ==> OwnerOf(records[k]) in available
    {
      var e := records[i];
      var key := KeyOf(e);
      if key.owner !in available {
        ok := false;
        return;
      }
      if e.callId in owners && owners[e.callId] != key.owner {
        var k := Earlier(groups, order, owners, records, i);
        ok := false;
        return;
      }
      GroupedStep(groups, order, owners, records[..i], e);
      FirstsSnoc(records[..i], e);
      OrderKeys(groups, order, owners, records[..i], key);
      assert records[..i + 1] == records[..i] + [e];
      order := if key in groups then order else order + [key];
      groups := Appended(groups, key, e);
      owners := owners[e.callId := key.owner];
    }
    assert records[..|records|] == records;
    GroupedOneOwner(groups, order, owners, records);
  }

  lemma OrderKeys(groups: map<Key, seq<Evidence>>, order: seq<Key>, owners: map<string, Owner>, seen: seq<Evidence>, key: Key)
    requires Grouped(groups, order, owners, seen)
    ensures key in order <==> key in groups
  {
    hide InGroup, Claimed;
  }

  lemma GroupedOneOwner(groups: map<Key, seq<Evidence>>, order: seq<Key>, owners: map<string, Owner>, seen: seq<Evidence>)
    requires Grouped(groups, order, owners, seen)
    ensures OneOwner(seen)
  {
    hide InGroup;
  }

  lemma NothingGrouped()
    ensures Grouped(map[], [], map[], []) && Firsts([]) == []
  {
  }

  lemma Broken(hash: Hash, available: set<Owner>, binding: Binding, raws: seq<Raw<Evidence>>, allowed: set<Owner>)
    requires exists raw :: raw in raws && !Whole(raw)
    ensures !EveryCallHolds(hash, available, binding, raws, allowed)
  {
  }

  lemma Earlier(groups: map<Key, seq<Evidence>>, order: seq<Key>, owners: map<string, Owner>, es: seq<Evidence>, i: nat) returns (k: nat)
    requires i < |es| && Grouped(groups, order, owners, es[..i])
    requires es[i].callId in owners && owners[es[i].callId] != OwnerOf(es[i])
    ensures k < i && es[k].callId == es[i].callId && OwnerOf(es[k]) != OwnerOf(es[i])
  {
    var e :| e in es[..i] && e.callId == es[i].callId;
    k :| 0 <= k < i && es[k] == e;
  }

  /** The first builtin key, all keys before it holding. */
  predicate RaisesAt(hash: Hash, available: set<Owner>, binding: Binding, groups: map<Key, seq<Evidence>>, order: seq<Key>, allowed: set<Owner>, i: nat) {
    && i < |order| && order[i].owner.kind == Builtin
    && forall j :: 0 <= j < i ==>
         order[j] in groups && order[j].owner.kind != Builtin && CallHolds(hash, available, binding, groups[order[j]], allowed)
  }

  lemma GroupOf(groups: map<Key, seq<Evidence>>, order: seq<Key>, owners: map<string, Owner>, es: seq<Evidence>, e: Evidence)
    requires Grouped(groups, order, owners, es) && e in es
    ensures KeyOf(e) in groups && groups[KeyOf(e)] == CallEvidence(es, e.callId)
  {
    hide CallEvidence, Claimed;
    assert InGroup(KeyOf(e), groups[KeyOf(e)], es);
  }

  /** The keys decide as the records do: first appearances come in the same order. */
  lemma RaisedByRecord(hash: Hash, available: set<Owner>, binding: Binding, raws: seq<Raw<Evidence>>,
                       groups: map<Key, seq<Evidence>>, order: seq<Key>, owners: map<string, Owner>, allowed: set<Owner>)
    requires forall raw :: raw in raws ==> raw.Payload?
    requires Grouped(groups, order, owners, Records(raws)) && order == Firsts(Records(raws))
    ensures (exists i: nat :: RaisesAt(hash, available, binding, groups, order, allowed, i)) <==>
            (exists k: nat :: FirstBuiltin(hash, available, binding, Records(raws), allowed, k))
  {
    hide CallHolds, CallEvidence, Grouped, Firsts;
    var es := Records(raws);
    if i: nat :| RaisesAt(hash, available, binding, groups, order, allowed, i) {
      FirstsMembers(es);
      assert order[i] in Firsts(es);
      var n :| 0 <= n < |es| && KeyOf(es[n]) == order[i];
      var k := FirstOfKind(es, n);
      RecordsBefore(hash, available, binding, es, groups, order, owners, allowed, i, k);
      assert FirstBuiltin(hash, available, binding, es, allowed, k);
    }
    if k: nat :| FirstBuiltin(hash, available, binding, es, allowed, k) {
      KeysBefore(hash, available, binding, es, groups, order, owners, allowed, k);
    }
  }

  lemma {:induction false} FirstOfKind(es: seq<Evidence>, n: nat) returns (k: nat)
    requires n < |es| && es[n].kind == Builtin
    ensures k <= n && es[k].kind == Builtin && forall j :: 0 <= j < k ==> es[j].kind != Builtin
    decreases n
  {
    if j :| 0 <= j < n && es[j].kind == Builtin { k := FirstOfKind(es, j); } else { k := n; }
  }

  lemma RecordsBefore(hash: Hash, available: set<Owner>, binding: Binding, es: seq<Evidence>,
                      groups: map<Key, seq<Evidence>>, order: seq<Key>, owners: map<string, Owner>, allowed: set<Owner>, i: nat, k: nat)
    requires Grouped(groups, order, owners, es) && order == Firsts(es)
    requires RaisesAt(hash, available, binding, groups, order, allowed, i)
    requires k < |es| && forall j :: 0 <= j < k ==> es[j].kind != Builtin
    ensures forall j :: 0 <= j < k ==> CallHolds(hash, available, binding, CallEvidence(es, es[j].callId), allowed)
  {
    hide CallHolds, CallEvidence, Grouped, Firsts;
    var front := es[..k];
    FirstsPrefix(es, k);
    FirstsMembers(front);
    FirstsKinds(front);
    var firsts := Firsts(front);
    assert forall p :: 0 <= p < |firsts| ==> firsts[p] in firsts && firsts[p] == order[p];
    assert |firsts| <= i;
    forall j | 0 <= j < k ensures CallHolds(hash, available, binding, CallEvidence(es, es[j].callId), allowed) {
      assert front[j] == es[j] && es[j] in front && es[j] in es;
      var p :| 0 <= p < |firsts| && firsts[p] == KeyOf(es[j]);
      assert order[p] == KeyOf(es[j]) && p < i;
      GroupOf(groups, order, owners, es, es[j]);
    }
  }

  lemma KeysBefore(hash: Hash, available: set<Owner>, binding: Binding, es: seq<Evidence>,
                   groups: map<Key, seq<Evidence>>, order: seq<Key>, owners: map<string, Owner>, allowed: set<Owner>, k: nat)
    requires Grouped(groups, order, owners, es) && order == Firsts(es)
    requires FirstBuiltin(hash, available, binding, es, allowed, k)
    ensures RaisesAt(hash, available, binding, groups, order, allowed, |Firsts(es[..k])|)
  {
    hide CallHolds, CallEvidence, Grouped, Firsts;
    var front, i := es[..k], |Firsts(es[..k])|;
    FirstsMembers(front);
    FirstsKinds(front);
    assert KeyOf(es[k]) !in Firsts(front);
    FirstsPrefix(es, k);
    FirstsPrefix(es, k + 1);
    assert es[..k + 1] == front + [es[k]];
    FirstsSnoc(front, es[k]);
    forall j | 0 <= j < i
      ensures order[j] in groups && order[j].owner.kind != Builtin && CallHolds(hash, available, binding, groups[order[j]], allowed)
    {
      assert order[j] == Firsts(front)[j] && Firsts(front)[j] in Firsts(front);
      var n :| 0 <= n < |front| && KeyOf(front[n]) == order[j];
      assert front[n] == es[n] && es[n] in es;
      GroupOf(groups, order, owners, es, es[n]);
    }
    assert order[i] == KeyOf(es[k]);
  }

  /** A caller that makes only skills and MCP tools available never sees the exception. */
  lemma SkillsAndToolsNeverRaise(hash: Hash, available: set<Owner>, binding: Binding, raws: seq<Raw<Evidence>>, allowed: set<Owner>)
    requires forall o :: o in available ==> o.kind == Skill || o.kind == Mcp
    ensures !RaisesOn(hash, available, binding, raws, allowed)
  {
    hide CallHolds, CallEvidence, OneOwner, Whole;
    if (forall raw :: raw in raws ==> raw.Payload?) && Orderly(available, Records(raws)) {
      var es := Records(raws);
      forall k | 0 <= k < |es| ensures es[k].kind != Builtin { assert OwnerOf(es[k]) in available; }
    }
  }

  /** One Bash completion, with Bash made available: the decision raises. */
  lemma BashRaises(hash: Hash, binding: Binding)
    requires Complete(binding)
    ensures var e := Evidence(EvidenceV1, binding, "c", Builtin, BashName(), Completed, Succeeded, PrivatePayload, AttemptBound, SafeLabel, Succeeded, "d");
            RaisesOn(hash, {Owner(Builtin, BashName())}, binding, [Payload(e)], {})
  {
    var e := Evidence(EvidenceV1, binding, "c", Builtin, BashName(), Completed, Succeeded, PrivatePayload, AttemptBound, SafeLabel, Succeeded, "d");
    var available := {Owner(Builtin, BashName())};
    assert ValidCallId("c") && BashName() != "";
    assert Whole(Payload(e));
    var es := Records([Payload(e)]);
    assert es == [e];
    hide Whole;
    assert FirstBuiltin(hash, available, binding, es, {}, 0);
  }

  /** The second loop: each group is asked about as one selected declaration. */
  method DecideGroups(hash: Hash, available: set<Owner>, binding: Binding, raws: seq<Raw<Evidence>>,
                      groups: map<Key, seq<Evidence>>, order: seq<Key>, ghost owners: map<string, Owner>, allowed: set<Owner>) returns (r: Outcome)
    requires forall raw :: raw in raws ==> raw.Payload? && Whole(raw)
    requires Grouped(groups, order, owners, Records(raws))
    requires forall raw :: raw in raws ==> OwnerOf(raw.record) in available
    ensures Allows(r) <==> EveryCallHolds(hash, available, binding, raws, allowed)
    ensures Allows(r) ==> r.decision.reason == if raws == [] then NotSelected else EvidenceValid
    ensures r.Raised? <==> exists i: nat :: RaisesAt(hash, available, binding, groups, order, allowed, i)
  {
    hide Whole, EveryCallHolds, CallHolds, SelectedHolds, Grouped;
    for i := 0 to |order|
      invariant forall k :: 0 <= k < i ==> order[k].owner.kind != Builtin
      invariant forall k :: 0 <= k < i ==> order[k] in groups && CallHolds(hash, available, binding, groups[order[k]], allowed)
    {
      var key := order[i];
      GroupFacts(raws, groups, order, owners, available, key);
      var group := groups[key];
      if key.owner.kind != Skill && key.owner.kind != Mcp {
        GroupSpoils(hash, available, binding, raws, groups, order, owners, allowed, key);
        assert RaisesAt(hash, available, binding, groups, order, allowed, i);
        return Raised;
      }
      GroupExact(hash, available, binding, group, allowed, key);
      var declaration := FromSubject(hash, key.owner);
      var decision := SelectedDecision(hash, [declaration], binding, Some(Payloads(group)), allowed);
      if !decision.allowed {
        GroupSpoils(hash, available, binding, raws, groups, order, owners, allowed, key);
        return Decided(decision);
      }
    }
    AllGroups(hash, available, binding, raws, groups, order, owners, allowed);
    return Decided(Decision(true, if groups != map[] then EvidenceValid else NotSelected, None));
  }

  lemma GroupFacts(raws: seq<Raw<Evidence>>, groups: map<Key, seq<Evidence>>, order: seq<Key>, owners: map<string, Owner>, available: set<Owner>, key: Key)
    requires forall raw :: raw in raws ==> raw.Payload? && Whole(raw)
    requires Grouped(groups, order, owners, Records(raws)) && key in order
    requires forall raw :: raw in raws ==> OwnerOf(raw.record) in available
    ensures key in groups && groups[key] == CallEvidence(Records(raws), key.callId) && groups[key] != []
    ensures key.owner in available && key.owner.kind != OtherKind
    ensures forall e :: e in groups[key] ==> ValidEvidence(e) && OwnerOf(e) == key.owner && e.callId == key.callId
    ensures exists raw :: raw in raws && raw.record.callId == key.callId
  {
    var es := Records(raws);
    CallMembers(es, key.callId);
    hide CallEvidence, ValidCallId;
    forall e | e in es ensures exists raw :: raw in raws && raw.record == e {
      var i :| 0 <= i < |es| && es[i] == e;
      assert raws[i] in raws;
    }
    assert groups[key][0] in groups[key];
  }

  lemma GroupSpoils(hash: Hash, available: set<Owner>, binding: Binding, raws: seq<Raw<Evidence>>,
                    groups: map<Key, seq<Evidence>>, order: seq<Key>, owners: map<string, Owner>, allowed: set<Owner>, key: Key)
    requires forall raw :: raw in raws ==> raw.Payload? && Whole(raw)
    requires Grouped(groups, order, owners, Records(raws)) && key in order && key in groups
    requires forall raw :: raw in raws ==> OwnerOf(raw.record) in available
    requires (key.owner.kind != Skill && key.owner.kind != Mcp) || !CallHolds(hash, available, binding, groups[key], allowed)
    ensures !EveryCallHolds(hash, available, binding, raws, allowed)
  {
    GroupFacts(raws, groups, order, owners, available, key);
    hide CallEvidence, Whole, Grouped;
    var raw :| raw in raws && raw.record.callId == key.callId;
    assert groups[key][0] in groups[key];
  }

  lemma AllGroups(hash: Hash, available: set<Owner>, binding: Binding, raws: seq<Raw<Evidence>>,
                  groups: map<Key, seq<Evidence>>, order: seq<Key>, owners: map<string, Owner>, allowed: set<Owner>)
    requires forall raw :: raw in raws ==> raw.Payload? && Whole(raw)
    requires Grouped(groups, order, owners, Records(raws))
    requires forall k :: 0 <= k < |order| ==> order[k] in groups && CallHolds(hash, available, binding, groups[order[k]], allowed)
    ensures EveryCallHolds(hash, available, binding, raws, allowed)
    ensures groups == map[] <==> raws == []
  {
    hide CallEvidence, Whole, CallHolds;
    var es := Records(raws);
    forall raw | raw in raws
      ensures CallHolds(hash, available, binding, CallEvidence(es, raw.record.callId), allowed)
    {
      var i :| 0 <= i < |raws| && raws[i] == raw;
      assert es[i] in es;
      var key := Key(OwnerOf(es[i]), es[i].callId);
      assert key in groups;
      assert InGroup(key, groups[key], es);
    }
    if raws != [] { assert es[0] in es; }
    if k: Key :| k in groups { assert InGroup(k, groups[k], es); SomeRecord(es, k.callId); }
  }

  lemma SomeRecord(es: seq<Evidence>, c: string)
    requires CallEvidence(es, c) != []
    ensures es != []
  {
  }

  /** The well-formed records of one call, in order. */
  function OfCall(raws: seq<Raw<Evidence>>, c: string): seq<Evidence> {
    if raws == [] then []
    else (if raws[0].Payload? && raws[0].record.callId == c then [raws[0].record] else []) + OfCall(raws[1..], c)
  }

  /** Two lists of evidence are interleavings of the same calls. */
  ghost predicate Interleaved(raws: seq<Raw<Evidence>>, raws': seq<Raw<Evidence>>) {
    multiset(raws) == multiset(raws') && forall c :: OfCall(raws, c) == OfCall(raws', c)
  }

  lemma {:induction false} OfCallRecords(raws: seq<Raw<Evidence>>, c: string)
    requires forall raw :: raw in raws ==> raw.Payload?
    ensures OfCall(raws, c) == CallEvidence(Records(raws), c)
    decreases |raws|
  {
    if raws != [] {
      assert Records(raws)[1..] == Records(raws[1..]);
      OfCallRecords(raws[1..], c);
    }
  }

  lemma SameCalls(raws: seq<Raw<Evidence>>, raws': seq<Raw<Evidence>>, c: string)
    requires Interleaved(raws, raws') && (forall raw :: raw in raws ==> raw.Payload?) && (forall raw :: raw in raws' ==> raw.Payload?)
    ensures CallEvidence(Records(raws), c) == CallEvidence(Records(raws'), c)
  {
    hide OfCall, CallEvidence;
    OfCallRecords(raws, c);
    OfCallRecords(raws', c);
  }

  lemma InterleavedHold(hash: Hash, available: set<Owner>, binding: Binding, raws: seq<Raw<Evidence>>, raws': seq<Raw<Evidence>>, allowed: set<Owner>)
    requires Interleaved(raws, raws')
    ensures EveryCallHolds(hash, available, binding, raws, allowed) <==> EveryCallHolds(hash, available, binding, raws', allowed)
  {
    assert forall raw :: raw in raws <==> raw in multiset(raws);
    assert forall raw :: raw in raws' <==> raw in multiset(raws');
    hide CallEvidence, CallHolds;
    if forall raw :: raw in raws ==> Whole(raw) {
      forall c ensures CallEvidence(Records(raws), c) == CallEvidence(Records(raws'), c) { SameCalls(raws, raws', c); }
    }
    hide Whole, Interleaved;
  }

  /** Whatever the interleaving of the calls, even with malformed records among them,
      two decisions allow alike. */
  method InterleavingIrrelevant(hash: Hash, available: set<Owner>, binding: Binding,
                                raws: seq<Raw<Evidence>>, raws': seq<Raw<Evidence>>, allowed: set<Owner>) returns (r: Outcome, r': Outcome)
    requires Interleaved(raws, raws')
    ensures Allows(r) <==> Allows(r')
    ensures Allows(r) <==> EveryCallHolds(hash, available, binding, raws, allowed)
  {
    hide EveryCallHolds, RaisesOn, Interleaved;
    r := InvocationDecision(hash, available, binding, Some(raws), allowed);
    r' := InvocationDecision(hash, available, binding, Some(raws'), allowed);
    InterleavedHold(hash, available, binding, raws, raws', allowed);
  }
}
