/** The failover evidence evaluator (src/overseer/agent_handoff.py) and the checks of the
    `FailoverDecision` constructor (src/overseer/agent_contracts.py).

    Timestamps are microseconds. A checkpoint carries raw timestamps, which may be absent or
    unparsable; every other timestamp was parsed when its record was constructed. */
module FailoverEvidence {
  import opened Contracts

  datatype HealthState = Healthy | TransportFailure | HealthFailed | Slow

  datatype Observation = Observation(id: Id, instance: Id, provider: Id, state: HealthState, at: int)

  /** A timestamp field: missing, empty, not a timestamp, or a time. */
  datatype Stamp = Absent | Blank | Malformed | At(time: int)

  datatype Checkpoint = Checkpoint(
    id: Id, instance: Id, session: SessionId, epoch: Id, created: Stamp, expires: Stamp, status: string)

  datatype RiskLevel = Low | Medium | High

  datatype Risk = Risk(id: Id, instance: Id, level: RiskLevel, resolved: bool, transferable: bool)

  datatype Policy = Policy(
    id: Id, instance: Id, approved: bool, approvedAt: Option<int>, failureThreshold: int,
    checkpointMaxAge: int, fallbacks: seq<Id>, decisionLifetime: int)
  {
    /** What the `FailoverPolicy` constructor enforces. */
    predicate Valid() {
      && (approved ==> approvedAt.Some?)
      && failureThreshold > 0 && checkpointMaxAge > 0 && decisionLifetime > 0
      && Distinct(fallbacks)
    }
  }

  datatype EpochRef = EpochRef(id: Id, session: SessionId, provider: Id)

  datatype Evidence = Evidence(
    policy: Option<Policy>,
    health: seq<Observation>,
    checkpoint: Option<Checkpoint>,
    risks: seq<Risk>,
    capabilities: map<Id, Capabilities>,
    healthy: set<Id>,
    readiness: map<Id, Id>,
    required: Capabilities)
  {
    predicate Valid() { policy.Some? ==> policy.value.Valid() }
  }

  datatype Query = Query(
    decision: Id, instance: Id, outgoing: EpochRef, generation: int, evidence: Evidence,
    now: int, transitionChanged: bool)

  datatype Blocker =
    | PolicyMissing | ApprovalTooLate | OnlySlow | BelowThreshold | CheckpointUnusable
    | HighRisk | NotTransferable | NoHealthyFallback | CapabilityMismatch | AlreadyChanged

  const VOCABULARY: seq<Blocker> := [
    PolicyMissing, ApprovalTooLate, OnlySlow, BelowThreshold, CheckpointUnusable,
    HighRisk, NotTransferable, NoHealthyFallback, CapabilityMismatch, AlreadyChanged]

  datatype Decision = Decision(
    id: Id, instance: Id, outgoingEpoch: Id, outgoingProvider: Id, generation: int,
    policy: Option<Id>, incoming: Option<Id>, allowed: bool, blockers: seq<Blocker>,
    healthIds: seq<Id>, riskIds: seq<Id>, timestamps: seq<Stamp>, readinessRefs: seq<Id>,
    checkpoint: Option<Id>, evaluatedAt: int, expiresAt: int)

  datatype Evaluation =
    | ForeignPolicy | ForeignHealth | ForeignRisk | ForeignCheckpoint
    | ConstructorRejects
    | Decided(decision: Decision)

  function Seconds(n: int): int { n * 1_000_000 }

  // ----- The decision constructor -----

  /** The members of `blockers` in vocabulary order: the constructor's `expected_order`. */
  function ExpectedOrder(blockers: seq<Blocker>, k: nat): seq<Blocker>
    requires k <= |VOCABULARY|
  {
    if k == 0 then []
    else ExpectedOrder(blockers, k - 1)
         + if VOCABULARY[k - 1] in blockers then [VOCABULARY[k - 1]] else []
  }

  predicate ConstructorAccepts(d: Decision) {
    && d.generation >= 1
    && Distinct(d.healthIds)
    && Distinct(d.riskIds)
    && (forall t | t in d.timestamps :: t.At?)
    && Distinct(d.readinessRefs)
    && Distinct(d.blockers)
    && d.blockers == ExpectedOrder(d.blockers, |VOCABULARY|)
    && d.expiresAt > d.evaluatedAt
    && (d.allowed <==> d.blockers == [])
    && (d.allowed ==> d.policy.Some? && d.incoming.Some? && d.checkpoint.Some?)
  }

  // ----- The declarative reading of each blocker -----

  predicate Fails(o: Observation) {
    o.state == TransportFailure || o.state == HealthFailed
  }

  predicate Outgoing(q: Query, i: int)
    requires 0 <= i < |q.evidence.health|
  {
    q.evidence.health[i].provider == q.outgoing.provider
  }

  /** Observation `j` comes after `i` in time; ties keep recording order. */
  predicate Later(h: seq<Observation>, j: int, i: int)
    requires 0 <= i < |h| && 0 <= j < |h|
  {
    h[j].at > h[i].at || (h[j].at == h[i].at && j > i)
  }

  /** `i` lies in the maximal trailing run of failures of the outgoing provider. */
  predicate InTrailingRun(q: Query, i: int)
    requires 0 <= i < |q.evidence.health|
  {
    var h := q.evidence.health;
    Outgoing(q, i) && Fails(h[i])
    && forall j | 0 <= j < |h| && Outgoing(q, j) && Later(h, j, i) :: Fails(h[j])
  }

  function TrailingRun(q: Query): set<int> {
    set i | 0 <= i < |q.evidence.health| && InTrailingRun(q, i)
  }

  function ApprovedAt(q: Query): Option<int> {
    if q.evidence.policy.Some? then q.evidence.policy.value.approvedAt else None
  }

  function Threshold(q: Query): int {
    if q.evidence.policy.Some? then q.evidence.policy.value.failureThreshold else 1
  }

  function Fallbacks(q: Query): seq<Id> {
    if q.evidence.policy.Some? then q.evidence.policy.value.fallbacks else []
  }

  predicate CheckpointFresh(q: Query) {
    var maximumAge := if q.evidence.policy.Some? then q.evidence.policy.value.checkpointMaxAge else 0;
    && q.evidence.checkpoint.Some?
    && var c := q.evidence.checkpoint.value;
    && c.created.At? && !c.expires.Malformed?
    && c.epoch == q.outgoing.id && c.session == q.outgoing.session
    && 0 <= q.now - c.created.time <= Seconds(maximumAge)
    && (c.expires.At? ==> c.expires.time > q.now)
  }

  /** A provider the policy may fall back to right now. */
  predicate Available(q: Query, p: Id) {
    p in q.evidence.healthy && p in q.evidence.capabilities && p in q.evidence.readiness
  }

  predicate Capable(q: Query, p: Id) {
    && p in q.evidence.capabilities
    && HandoffImport in q.evidence.capabilities[p]
    && Supports(q.evidence.capabilities[p], q.evidence.required)
  }

  /** `p` is the first fallback in policy order that is available and capable. */
  predicate FirstUsable(q: Query, p: Id) {
    exists k :: 0 <= k < |Fallbacks(q)| && Fallbacks(q)[k] == p && Available(q, p) && Capable(q, p)
      && forall j | 0 <= j < k :: !(Available(q, Fallbacks(q)[j]) && Capable(q, Fallbacks(q)[j]))
  }

  predicate SomeAvailable(q: Query) {
    exists k :: 0 <= k < |Fallbacks(q)| && Available(q, Fallbacks(q)[k])
  }

  predicate SomeUsable(q: Query) {
    exists k :: 0 <= k < |Fallbacks(q)| && Available(q, Fallbacks(q)[k]) && Capable(q, Fallbacks(q)[k])
  }

  predicate Transferable(status: string) {
    status == "ready" || status == "completed" || status == "checkpointed"
  }

  predicate ApprovedTooLate(q: Query) {
    TrailingRun(q) != {}
    && (ApprovedAt(q).None? || exists i | i in TrailingRun(q) :: ApprovedAt(q).value >= q.evidence.health[i].at)
  }

  predicate AllSlow(q: Query) {
    var h := q.evidence.health;
    (exists i :: 0 <= i < |h| && Outgoing(q, i))
    && forall i | 0 <= i < |h| && Outgoing(q, i) :: h[i].state == Slow
  }

  predicate UnresolvedHighRisk(q: Query) {
    exists r | r in q.evidence.risks :: r.level == High && !r.resolved
  }

  predicate WorkNotTransferable(q: Query) {
    || (q.evidence.checkpoint.Some? && !Transferable(q.evidence.checkpoint.value.status))
    || exists r | r in q.evidence.risks :: !r.transferable && !r.resolved
  }

  /** Which blockers apply. */
  datatype Findings = Findings(
    policyMissing: bool, approvalTooLate: bool, onlySlow: bool, belowThreshold: bool, checkpointUnusable: bool,
    highRisk: bool, notTransferable: bool, noHealthyFallback: bool, capabilityMismatch: bool, alreadyChanged: bool)
  {
    predicate Has(b: Blocker) {
      match b
      case PolicyMissing => policyMissing
      case ApprovalTooLate => approvalTooLate
      case OnlySlow => onlySlow
      case BelowThreshold => belowThreshold
      case CheckpointUnusable => checkpointUnusable
      case HighRisk => highRisk
      case NotTransferable => notTransferable
      case NoHealthyFallback => noHealthyFallback
      case CapabilityMismatch => capabilityMismatch
      case AlreadyChanged => alreadyChanged
    }
  }

  const NothingFound := Findings(false, false, false, false, false, false, false, false, false, false)

  /** When each blocker applies, stated on the evidence alone. */
  function FindingsOf(q: Query): Findings {
    Findings(
      q.evidence.policy.None? || !q.evidence.policy.value.approved,
      ApprovedTooLate(q), AllSlow(q), |TrailingRun(q)| < Threshold(q), !CheckpointFresh(q),
      UnresolvedHighRisk(q), WorkNotTransferable(q),
      !SomeAvailable(q), SomeAvailable(q) && !SomeUsable(q), q.transitionChanged)
  }

  predicate Blocks(q: Query, b: Blocker) { FindingsOf(q).Has(b) }

  function ListUpTo(f: Findings, k: nat): seq<Blocker>
    requires k <= |VOCABULARY|
  {
    if k == 0 then []
    else ListUpTo(f, k - 1) + if f.Has(VOCABULARY[k - 1]) then [VOCABULARY[k - 1]] else []
  }

  function Blockers(q: Query): seq<Blocker> { ListUpTo(FindingsOf(q), |VOCABULARY|) }

  /** The position of the first usable fallback at or after `k`. */
  function SelectFrom(q: Query, k: nat): Option<Id>
    requires k <= |Fallbacks(q)|
    decreases |Fallbacks(q)| - k
  {
    if k == |Fallbacks(q)| then None
    else if Available(q, Fallbacks(q)[k]) && Capable(q, Fallbacks(q)[k]) then Some(Fallbacks(q)[k])
    else SelectFrom(q, k + 1)
  }

  function Readiness(q: Query, k: nat): seq<Id>
    requires k <= |Fallbacks(q)|
  {
    if k == 0 then []
    else Readiness(q, k - 1)
         + if Fallbacks(q)[k - 1] in q.evidence.readiness
           then [q.evidence.readiness[Fallbacks(q)[k - 1]]] else []
  }

  function Timestamps(q: Query): seq<Stamp> {
    var e := q.evidence;
    (if ApprovedAt(q).Some? then [At(ApprovedAt(q).value)] else [])
    + seq(|e.health|, i requires 0 <= i < |e.health| => At(e.health[i].at))
    + (if e.checkpoint.Some? && e.checkpoint.value.created != Absent then [e.checkpoint.value.created] else [])
    + (if e.checkpoint.Some? && e.checkpoint.value.expires != Absent then [e.checkpoint.value.expires] else [])
  }

  function Lifetime(q: Query): int {
    if q.evidence.policy.Some? then q.evidence.policy.value.decisionLifetime else 1
  }

  function DecisionOf(q: Query): Decision {
    var e := q.evidence;
    var blockers := Blockers(q);
    Decision(
      q.decision, q.instance, q.outgoing.id, q.outgoing.provider, q.generation,
      if e.policy.Some? then Some(e.policy.value.id) else None,
      if blockers == [] then SelectFrom(q, 0) else None,
      blockers == [], blockers,
      seq(|e.health|, i requires 0 <= i < |e.health| => e.health[i].id),
      seq(|e.risks|, i requires 0 <= i < |e.risks| => e.risks[i].id),
      Timestamps(q), Readiness(q, |Fallbacks(q)|),
      if e.checkpoint.Some? then Some(e.checkpoint.value.id) else None,
      q.now, q.now + Seconds(Lifetime(q)))
  }

  /** The evaluator: refuse foreign evidence, then build a decision. */
  function Evaluate(q: Query): Evaluation {
    var e := q.evidence;
    if e.policy.Some? && e.policy.value.instance != q.instance then ForeignPolicy
    else if exists o | o in e.health ::
        o.instance != q.instance || !(o.provider == q.outgoing.provider || o.provider in Fallbacks(q)) then
      ForeignHealth
    else if exists r | r in e.risks :: r.instance != q.instance then ForeignRisk
    else if e.checkpoint.Some?
      && (e.checkpoint.value.instance != q.instance || e.checkpoint.value.epoch != q.outgoing.id
          || e.checkpoint.value.session != q.outgoing.session) then ForeignCheckpoint
    else if ConstructorAccepts(DecisionOf(q)) then Decided(DecisionOf(q))
    else ConstructorRejects
  }

  // ----- What the evaluator guarantees -----

  lemma {:induction false} ListMembership(f: Findings, k: nat)
    requires k <= |VOCABULARY|
    ensures forall b :: b in ListUpTo(f, k) <==> f.Has(b) && b in VOCABULARY[..k]
  {
    if k > 0 {
      ListMembership(f, k - 1);
      assert VOCABULARY[..k] == VOCABULARY[..k - 1] + [VOCABULARY[k - 1]];
    }
  }

  lemma VocabularyComplete(b: Blocker)
    ensures b in VOCABULARY && Distinct(VOCABULARY)
  {
    match b
    case PolicyMissing => assert VOCABULARY[0] == b;
    case ApprovalTooLate => assert VOCABULARY[1] == b;
    case OnlySlow => assert VOCABULARY[2] == b;
    case BelowThreshold => assert VOCABULARY[3] == b;
    case CheckpointUnusable => assert VOCABULARY[4] == b;
    case HighRisk => assert VOCABULARY[5] == b;
    case NotTransferable => assert VOCABULARY[6] == b;
    case NoHealthyFallback => assert VOCABULARY[7] == b;
    case CapabilityMismatch => assert VOCABULARY[8] == b;
    case AlreadyChanged => assert VOCABULARY[9] == b;
  }

  lemma ListExact(f: Findings, b: Blocker)
    ensures b in ListUpTo(f, |VOCABULARY|) <==> f.Has(b)
  {
    ListMembership(f, |VOCABULARY|);
    VocabularyComplete(b);
    assert VOCABULARY[..|VOCABULARY|] == VOCABULARY;
  }

  lemma {:induction false} ListOrdered(f: Findings, k: nat)
    requires k <= |VOCABULARY|
    ensures Distinct(ListUpTo(f, k))
    ensures ListUpTo(f, k) == ExpectedOrder(ListUpTo(f, |VOCABULARY|), k)
  {
    if k > 0 {
      ListOrdered(f, k - 1);
      ListMembership(f, k - 1);
      ListExact(f, VOCABULARY[k - 1]);
      VocabularyComplete(VOCABULARY[k - 1]);
      assert VOCABULARY[k - 1] !in VOCABULARY[..k - 1];
    }
  }

  lemma {:induction false} SelectFromFinds(q: Query, k: nat)
    requires k <= |Fallbacks(q)|
    ensures SelectFrom(q, k).Some? <==>
            exists j :: k <= j < |Fallbacks(q)| && Available(q, Fallbacks(q)[j]) && Capable(q, Fallbacks(q)[j])
    ensures SelectFrom(q, k).Some? ==>
            exists j :: k <= j < |Fallbacks(q)| && Fallbacks(q)[j] == SelectFrom(q, k).value
              && Available(q, Fallbacks(q)[j]) && Capable(q, Fallbacks(q)[j])
              && forall i | k <= i < j :: !(Available(q, Fallbacks(q)[i]) && Capable(q, Fallbacks(q)[i]))
    decreases |Fallbacks(q)| - k
  {
    if k < |Fallbacks(q)| && !(Available(q, Fallbacks(q)[k]) && Capable(q, Fallbacks(q)[k])) {
      SelectFromFinds(q, k + 1);
    }
  }

  /** The allowing condition in the words of the failover policy. */
  predicate MayFailOver(q: Query) {
    var e := q.evidence;
    && e.policy.Some? && e.policy.value.approved
    && |TrailingRun(q)| >= e.policy.value.failureThreshold
    && ApprovedAt(q).Some?
    && (forall i | i in TrailingRun(q) :: ApprovedAt(q).value < e.health[i].at)
    && CheckpointFresh(q) && Transferable(e.checkpoint.value.status)
    && (forall r | r in e.risks :: !r.resolved ==> r.level != High && r.transferable)
    && SomeUsable(q)
    && !q.transitionChanged
  }

  lemma RunIsNotSlow(q: Query)
    ensures TrailingRun(q) != {} ==> !AllSlow(q)
  {
    if i :| i in TrailingRun(q) {
      assert Outgoing(q, i) && Fails(q.evidence.health[i]);
    }
  }

  lemma HeadIsMember<T>(s: seq<T>)
    ensures s == [] || exists x :: x in s
  {
    if s != [] { assert s[0] in s; }
  }

  lemma MayFailOverMeansNoFinding(q: Query)
    requires q.evidence.Valid()
    ensures MayFailOver(q) <==> FindingsOf(q) == NothingFound
  {
    RunIsNotSlow(q);
    if MayFailOver(q) {
      assert SomeAvailable(q);
    }
  }

  /** A decision allows exactly under the policy's condition, names the first usable fallback in
      policy order, and lists exactly the blockers that apply. */
  lemma AllowsExactly(q: Query)
    requires q.evidence.Valid()
    ensures DecisionOf(q).allowed <==> MayFailOver(q)
    ensures forall b :: b in DecisionOf(q).blockers <==> Blocks(q, b)
    ensures DecisionOf(q).allowed ==>
            DecisionOf(q).incoming.Some? && FirstUsable(q, DecisionOf(q).incoming.value)
    ensures !DecisionOf(q).allowed ==> DecisionOf(q).incoming.None?
  {
    var f := FindingsOf(q);
    var blockers := ListUpTo(f, |VOCABULARY|);
    forall b ensures b in blockers <==> f.Has(b) { ListExact(f, b); }
    HeadIsMember(blockers);
    MayFailOverMeansNoFinding(q);
    NoMembersMeansClear(f);
    SelectFromFinds(q, 0);
  }

  /** The same condition on the raw evidence. The run of failures is a set of indices: the outgoing provider's
      observations that failed with none of its later ones doing otherwise. */
  lemma AllowsOnEvidence(q: Query)
    requires q.evidence.Valid()
    ensures DecisionOf(q).allowed <==>
      var e, h := q.evidence, q.evidence.health;
      && e.policy.Some? && e.policy.value.approved && e.policy.value.approvedAt.Some?
      && var run := set i | 0 <= i < |h| && h[i].provider == q.outgoing.provider
                            && (h[i].state == TransportFailure || h[i].state == HealthFailed)
                            && forall j | 0 <= j < |h| && h[j].provider == q.outgoing.provider
                                          && (h[j].at > h[i].at || (h[j].at == h[i].at && j > i)) ::
                                 h[j].state == TransportFailure || h[j].state == HealthFailed;
      && |run| >= e.policy.value.failureThreshold && (forall i | i in run :: e.policy.value.approvedAt.value < h[i].at)
      && e.checkpoint.Some? && e.checkpoint.value.epoch == q.outgoing.id
      && e.checkpoint.value.session == q.outgoing.session && e.checkpoint.value.created.At?
      && 0 <= q.now - e.checkpoint.value.created.time <= 1_000_000 * e.policy.value.checkpointMaxAge
      && (e.checkpoint.value.expires.Absent? || e.checkpoint.value.expires.Blank?
          || (e.checkpoint.value.expires.At? && q.now < e.checkpoint.value.expires.time))
      && e.checkpoint.value.status in {"ready", "completed", "checkpointed"}
      && (forall r | r in e.risks :: r.resolved || (r.level != High && r.transferable))
      && !q.transitionChanged
      && exists p | p in e.policy.value.fallbacks ::
           p in e.healthy && p in e.readiness && p in e.capabilities && HandoffImport in e.capabilities[p]
           && e.required <= e.capabilities[p]
  {
    AllowsExactly(q);
    var h := q.evidence.health;
    var run := set i | 0 <= i < |h| && h[i].provider == q.outgoing.provider
                       && (h[i].state == TransportFailure || h[i].state == HealthFailed)
                       && forall j | 0 <= j < |h| && h[j].provider == q.outgoing.provider
                                     && (h[j].at > h[i].at || (h[j].at == h[i].at && j > i)) ::
                            h[j].state == TransportFailure || h[j].state == HealthFailed;
    assert run == TrailingRun(q);
    UsableIsFallback(q);
  }

  lemma UsableIsFallback(q: Query)
    ensures SomeUsable(q) <==> exists p | p in Fallbacks(q) :: Available(q, p) && Capable(q, p)
  {
  }

  lemma NoMembersMeansClear(f: Findings)
    ensures (forall b :: !f.Has(b)) ==>
            f == NothingFound
  {
    if forall b :: !f.Has(b) {
      assert !f.Has(PolicyMissing) && !f.Has(ApprovalTooLate) && !f.Has(OnlySlow) && !f.Has(BelowThreshold);
      assert !f.Has(CheckpointUnusable) && !f.Has(HighRisk) && !f.Has(NotTransferable);
      assert !f.Has(NoHealthyFallback) && !f.Has(CapabilityMismatch) && !f.Has(AlreadyChanged);
    }
  }

  /** What a caller must supply for the constructor to accept: a real generation, evidence rows
      with distinct ids, distinct readiness references and a parsable checkpoint. */
  predicate WellFormed(q: Query) {
    var e := q.evidence;
    && q.generation >= 1
    && (forall i, j :: 0 <= i < j < |e.health| ==> e.health[i].id != e.health[j].id)
    && (forall i, j :: 0 <= i < j < |e.risks| ==> e.risks[i].id != e.risks[j].id)
    && Distinct(Readiness(q, |Fallbacks(q)|))
    && (e.checkpoint.Some? ==> Dated(e.checkpoint.value.created) && Dated(e.checkpoint.value.expires))
  }

  /** A field the constructor does not stumble over. */
  predicate Dated(s: Stamp) { s.Absent? || s.At? }

  lemma TimestampsParsed(q: Query)
    ensures (forall t | t in Timestamps(q) :: t.At?) <==>
            (q.evidence.checkpoint.Some? ==>
                Dated(q.evidence.checkpoint.value.created) && Dated(q.evidence.checkpoint.value.expires))
  {
    var ts, e := Timestamps(q), q.evidence;
    if e.checkpoint.Some? {
      var c := e.checkpoint.value;
      var n := (if ApprovedAt(q).Some? then 1 else 0) + |e.health|;
      assert c.created != Absent ==> ts[n] == c.created && ts[n] in ts;
      assert c.expires != Absent ==> ts[|ts| - 1] == c.expires && ts[|ts| - 1] in ts;
    }
  }

  /** The evaluator's decision passes the constructor exactly on well-formed evidence. In
      particular the blocker list is always unique and in vocabulary order. */
  lemma ConstructorAcceptsExactly(q: Query)
    requires q.evidence.Valid()
    ensures ConstructorAccepts(DecisionOf(q)) <==> WellFormed(q)
    ensures Distinct(DecisionOf(q).blockers)
    ensures DecisionOf(q).blockers == ExpectedOrder(DecisionOf(q).blockers, |VOCABULARY|)
  {
    var d, e := DecisionOf(q), q.evidence;
    ListOrdered(FindingsOf(q), |VOCABULARY|);
    AllowsExactly(q);
    TimestampsParsed(q);
    assert forall i | 0 <= i < |e.health| :: d.healthIds[i] == e.health[i].id;
    assert forall i | 0 <= i < |e.risks| :: d.riskIds[i] == e.risks[i].id;
    if Distinct(d.healthIds) {
      forall i, j | 0 <= i < j < |e.health| ensures e.health[i].id != e.health[j].id {
        assert d.healthIds[i] != d.healthIds[j];
      }
    }
    if Distinct(d.riskIds) {
      forall i, j | 0 <= i < j < |e.risks| ensures e.risks[i].id != e.risks[j].id {
        assert d.riskIds[i] != d.riskIds[j];
      }
    }
  }

  predicate Foreign(q: Query) {
    var e := q.evidence;
    || (e.policy.Some? && e.policy.value.instance != q.instance)
    || (exists o | o in e.health ::
          o.instance != q.instance || !(o.provider == q.outgoing.provider || o.provider in Fallbacks(q)))
    || (exists r | r in e.risks :: r.instance != q.instance)
    || (e.checkpoint.Some?
        && (e.checkpoint.value.instance != q.instance || e.checkpoint.value.epoch != q.outgoing.id
            || e.checkpoint.value.session != q.outgoing.session))
  }

  /** Evidence of another instance, provider, epoch or session is refused; a decision is made exactly on own and
      well-formed evidence. It repeats what was asked and what the evidence names, in its order, and lives as
      long as the policy says. */
  lemma DecidesExactly(q: Query)
    requires q.evidence.Valid()
    ensures var e := q.evidence;
      Evaluate(q).Decided? <==>
        && (e.policy.Some? ==> e.policy.value.instance == q.instance)
        && (forall o | o in e.health ::
              o.instance == q.instance
              && (o.provider == q.outgoing.provider || (e.policy.Some? && o.provider in e.policy.value.fallbacks)))
        && (forall r | r in e.risks :: r.instance == q.instance)
        && (e.checkpoint.Some? ==>
              && e.checkpoint.value.instance == q.instance
              && e.checkpoint.value.epoch == q.outgoing.id && e.checkpoint.value.session == q.outgoing.session)
        && WellFormed(q)
    ensures Evaluate(q).Decided? ==>
      var e, d := q.evidence, Evaluate(q).decision;
      && d.id == q.decision && d.instance == q.instance && d.generation == q.generation
      && d.outgoingEpoch == q.outgoing.id && d.outgoingProvider == q.outgoing.provider
      && (d.policy.Some? <==> e.policy.Some?) && (e.policy.Some? ==> d.policy.value == e.policy.value.id)
      && (d.checkpoint.Some? <==> e.checkpoint.Some?)
        && (e.checkpoint.Some? ==> d.checkpoint.value == e.checkpoint.value.id)
      && |d.healthIds| == |e.health| && (forall i | 0 <= i < |e.health| :: d.healthIds[i] == e.health[i].id)
      && |d.riskIds| == |e.risks| && (forall i | 0 <= i < |e.risks| :: d.riskIds[i] == e.risks[i].id)
      && (forall x :: x in d.readinessRefs <==>
            e.policy.Some? && exists p :: p in e.policy.value.fallbacks && p in e.readiness && e.readiness[p] == x)
      && d.evaluatedAt == q.now
      && d.expiresAt == q.now + if e.policy.Some? then 1_000_000 * e.policy.value.decisionLifetime else 1_000_000
  {
    ConstructorAcceptsExactly(q);
    ReadinessNames(q, |Fallbacks(q)|);
    assert Fallbacks(q)[..|Fallbacks(q)|] == Fallbacks(q);
  }

  lemma {:induction false} ReadinessNames(q: Query, k: nat)
    requires k <= |Fallbacks(q)|
    ensures forall x ::
      x in Readiness(q, k)
      <==> exists p :: p in Fallbacks(q)[..k] && p in q.evidence.readiness && q.evidence.readiness[p] == x
  {
    if k > 0 {
      ReadinessNames(q, k - 1);
      var last := Fallbacks(q)[k - 1];
      assert Fallbacks(q)[..k] == Fallbacks(q)[..k - 1] + [last];
      assert last in Fallbacks(q)[..k];
    }
  }

  /** A checkpoint with a creation or expiry time that is given and is no timestamp: the call raises, because
      the constructor sees the raw field. The evaluation itself treats such a checkpoint as unusable, except
      that an empty expiry counts as none. */
  lemma MalformedCheckpointRaises(q: Query)
    requires q.evidence.Valid() && !Foreign(q) && q.evidence.checkpoint.Some?
    requires !Dated(q.evidence.checkpoint.value.created) || !Dated(q.evidence.checkpoint.value.expires)
    ensures Evaluate(q) == ConstructorRejects
    ensures !Dated(q.evidence.checkpoint.value.created) || q.evidence.checkpoint.value.expires.Malformed? ==>
        Blocks(q, CheckpointUnusable)
  {
    ConstructorAcceptsExactly(q);
  }

  /** Such a query exists: no policy, no observations, one checkpoint whose expiry nobody can read. */
  lemma MalformedCheckpointExample(q: Query)
    requires q == Query(9, 1, EpochRef(2, Named(3), 4), 1,
      Evidence(None, [], Some(Checkpoint(7, 1, Named(3), 2, At(0), Malformed, "ready")), [], map[], {}, map[], {}),
      0, false)
    ensures Evaluate(q) == ConstructorRejects
  {
    MalformedCheckpointRaises(q);
  }

  // ----- The evaluator as written: lists, loops and breaks -----

  /** `s` lists exactly the outgoing observations below `n`, in time order. */
  ghost predicate InTimeOrder(q: Query, s: seq<int>, n: int)
    requires 0 <= n <= |q.evidence.health|
  {
    && (forall a | 0 <= a < |s| :: 0 <= s[a] < n && Outgoing(q, s[a]))
    && (forall i | 0 <= i < n && Outgoing(q, i) :: i in s)
    && Ascending(q.evidence.health, s)
  }

  ghost predicate Ascending(h: seq<Observation>, s: seq<int>)
    requires forall a | 0 <= a < |s| :: 0 <= s[a] < |h|
  {
    forall a, b | 0 <= a < b < |s| :: Later(h, s[b], s[a])
  }

  lemma InsertAscending(h: seq<Observation>, s: seq<int>, n: int, p: int, t: seq<int>)
    requires 0 <= n < |h| && 0 <= p <= |s| && t == s[..p] + [n] + s[p..]
    requires forall a | 0 <= a < |s| :: 0 <= s[a] < n
    requires Ascending(h, s)
    requires p > 0 ==> h[s[p - 1]].at <= h[n].at
    requires forall b | p <= b < |s| :: h[s[b]].at > h[n].at
    ensures (forall a | 0 <= a < |t| :: 0 <= t[a] <= n) && Ascending(h, t)
  {
    forall a | 0 <= a < p ensures Later(h, n, s[a]) {
      if a < p - 1 { assert Later(h, s[p - 1], s[a]); }
    }
    forall a, b | 0 <= a < b < |t| ensures Later(h, t[b], t[a]) {
      var x, y := if a > p then a - 1 else a, if b > p then b - 1 else b;
      if a != p && b != p { assert t[a] == s[x] && t[b] == s[y] && Later(h, s[y], s[x]); }
    }
  }

  lemma InsertKeepsOrder(q: Query, s: seq<int>, n: int, p: int, t: seq<int>)
    requires 0 <= n < |q.evidence.health| && Outgoing(q, n) && InTimeOrder(q, s, n) && 0 <= p <= |s|
    requires p > 0 ==> q.evidence.health[s[p - 1]].at <= q.evidence.health[n].at
    requires forall b | p <= b < |s| :: q.evidence.health[s[b]].at > q.evidence.health[n].at
    requires t == s[..p] + [n] + s[p..]
    ensures InTimeOrder(q, t, n + 1)
  {
    InsertAscending(q.evidence.health, s, n, p, t);
    forall i | 0 <= i < n + 1 && Outgoing(q, i) ensures i in t {
      if i == n { assert t[p] == n; }
      else {
        var a :| 0 <= a < |s| && s[a] == i;
        assert t[if a < p then a else a + 1] == i;
      }
    }
  }

  /** `sorted(outgoing_health, key=observed_at)`: a stable ordering by observation time. */
  method SortOutgoing(q: Query) returns (s: seq<int>)
    ensures InTimeOrder(q, s, |q.evidence.health|)
  {
    s := [];
    var h := q.evidence.health;
    for n := 0 to |h|
      invariant InTimeOrder(q, s, n)
    {
      if Outgoing(q, n) {
        var p := |s|;
        while p > 0 && h[s[p - 1]].at > h[n].at
          invariant 0 <= p <= |s|
          invariant forall b | p <= b < |s| :: h[s[b]].at > h[n].at
        {
          p := p - 1;
        }
        var t := s[..p] + [n] + s[p..];
        InsertKeepsOrder(q, s, n, p, t);
        s := t;
      }
    }
  }

  lemma SetOfDistinct(s: seq<int>, n: int, u: set<int>)
    requires Distinct(s) && 0 <= n <= |s|
    requires u == set x | x in s[n..]
    ensures |u| == |s| - n
    decreases |s| - n
  {
    if n < |s| {
      var rest := s[n + 1..];
      var v := set x | x in rest;
      SetOfDistinct(s, n + 1, v);
      assert s[n..] == [s[n]] + rest;
      assert u == v + {s[n]};
      assert s[n] !in v;
    }
  }

  /** The failing suffix of the time-ordered list is the maximal trailing run. */
  lemma SuffixIsTrailingRun(q: Query, s: seq<int>, k: nat)
    requires InTimeOrder(q, s, |q.evidence.health|)
    requires k <= |s|
    requires forall a | k <= a < |s| :: Fails(q.evidence.health[s[a]])
    requires k > 0 ==> !Fails(q.evidence.health[s[k - 1]])
    ensures TrailingRun(q) == set x | x in s[k..]
    ensures |TrailingRun(q)| == |s| - k
  {
    var h := q.evidence.health;
    forall a | 0 <= a < k ensures s[a] !in TrailingRun(q) {
      if a < k - 1 { assert Later(h, s[k - 1], s[a]) && Outgoing(q, s[k - 1]); }
    }
    forall i | i in TrailingRun(q) ensures i in s[k..] {
      var a :| 0 <= a < |s| && s[a] == i;
      assert s[k..][a - k] == i;
    }
    forall i | i in s[k..] ensures i in TrailingRun(q) {
      var a :| 0 <= a < |s[k..]| && s[k..][a] == i;
      assert s[k + a] == i;
      forall b | 0 <= b <= k + a ensures !Later(h, s[b], i) {
        if b < k + a { assert Later(h, s[k + a], s[b]); }
      }
      forall j | 0 <= j < |h| && Outgoing(q, j) && Later(h, j, i) ensures Fails(h[j]) {
        var b :| 0 <= b < |s| && s[b] == j;
      }
    }
    assert Distinct(s);
    SetOfDistinct(s, k, TrailingRun(q));
  }

  lemma EarliestDecides(q: Query, run: seq<int>, first: int, approval: int)
    requires TrailingRun(q) == set x | x in run
    requires first in run && forall x | x in run :: 0 <= x < |q.evidence.health|
    requires forall x | x in run :: q.evidence.health[first].at <= q.evidence.health[x].at
    ensures approval >= q.evidence.health[first].at <==>
            exists i | i in TrailingRun(q) :: approval >= q.evidence.health[i].at
  {
    if approval >= q.evidence.health[first].at { assert first in TrailingRun(q); }
  }

  /** `min(observed_at for failures)`, as the index of an earliest failure. */
  method Earliest(h: seq<Observation>, run: seq<int>) returns (first: int)
    requires run != [] && forall a | 0 <= a < |run| :: 0 <= run[a] < |h|
    ensures first in run && forall x | x in run :: h[first].at <= h[x].at
  {
    first := run[0];
    for n := 1 to |run|
      invariant first in run
      invariant forall a | 0 <= a < n :: h[first].at <= h[run[a]].at
    {
      if h[run[n]].at < h[first].at { first := run[n]; }
    }
  }

  /** The trailing failures: scan the time-ordered list backwards until a non-failure. */
  method TrailingFailures(q: Query, ordered: seq<int>) returns (run: seq<int>)
    requires InTimeOrder(q, ordered, |q.evidence.health|)
    ensures TrailingRun(q) == set x | x in run
    ensures |TrailingRun(q)| == |run|
    ensures forall a | 0 <= a < |run| :: 0 <= run[a] < |q.evidence.health|
  {
    var h := q.evidence.health;
    var k := |ordered|;
    while k > 0
      invariant 0 <= k <= |ordered|
      invariant forall a | k <= a < |ordered| :: Fails(h[ordered[a]])
    {
      if !Fails(h[ordered[k - 1]]) { break; }
      k := k - 1;
    }
    SuffixIsTrailingRun(q, ordered, k);
    run := ordered[k..];
  }

  /** The failure part of `evaluate_failover_evidence`: scan the trailing failures, then compare with the approval. */
  method TrailingBlockers(q: Query) returns (tooLate: bool, onlySlow: bool, belowThreshold: bool)
    ensures tooLate == ApprovedTooLate(q)
    ensures onlySlow == AllSlow(q)
    ensures belowThreshold == (|TrailingRun(q)| < Threshold(q))
  {
    var h := q.evidence.health;
    var ordered := SortOutgoing(q);
    var run := TrailingFailures(q, ordered);
    tooLate := false;
    if run != [] {
      assert run[0] in TrailingRun(q);
      var first := Earliest(h, run);
      tooLate := ApprovedAt(q).None? || ApprovedAt(q).value >= h[first].at;
      if ApprovedAt(q).Some? { EarliestDecides(q, run, first, ApprovedAt(q).value); }
    }
    belowThreshold := |run| < Threshold(q);
    onlySlow := ordered != [] && forall a | 0 <= a < |ordered| :: h[ordered[a]].state == Slow;
    if ordered != [] { assert Outgoing(q, ordered[0]); }
  }

  /** The fallback part of `evaluate_failover_evidence`: keep the available fallbacks, then take the first capable
      one. */
  method SelectFallback(q: Query) returns (selected: Option<Id>, noneAvailable: bool, mismatch: bool)
    ensures selected == SelectFrom(q, 0)
    ensures noneAvailable == !SomeAvailable(q)
    ensures mismatch == (SomeAvailable(q) && !SomeUsable(q))
  {
    var fallbacks := Fallbacks(q);
    var ordered: seq<Id> := [];
    ghost var at: seq<int> := [];
    for n := 0 to |fallbacks|
      invariant |at| == |ordered|
      invariant forall a | 0 <= a < |at| :: 0 <= at[a] < n && ordered[a] == fallbacks[at[a]] && Available(q, ordered[a])
      invariant forall a, b | 0 <= a < b < |at| :: at[a] < at[b]
      invariant forall i | 0 <= i < n && Available(q, fallbacks[i]) :: i in at
    {
      if Available(q, fallbacks[n]) {
        ordered := ordered + [fallbacks[n]];
        at := at + [n];
      }
    }
    selected := None;
    SelectFromFinds(q, 0);
    if ordered != [] { assert Available(q, fallbacks[at[0]]); }
    var n := 0;
    while n < |ordered|
      invariant 0 <= n <= |ordered| && selected == None
      invariant forall a | 0 <= a < n :: !Capable(q, ordered[a])
    {
      if Capable(q, ordered[n]) {
        selected := Some(ordered[n]);
        SkipUnusable(q, 0, at[n]) by {
          forall i | 0 <= i < at[n] ensures !(Available(q, fallbacks[i]) && Capable(q, fallbacks[i])) {
            if Available(q, fallbacks[i]) {
              var a :| 0 <= a < |at| && at[a] == i;
              assert a < n;
            }
          }
        }
        assert Available(q, fallbacks[at[n]]) && Capable(q, fallbacks[at[n]]);
        break;
      }
      n := n + 1;
    }
    if selected.None? {
      forall i | 0 <= i < |fallbacks| ensures !(Available(q, fallbacks[i]) && Capable(q, fallbacks[i])) {
        if Available(q, fallbacks[i]) { var a :| 0 <= a < |at| && at[a] == i; }
      }
    }
    noneAvailable := ordered == [];
    mismatch := ordered != [] && selected.None?;
  }

  lemma {:induction false} SkipUnusable(q: Query, k: nat, m: nat)
    requires k <= m <= |Fallbacks(q)|
    requires forall i | k <= i < m :: !(Available(q, Fallbacks(q)[i]) && Capable(q, Fallbacks(q)[i]))
    ensures SelectFrom(q, k) == SelectFrom(q, m)
    decreases m - k
  {
    if k < m { SkipUnusable(q, k + 1, m); }
  }

  function Note(applies: bool, b: Blocker): seq<Blocker> {
    if applies then [b] else []
  }

  lemma ListStep(f: Findings, k: nat, b: Blocker, before: seq<Blocker>, after: seq<Blocker>)
    requires k < |VOCABULARY| && VOCABULARY[k] == b
    requires ListUpTo(f, k) == before && after == before + Note(f.Has(b), b)
    ensures ListUpTo(f, k + 1) == after
  {
  }

  /** The blockers of the outgoing side, appended in the order of the source. */
  method AppendOutgoingBlockers(f: Findings) returns (blockers: seq<Blocker>)
    ensures blockers == ListUpTo(f, 5)
  {
    blockers := [];
    ghost var before: seq<Blocker> := [];
    before, blockers := blockers, blockers + Note(f.policyMissing, PolicyMissing);
    ListStep(f, 0, PolicyMissing, before, blockers);
    before, blockers := blockers, blockers + Note(f.approvalTooLate, ApprovalTooLate);
    ListStep(f, 1, ApprovalTooLate, before, blockers);
    before, blockers := blockers, blockers + Note(f.onlySlow, OnlySlow); ListStep(f, 2, OnlySlow, before, blockers);
    before, blockers := blockers, blockers + Note(f.belowThreshold, BelowThreshold);
    ListStep(f, 3, BelowThreshold, before, blockers);
    before, blockers := blockers, blockers + Note(f.checkpointUnusable, CheckpointUnusable);
    ListStep(f, 4, CheckpointUnusable, before, blockers);
  }

  /** The blockers of the transfer, appended after those. */
  method AppendTransferBlockers(f: Findings, first: seq<Blocker>) returns (blockers: seq<Blocker>)
    requires first == ListUpTo(f, 5)
    ensures blockers == ListUpTo(f, |VOCABULARY|)
  {
    blockers := first;
    ghost var before: seq<Blocker> := [];
    before, blockers := blockers, blockers + Note(f.highRisk, HighRisk); ListStep(f, 5, HighRisk, before, blockers);
    before, blockers := blockers, blockers + Note(f.notTransferable, NotTransferable);
    ListStep(f, 6, NotTransferable, before, blockers);
    before, blockers := blockers, blockers + Note(f.noHealthyFallback, NoHealthyFallback);
    ListStep(f, 7, NoHealthyFallback, before, blockers);
    before, blockers := blockers, blockers + Note(f.capabilityMismatch, CapabilityMismatch);
    ListStep(f, 8, CapabilityMismatch, before, blockers);
    before, blockers := blockers, blockers + Note(f.alreadyChanged, AlreadyChanged);
    ListStep(f, 9, AlreadyChanged, before, blockers);
  }

  method CollectBlockers(q: Query) returns (blockers: seq<Blocker>, selected: Option<Id>)
    ensures blockers == Blockers(q)
    ensures selected == SelectFrom(q, 0)
  {
    var e := q.evidence;
    var tooLate, onlySlow, belowThreshold := TrailingBlockers(q);
    var noneAvailable, mismatch;
    selected, noneAvailable, mismatch := SelectFallback(q);
    var found := Findings(
      e.policy.None? || !e.policy.value.approved, tooLate, onlySlow, belowThreshold, !CheckpointFresh(q),
      UnresolvedHighRisk(q), WorkNotTransferable(q), noneAvailable, mismatch, q.transitionChanged);
    assert found == FindingsOf(q);
    blockers := AppendOutgoingBlockers(found);
    blockers := AppendTransferBlockers(found, blockers);
  }

  /** `evaluate_failover_evidence`: every loop, append and break of the source yields exactly the
      declarative evaluation. */
  method EvaluateFailoverEvidence(q: Query) returns (r: Evaluation)
    requires q.evidence.Valid()
    ensures r == Evaluate(q)
  {
    var e := q.evidence;
    if e.policy.Some? && e.policy.value.instance != q.instance { return ForeignPolicy; }
    if exists o | o in e.health ::
        o.instance != q.instance || !(o.provider == q.outgoing.provider || o.provider in Fallbacks(q)) {
      return ForeignHealth;
    }
    if exists r | r in e.risks :: r.instance != q.instance { return ForeignRisk; }
    if e.checkpoint.Some?
       && (e.checkpoint.value.instance != q.instance || e.checkpoint.value.epoch != q.outgoing.id
           || e.checkpoint.value.session != q.outgoing.session) {
      return ForeignCheckpoint;
    }
    var blockers, selected := CollectBlockers(q);
    var d := Decision(
      q.decision, q.instance, q.outgoing.id, q.outgoing.provider, q.generation,
      if e.policy.Some? then Some(e.policy.value.id) else None,
      if blockers == [] then selected else None,
      blockers == [], blockers,
      seq(|e.health|, i requires 0 <= i < |e.health| => e.health[i].id),
      seq(|e.risks|, i requires 0 <= i < |e.risks| => e.risks[i].id),
      Timestamps(q), Readiness(q, |Fallbacks(q)|),
      if e.checkpoint.Some? then Some(e.checkpoint.value.id) else None,
      q.now, q.now + Seconds(Lifetime(q)));
    assert d == DecisionOf(q);
    r := if ConstructorAccepts(d) then Decided(d) else ConstructorRejects;
  }
}
