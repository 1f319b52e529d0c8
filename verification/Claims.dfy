/** The claim conflict decision (src/overseer/core.py) and what it guarantees over whole histories
    of claims that become active only through it. */
module Claims {
  import opened Contracts

  datatype ResourceType =
    | PhysicalAsset | VirtualAsset | Service | UsageLimitedService | MaintenanceTarget | SecuritySurface | Composite

  datatype RiskLevel = Low | Medium | High | Critical

  datatype ResourceState =
    | Available | CheckedOut | Locked | Maintenance | Degraded | Incident | InQuarantine | Retired

  datatype ClaimType = Checkout | Lock | Lease | Hold | QuarantineClaim | Observation

  datatype ClaimStatus =
    | Requested | Approved | Active | ClaimBlocked | ClaimQueued | Releasing | Released | Expired | Revoked

  datatype ApprovalLevel = NoApproval | Role | Sisko | Human

  datatype Outcome = Allow | Queue | Block | Escalate | Quarantine

  datatype Resource = Resource(
    id: Id, kind: ResourceType, risk: RiskLevel, state: ResourceState, dependencies: set<Id>)

  datatype Claim = Claim(
    id: Id, resource: Id, kind: ClaimType, risk: RiskLevel, status: ClaimStatus,
    ports: set<int>, dependencies: set<Id>, groups: set<Id>)
  {
    predicate IsExclusive() { kind != Observation }
    predicate IsActiveLike() { status == Approved || status == Active || status == Releasing }
  }

  datatype Decision = Decision(outcome: Outcome, approval: ApprovalLevel, blocking: seq<Id>)

  type Catalogue = map<Id, Resource>

  /** Why an active-like claim stands in the way of a requested one. */
  predicate StandsInTheWay(resource: Resource, requested: Claim, active: Claim, known: Catalogue) {
    active.IsActiveLike()
    && (|| requested.resource == active.resource
        || requested.resource in active.dependencies || active.resource in requested.dependencies
        || requested.ports * active.ports != {}
        || requested.groups * active.groups != {}
        || (active.resource in known
            && resource.dependencies * ({known[active.resource].id} + known[active.resource].dependencies) != {}))
  }

  function BlockingClaims(resource: Resource, requested: Claim, active: seq<Claim>, known: Catalogue): seq<Claim> {
    if active == [] then []
    else
      var (earlier, last) := (active[..|active| - 1], active[|active| - 1]);
      BlockingClaims(resource, requested, earlier, known)
      + if StandsInTheWay(resource, requested, last, known) then [last] else []
  }

  /** `_blocking_claims`, with the source's sequence of early `continue`s. */
  method CollectBlockingClaims(resource: Resource, requested: Claim, active: seq<Claim>, known: Catalogue)
    returns (blockers: seq<Claim>)
    ensures blockers == BlockingClaims(resource, requested, active, known)
  {
    blockers := [];
    for n := 0 to |active|
      invariant blockers == BlockingClaims(resource, requested, active[..n], known)
    {
      assert active[..n + 1][..n] == active[..n];
      var a := active[n];
      if !a.IsActiveLike() { continue; }
      if requested.resource == a.resource { blockers := blockers + [a]; continue; }
      if requested.resource in a.dependencies || a.resource in requested.dependencies {
        blockers := blockers + [a]; continue;
      }
      if requested.ports * a.ports != {} { blockers := blockers + [a]; continue; }
      if requested.groups * a.groups != {} { blockers := blockers + [a]; continue; }
      if a.resource in known
          && resource.dependencies * ({known[a.resource].id} + known[a.resource].dependencies) != {} {
        blockers := blockers + [a];
      }
    }
    assert active[..|active|] == active;
  }

  lemma {:induction false} BlockingClaimsExact(resource: Resource, requested: Claim, active: seq<Claim>,
      known: Catalogue)
    ensures forall c :: c in BlockingClaims(resource, requested, active, known) <==>
              c in active && StandsInTheWay(resource, requested, c, known)
  {
    if active != [] {
      var earlier, last := active[..|active| - 1], active[|active| - 1];
      BlockingClaimsExact(resource, requested, earlier, known);
      assert active == earlier + [last];
    }
  }

  predicate HasExclusiveConflict(requested: Claim, active: seq<Claim>) {
    exists a | a in active :: a.IsActiveLike() && requested.resource == a.resource && a.IsExclusive()
  }

  function RequiredApproval(resource: Resource, claim: Claim): ApprovalLevel {
    if claim.kind == Observation && claim.risk == Low then NoApproval
    else if resource.kind == SecuritySurface || resource.kind == MaintenanceTarget then Human
    else if resource.risk == Critical || claim.risk == Critical then Human
    else if resource.risk == High || claim.risk == High then Sisko
    else if claim.kind == Checkout || claim.kind == Lock || claim.kind == Lease || claim.kind == Hold then Role
    else NoApproval
  }

  function DecideClaim(resource: Resource, requested: Claim, active: seq<Claim>, known: Catalogue): Decision {
    if resource.state == Retired then Decision(Block, NoApproval, [])
    else if resource.state == InQuarantine then Decision(Quarantine, Human, [])
    else if requested.resource != resource.id then Decision(Block, NoApproval, [])
    else if requested.kind == Observation && !HasExclusiveConflict(requested, active) then
      Decision(Allow, NoApproval, [])
    else
      var blockers := BlockingClaims(resource, requested, active, known);
      if blockers != [] then
        Decision(Queue, NoApproval, seq(|blockers|, i requires 0 <= i < |blockers| => blockers[i].id))
      else
        var approval := RequiredApproval(resource, requested);
        if approval != NoApproval then Decision(Escalate, approval, []) else Decision(Allow, NoApproval, [])
  }

  predicate Grants(d: Decision) { d.outcome == Allow || d.outcome == Escalate }

  /** A usable resource queues a request exactly when some active claim stands in the way and the
      request is not an observation that merely meets other observations. */
  lemma QueuesExactly(resource: Resource, requested: Claim, active: seq<Claim>, known: Catalogue)
    requires resource.state != Retired && resource.state != InQuarantine && requested.resource == resource.id
    ensures DecideClaim(resource, requested, active, known).outcome == Queue <==>
            (requested.kind == Observation ==> HasExclusiveConflict(requested, active))
            && exists c | c in active :: StandsInTheWay(resource, requested, c, known)
    ensures DecideClaim(resource, requested, active, known).outcome != Queue ==>
            Grants(DecideClaim(resource, requested, active, known))
  {
    var blockers := BlockingClaims(resource, requested, active, known);
    BlockingClaimsExact(resource, requested, active, known);
    if blockers != [] { assert blockers[0] in blockers; }
  }

  function RankOfRisk(r: RiskLevel): nat {
    match r
    case Low => 0
    case Medium => 1
    case High => 2
    case Critical => 3
  }

  function RankOfApproval(a: ApprovalLevel): nat {
    match a
    case NoApproval => 0
    case Role => 1
    case Sisko => 2
    case Human => 3
  }

  /** Raising a risk never lowers the approval that a request needs. */
  lemma ApprovalGrowsWithRisk(resource: Resource, claim: Claim, riskier: RiskLevel, riskierClaim: RiskLevel)
    requires RankOfRisk(resource.risk) <= RankOfRisk(riskier) && RankOfRisk(claim.risk) <= RankOfRisk(riskierClaim)
    ensures RankOfApproval(RequiredApproval(resource, claim))
            <= RankOfApproval(RequiredApproval(resource.(risk := riskier), claim.(risk := riskierClaim)))
  {
    assert RankOfRisk(High) < RankOfRisk(Critical);
  }

  /** Who must approve: a human exactly for security surfaces, maintenance targets and critical risk,
      unless the request is a low-risk observation; Sisko exactly for other high risk. */
  lemma ApprovalExactly(resource: Resource, claim: Claim)
    ensures var observes := claim.kind == Observation && claim.risk == Low;
      var guarded := resource.kind == SecuritySurface || resource.kind == MaintenanceTarget;
      var worst := if RankOfRisk(resource.risk) >= RankOfRisk(claim.risk) then resource.risk else claim.risk;
      && (RequiredApproval(resource, claim) == Human <==> !observes && (guarded || worst == Critical))
      && (RequiredApproval(resource, claim) == Sisko <==> !observes && !guarded && worst == High)
      && (RequiredApproval(resource, claim) == Role <==>
            !guarded && RankOfRisk(worst) < RankOfRisk(High) && claim.kind != Observation
                && claim.kind != QuarantineClaim)
  {
  }

  /** The worse of the two risks. */
  function WorstRisk(resource: Resource, claim: Claim): RiskLevel {
    if RankOfRisk(resource.risk) >= RankOfRisk(claim.risk) then resource.risk else claim.risk
  }

  /** The request must be decided: the resource is usable and its own, and it is no observation that merely
      meets observations. */
  predicate MustBeDecided(resource: Resource, requested: Claim, active: seq<Claim>) {
    && resource.state != Retired && resource.state != InQuarantine && requested.resource == resource.id
    && (requested.kind == Observation ==>
          exists a | a in active ::
              (a.status == Approved || a.status == Active || a.status == Releasing)
              && a.resource == requested.resource && a.kind != Observation)
  }

  /** The claim is active and conflicts with the request: it is on the same resource, one depends on the other's
      resource, they share a port or a group, or their resources share what they depend on. */
  predicate Conflicts(resource: Resource, requested: Claim, c: Claim, known: Catalogue) {
    && (c.status == Approved || c.status == Active || c.status == Releasing)
    && (|| c.resource == requested.resource
        || c.resource in requested.dependencies || requested.resource in c.dependencies
        || c.ports * requested.ports != {}
        || c.groups * requested.groups != {}
        || (c.resource in known && exists d | d in resource.dependencies ::
              d == known[c.resource].id || d in known[c.resource].dependencies))
  }

  lemma ShareId(a: set<Id>, b: set<Id>)
    ensures a * b != {} <==> exists x :: x in a && x in b
  {
    if a * b != {} {
      var x :| x in a * b;
      assert x in a && x in b;
    }
    if x :| x in a && x in b { assert x in a * b; }
  }

  lemma ConflictsIs(resource: Resource, requested: Claim, c: Claim, known: Catalogue)
    ensures StandsInTheWay(resource, requested, c, known) <==> Conflicts(resource, requested, c, known)
  {
    assert c.ports * requested.ports == requested.ports * c.ports;
    assert c.groups * requested.groups == requested.groups * c.groups;
    if c.resource in known {
      var k := known[c.resource];
      var other := {k.id} + k.dependencies;
      ShareId(resource.dependencies, other);
      if d :| d in resource.dependencies && d in other { assert d == k.id || d in k.dependencies; }
      if d :| d in resource.dependencies && (d == k.id || d in k.dependencies) { assert d in other; }
    }
  }

  /** Every outcome, from states, kinds, risks and the claims in the way: retired resources and requests for
      another resource are blocked, quarantined ones need a human, claims in the way queue, and what is left is
      escalated to a human for guarded or critical, to Sisko for high risk, to the role for a claim that holds
      the resource, and otherwise allowed. */
  lemma DecidesExactly(resource: Resource, requested: Claim, active: seq<Claim>, known: Catalogue)
    ensures var d := DecideClaim(resource, requested, active, known);
      var must := MustBeDecided(resource, requested, active);
      var inTheWay := exists c | c in active :: Conflicts(resource, requested, c, known);
      var harmless := requested.kind == Observation && requested.risk == Low;
      var guarded := resource.kind == SecuritySurface || resource.kind == MaintenanceTarget;
      var worst := WorstRisk(resource, requested);
      var holds := requested.kind in {Checkout, Lock, Lease, Hold};
      && (d.outcome == Quarantine <==> resource.state == InQuarantine)
      && (d.outcome == Block <==>
            resource.state == Retired || (resource.state != InQuarantine && requested.resource != resource.id))
      && (d.outcome == Queue <==> must && inTheWay)
      && (d.outcome == Queue ==> forall id ::
            id in d.blocking <==> exists c :: c in active && Conflicts(resource, requested, c, known) && c.id == id)
      && (d.outcome != Queue ==> d.blocking == [])
      && (d.outcome == Escalate <==>
            must && !inTheWay && !harmless && (guarded || worst == Critical || worst == High || holds))
      && (d.outcome == Escalate ==>
            d.approval == if guarded || worst == Critical then Human else if worst == High then Sisko else Role)
      && (d.outcome != Escalate ==> d.approval == if d.outcome == Quarantine then Human else NoApproval)
  {
    forall c | c in active ensures Conflicts(resource, requested, c, known)
        <==> StandsInTheWay(resource, requested, c, known) {
      ConflictsIs(resource, requested, c, known);
    }
    var blockers := BlockingClaims(resource, requested, active, known);
    BlockingClaimsExact(resource, requested, active, known);
    ApprovalExactly(resource, requested);
    if blockers != [] { assert blockers[0] in blockers; }
    var d := DecideClaim(resource, requested, active, known);
    if d.outcome == Queue {
      forall c | c in active && Conflicts(resource, requested, c, known) ensures c.id in d.blocking {
        assert c in blockers;
        var i :| 0 <= i < |blockers| && blockers[i] == c;
        assert d.blocking[i] == c.id;
      }
      forall id | id in d.blocking
        ensures exists c :: c in active && Conflicts(resource, requested, c, known) && c.id == id
      {
        var i :| 0 <= i < |d.blocking| && d.blocking[i] == id;
        assert blockers[i] in blockers;
      }
    }
  }

  /** More active claims never turn a queued request into a granted one. */
  lemma QueueIsMonotone(resource: Resource, requested: Claim, active: seq<Claim>, more: seq<Claim>, known: Catalogue)
    requires forall c | c in active :: c in more
    requires DecideClaim(resource, requested, active, known).outcome == Queue
    ensures DecideClaim(resource, requested, more, known).outcome == Queue
  {
    QueuesExactly(resource, requested, active, known);
    QueuesExactly(resource, requested, more, known);
  }

  // ----- Histories -----

  /** Two active-like claims that may coexist. */
  predicate Compatible(a: Claim, b: Claim) {
    && (a.resource == b.resource ==> !a.IsExclusive() && !b.IsExclusive())
    && (a.IsExclusive() && b.IsExclusive() ==>
          && a.ports * b.ports == {} && a.groups * b.groups == {}
          && a.resource !in b.dependencies && b.resource !in a.dependencies)
  }

  predicate AllCompatible(claims: seq<Claim>) {
    forall i, j | 0 <= i < |claims| && 0 <= j < |claims| && i != j
                  && claims[i].IsActiveLike() && claims[j].IsActiveLike() :: Compatible(claims[i], claims[j])
  }

  /** What callers do with claims. A claim enters inactive; it becomes active-like only after a
      decision against all other claims; any other status change keeps it active-like or ends it. */
  datatype Action =
    | Submit(claim: Claim)
    | Activate(at: nat, resource: Resource, known: Catalogue, status: ClaimStatus)
    | SetStatus(at: nat, status: ClaimStatus)

  function Others(claims: seq<Claim>, at: nat): seq<Claim>
    requires at < |claims|
  {
    claims[..at] + claims[at + 1..]
  }

  function WithStatus(c: Claim, s: ClaimStatus): Claim { c.(status := s) }

  function Next(claims: seq<Claim>, a: Action): seq<Claim> {
    match a
    case Submit(claim) => if claim.IsActiveLike() then claims else claims + [claim]
    case Activate(at, resource, known, status) =>
      if at < |claims| && Grants(DecideClaim(resource, claims[at], Others(claims, at), known))
      then claims[at := WithStatus(claims[at], status)] else claims
    case SetStatus(at, status) =>
      if at < |claims| && (claims[at].IsActiveLike() || !WithStatus(claims[at], status).IsActiveLike())
      then claims[at := WithStatus(claims[at], status)] else claims
  }

  function Run(actions: seq<Action>): seq<Claim> {
    if actions == [] then [] else Next(Run(actions[..|actions| - 1]), actions[|actions| - 1])
  }

  /** A granted claim fits with every other active-like claim. */
  lemma GrantedClaimFits(resource: Resource, requested: Claim, active: seq<Claim>, known: Catalogue, other: Claim)
    requires Grants(DecideClaim(resource, requested, active, known))
    requires other in active && other.IsActiveLike()
    ensures Compatible(requested, other) && Compatible(other, requested)
  {
    QueuesExactly(resource, requested, active, known);
    assert !(requested.kind == Observation ==> HasExclusiveConflict(requested, active))
           || !StandsInTheWay(resource, requested, other, known);
    assert other.ports * requested.ports == requested.ports * other.ports;
    assert other.groups * requested.groups == requested.groups * other.groups;
  }

  lemma ActivateKeepsCompatible(claims: seq<Claim>, at: nat, resource: Resource, known: Catalogue, status: ClaimStatus)
    requires AllCompatible(claims) && at < |claims|
    requires Grants(DecideClaim(resource, claims[at], Others(claims, at), known))
    ensures AllCompatible(claims[at := WithStatus(claims[at], status)])
  {
    forall j | 0 <= j < |claims| && j != at && claims[j].IsActiveLike()
      ensures Compatible(claims[at], claims[j]) && Compatible(claims[j], claims[at])
    {
      assert Others(claims, at)[if j < at then j else j - 1] == claims[j];
      GrantedClaimFits(resource, claims[at], Others(claims, at), known, claims[j]);
    }
  }

  lemma NextKeepsCompatible(claims: seq<Claim>, a: Action)
    requires AllCompatible(claims)
    ensures AllCompatible(Next(claims, a))
  {
    match a
    case Submit(claim) =>
    case Activate(at, resource, known, status) =>
      if at < |claims| && Grants(DecideClaim(resource, claims[at], Others(claims, at), known)) {
        ActivateKeepsCompatible(claims, at, resource, known, status);
      }
    case SetStatus(at, status) =>
  }

  /** In every history, two active-like claims on one resource are both observations, and two
      exclusive ones share no resource, port, group or dependency. */
  lemma {:induction false} ActiveClaimsAreCompatible(actions: seq<Action>)
    ensures AllCompatible(Run(actions))
  {
    if actions != [] {
      ActiveClaimsAreCompatible(actions[..|actions| - 1]);
      NextKeepsCompatible(Run(actions[..|actions| - 1]), actions[|actions| - 1]);
    }
  }
}
