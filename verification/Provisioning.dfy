/** The approval-gated backup provisioning machine (src/overseer/backup_provisioning.py): stage,
    approve, decide and execute over stored plan rows, against an arbitrary host adapter.

    A plan's body is everything its digest covers. `build` stands for `build_plan` on the staged
    fields and `hash` for the digest; nothing is assumed about either. */
module Provisioning {
  import opened Contracts

  datatype Status = Staged | Approved | Denied | RevisionRequested | Executed | Failed | RolledBack

  datatype Operation = Operation(name: Id)

  /** The step lists that `build_plan` derives from the staged fields. */
  datatype Steps = Steps(forward: seq<Operation>, rollback: seq<Operation>)

  datatype Body = Body(fields: Id, steps: Steps)

  datatype ErrorCode = ReportedFailure | AdapterError

  datatype Plan = Plan(
    body: Body, digest: int, status: Status, approvedBy: Option<Id>,
    failedOperation: Option<Operation>, error: Option<ErrorCode>)

  datatype Builder = Builder(build: Id -> Steps, hash: Body -> int) {
    function Rebuild(fields: Id): Body { Body(fields, build(fields)) }
  }

  /** What the host adapter answers to its n-th operation: ok, not ok, or an exception. */
  datatype Answer = Ok | NotOk | Raised

  type Adapter = (nat, Operation) -> Answer

  /** One execution: the plan, and the host operations performed, in order. */
  datatype HostRun = HostRun(plan: Id, forward: seq<Operation>, undone: seq<Operation>)

  datatype State = State(plans: map<Id, Plan>, runs: seq<HostRun>)

  // ----- One execution -----

  /** How many steps are attempted: up to and including the first that is not ok. */
  function Attempted(steps: seq<Operation>, adapter: Adapter, k: nat): nat
    requires k <= |steps|
    decreases |steps| - k
  {
    if k == |steps| then k
    else if adapter(k, steps[k]) == Ok then Attempted(steps, adapter, k + 1)
    else k + 1
  }

  predicate AllOk(steps: seq<Operation>, adapter: Adapter, start: nat) {
    forall i | 0 <= i < |steps| :: adapter(start + i, steps[i]) == Ok
  }

  lemma {:induction false} AttemptedBounds(steps: seq<Operation>, adapter: Adapter, k: nat)
    requires k <= |steps|
    ensures k <= Attempted(steps, adapter, k) <= |steps|
    ensures k < |steps| ==> k < Attempted(steps, adapter, k)
    decreases |steps| - k
  {
    if k < |steps| && adapter(k, steps[k]) == Ok { AttemptedBounds(steps, adapter, k + 1); }
  }

  /** The stored plan after an execution, stated on the adapter's answers. */
  function Outcome(p: Plan, adapter: Adapter): Plan {
    var n := Attempted(p.body.steps.forward, adapter, 0);
    if AllOk(p.body.steps.forward, adapter, 0) then p.(status := Executed)
    else
      AttemptedBounds(p.body.steps.forward, adapter, 0);
      var last := p.body.steps.forward[n - 1];
      p.(status := if AllOk(p.body.steps.rollback, adapter, n) then RolledBack else Failed,
         failedOperation := Some(last),
         error := Some(if adapter(n - 1, last) == NotOk then ReportedFailure else AdapterError))
  }

  function RunOf(id: Id, p: Plan, adapter: Adapter): HostRun {
    AttemptedBounds(p.body.steps.forward, adapter, 0);
    HostRun(id, p.body.steps.forward[..Attempted(p.body.steps.forward, adapter, 0)],
            if AllOk(p.body.steps.forward, adapter, 0) then [] else p.body.steps.rollback)
  }

  lemma {:induction false} AttemptedStopsAtFailure(steps: seq<Operation>, adapter: Adapter, k: nat, n: nat)
    requires k <= n <= |steps|
    requires forall i | k <= i < n :: adapter(i, steps[i]) == Ok
    ensures n < |steps| && adapter(n, steps[n]) != Ok ==> Attempted(steps, adapter, k) == n + 1
    ensures n == |steps| ==> Attempted(steps, adapter, k) == n
    decreases n - k
  {
    if k < n { AttemptedStopsAtFailure(steps, adapter, k + 1, n); }
  }

  // ----- The calls -----

  datatype Call =
    | Stage(id: Id, fields: Id, evidenceOwned: bool)
    | Approve(id: Id, who: Id, independent: bool, evidenceTerminal: bool)
    | Refuse(id: Id, revision: bool, evidenceTerminal: bool)
    | Execute(id: Id, adapter: Adapter, evidenceTerminal: bool)
    | DecideApprove(id: Id, who: Id, independent: bool, evidenceTerminal: bool, adapter: Adapter)

  function Fresh(b: Builder, fields: Id): Plan {
    Plan(b.Rebuild(fields), b.hash(b.Rebuild(fields)), Staged, None, None, None)
  }

  /** `_validate_plan`: the stored digest is that of the stored body and of the rebuilt one. */
  predicate DigestHolds(b: Builder, p: Plan) {
    p.digest == b.hash(b.Rebuild(p.body.fields)) && p.digest == b.hash(p.body)
  }

  function AfterApprove(s: State, id: Id, who: Id, independent: bool, evidenceTerminal: bool): State {
    if id in s.plans && evidenceTerminal && s.plans[id].status == Staged && independent
    then s.(plans := s.plans[id := s.plans[id].(status := Approved, approvedBy := Some(who))])
    else s
  }

  function AfterExecute(b: Builder, s: State, id: Id, adapter: Adapter, evidenceTerminal: bool): State {
    if id in s.plans && DigestHolds(b, s.plans[id]) && evidenceTerminal
       && s.plans[id].status == Approved && s.plans[id].approvedBy.Some?
    then State(s.plans[id := Outcome(s.plans[id], adapter)], s.runs + [RunOf(id, s.plans[id], adapter)])
    else s
  }

  /** The store after one call; a call that raises before writing leaves it unchanged. */
  function After(b: Builder, s: State, c: Call): State {
    match c
    case Stage(id, fields, owned) =>
      if !owned || id in s.plans then s else s.(plans := s.plans[id := Fresh(b, fields)])
    case Approve(id, who, independent, terminal) => AfterApprove(s, id, who, independent, terminal)
    case Refuse(id, revision, terminal) =>
      if id in s.plans && s.plans[id].status == Staged && terminal
      then s.(plans := s.plans[id := s.plans[id].(status := if revision then RevisionRequested else Denied)])
      else s
    case Execute(id, adapter, terminal) => AfterExecute(b, s, id, adapter, terminal)
    case DecideApprove(id, who, independent, terminal, adapter) =>
      if id in s.plans && s.plans[id].status == Staged && terminal && independent
      then AfterExecute(b, AfterApprove(s, id, who, independent, terminal), id, adapter, terminal)
      else s
  }

  /** The plan is stored, its digest holds, and somebody approved it on terminal evidence. */
  predicate MayRun(b: Builder, s: State, id: Id, evidenceTerminal: bool) {
    && id in s.plans && s.plans[id].status == Approved && s.plans[id].approvedBy.Some? && evidenceTerminal
    && s.plans[id].digest == b.hash(s.plans[id].body)
    && s.plans[id].digest == b.hash(Body(s.plans[id].body.fields, b.build(s.plans[id].body.fields)))
  }

  /** The store as the source drives it. */
  class PlanStore {
    const builder: Builder
    var plans: map<Id, Plan>
    var runs: seq<HostRun>

    function View(): State
      reads this
    {
      State(plans, runs)
    }

    constructor (b: Builder)
      ensures builder == b && View() == State(map[], [])
    {
      builder, plans, runs := b, map[], [];
    }

    /** `stage_plan_api`: re-staging the identical row is accepted, any other row is immutable. */
    method StagePlan(id: Id, fields: Id, evidenceOwned: bool) returns (ok: bool)
      modifies this
      ensures View() == After(builder, old(View()), Stage(id, fields, evidenceOwned))
      ensures ok <==> evidenceOwned && (id in old(plans) ==> old(plans)[id] == Fresh(builder, fields))
    {
      var plan := Fresh(builder, fields);
      if !evidenceOwned { return false; }
      if id in plans && plans[id] != plan { return false; }
      if id !in plans { plans := plans[id := plan]; }
      return true;
    }

    method ApprovePlan(id: Id, who: Id, independent: bool, evidenceTerminal: bool) returns (ok: bool)
      modifies this
      ensures View() == AfterApprove(old(View()), id, who, independent, evidenceTerminal)
      ensures ok <==> id in old(plans) && evidenceTerminal && old(plans)[id].status == Staged && independent
    {
      if id !in plans || !evidenceTerminal { return false; }
      var plan := plans[id];
      if plan.status != Staged || !independent { return false; }
      plans := plans[id := plan.(status := Approved, approvedBy := Some(who))];
      return true;
    }

    /** The forward loop: stop at the first step that raises or does not report ok. */
    method RunForward(steps: seq<Operation>, adapter: Adapter)
      returns (attempted: nat, failedOperation: Option<Operation>, error: Option<ErrorCode>)
      ensures attempted == Attempted(steps, adapter, 0) <= |steps|
      ensures failedOperation.Some? <==> !AllOk(steps, adapter, 0)
      ensures failedOperation.Some? ==> attempted > 0 && failedOperation == Some(steps[attempted - 1])
      ensures failedOperation.Some? ==>
        error == Some(if adapter(attempted - 1, steps[attempted - 1]) == NotOk then ReportedFailure else AdapterError)
    {
      for n := 0 to |steps|
        invariant forall i | 0 <= i < n :: adapter(i, steps[i]) == Ok
      {
        var answer := adapter(n, steps[n]);
        AttemptedStopsAtFailure(steps, adapter, 0, n);
        if answer == Raised { return n + 1, Some(steps[n]), Some(AdapterError); }
        if answer != Ok { return n + 1, Some(steps[n]), Some(ReportedFailure); }
      }
      AttemptedStopsAtFailure(steps, adapter, 0, |steps|);
      return |steps|, None, None;
    }

    /** The rollback loop: every rollback step runs, whatever the earlier ones answered. */
    method RunRollback(steps: seq<Operation>, adapter: Adapter, start: nat) returns (allOk: bool)
      ensures allOk <==> AllOk(steps, adapter, start)
    {
      allOk := true;
      for n := 0 to |steps|
        invariant allOk <==> forall i | 0 <= i < n :: adapter(start + i, steps[i]) == Ok
      {
        allOk := allOk && adapter(start + n, steps[n]) == Ok;
      }
    }

    method ExecutePlan(id: Id, adapter: Adapter, evidenceTerminal: bool) returns (ok: bool)
      modifies this
      ensures View() == AfterExecute(builder, old(View()), id, adapter, evidenceTerminal)
      ensures ok <==>
        && MayRun(builder, old(View()), id, evidenceTerminal)
        && AllOk(old(plans)[id].body.steps.forward, adapter, 0)
    {
      if id !in plans { return false; }
      var plan := plans[id];
      if !DigestHolds(builder, plan) || !evidenceTerminal { return false; }
      if plan.status != Approved || plan.approvedBy.None? { return false; }
      var n, failedOperation, error := RunForward(plan.body.steps.forward, adapter);
      if failedOperation.Some? {
        var rolledBack := RunRollback(plan.body.steps.rollback, adapter, n);
        runs := runs + [HostRun(id, plan.body.steps.forward[..n], plan.body.steps.rollback)];
        plans := plans[id := plan.(status := if rolledBack then RolledBack else Failed,
                                   failedOperation := failedOperation, error := error)];
        return false;
      }
      runs := runs + [HostRun(id, plan.body.steps.forward[..n], [])];
      plans := plans[id := plan.(status := Executed)];
      return true;
    }

    /** `decide_roadex_human_plan` with decision "approve": approve, then execute at once. */
    method DecideApproved(id: Id, who: Id, independent: bool, evidenceTerminal: bool, adapter: Adapter)
      returns (ok: bool)
      modifies this
      ensures View() == After(builder, old(View()), DecideApprove(id, who, independent, evidenceTerminal, adapter))
      ensures ok <==>
        && id in old(plans) && old(plans)[id].status == Staged && evidenceTerminal && independent
        && DigestHolds(builder, old(plans)[id]) && AllOk(old(plans)[id].body.steps.forward, adapter, 0)
    {
      if id !in plans || plans[id].status != Staged || !evidenceTerminal { return false; }
      var approved := ApprovePlan(id, who, independent, evidenceTerminal);
      if !approved { return false; }
      ok := ExecutePlan(id, adapter, evidenceTerminal);
    }
  }

  // ----- Whole histories -----

  function Run(b: Builder, s: State, calls: seq<Call>): State {
    if calls == [] then s else After(b, Run(b, s, calls[..|calls| - 1]), calls[|calls| - 1])
  }

  /** The forward order of statuses. */
  predicate MayBecome(x: Status, y: Status) {
    x == y || x == Staged || (x == Approved && (y == Executed || y == Failed || y == RolledBack))
  }

  predicate Finished(s: Status) { s == Executed || s == Failed || s == RolledBack }

  /** Later stores keep every plan, its body and digest, and only move its status forward. */
  predicate Evolves(s: State, t: State) {
    && s.runs <= t.runs
    && forall id | id in s.plans ::
         id in t.plans && t.plans[id].body == s.plans[id].body && t.plans[id].digest == s.plans[id].digest
         && MayBecome(s.plans[id].status, t.plans[id].status)
  }

  lemma CallEvolves(b: Builder, s: State, c: Call)
    ensures Evolves(s, After(b, s, c))
  {
  }

  /** Over every sequence of calls the digested part of a stored plan never changes and its status
      moves only forward. */
  lemma {:induction false} PlansEvolve(b: Builder, s: State, calls: seq<Call>)
    ensures Evolves(s, Run(b, s, calls))
  {
    if calls != [] {
      PlansEvolve(b, s, calls[..|calls| - 1]);
      CallEvolves(b, Run(b, s, calls[..|calls| - 1]), calls[|calls| - 1]);
    }
  }

  /** The run did what the plan's final status claims. */
  predicate RunFits(run: HostRun, p: Plan) {
    && Finished(p.status) && run.forward <= p.body.steps.forward
    && (p.status == Executed ==> run.forward == p.body.steps.forward && run.undone == [])
    && (p.status != Executed ==> run.forward != [] && run.undone == p.body.steps.rollback)
  }

  predicate HasRun(runs: seq<HostRun>, id: Id) { exists i :: 0 <= i < |runs| && runs[i].plan == id }

  /** A host run exists exactly for the finished plans, once each, and it performed a prefix of the
      plan's steps followed by its whole rollback list, or all of its steps and no rollback. */
  predicate RunsMatchPlans(b: Builder, s: State) {
    && (forall id | id in s.plans :: s.plans[id].body == b.Rebuild(s.plans[id].body.fields))
    && (forall id | id in s.plans && s.plans[id].status == Approved :: s.plans[id].approvedBy.Some?)
    && (forall id | id in s.plans && Finished(s.plans[id].status) :: HasRun(s.runs, id))
    && (forall i, j | 0 <= i < j < |s.runs| :: s.runs[i].plan != s.runs[j].plan)
    && (forall i | 0 <= i < |s.runs| :: s.runs[i].plan in s.plans && RunFits(s.runs[i], s.plans[s.runs[i].plan]))
  }

  lemma OutcomeFits(id: Id, p: Plan, adapter: Adapter)
    ensures RunFits(RunOf(id, p, adapter), Outcome(p, adapter))
  {
    AttemptedBounds(p.body.steps.forward, adapter, 0);
    if AllOk(p.body.steps.forward, adapter, 0) {
      AttemptedStopsAtFailure(p.body.steps.forward, adapter, 0, |p.body.steps.forward|);
    }
  }

  lemma ExecuteMatches(b: Builder, s: State, id: Id, adapter: Adapter, terminal: bool)
    requires RunsMatchPlans(b, s)
    ensures RunsMatchPlans(b, AfterExecute(b, s, id, adapter, terminal))
  {
    var t := AfterExecute(b, s, id, adapter, terminal);
    if t.runs != s.runs {
      var p := s.plans[id];
      OutcomeFits(id, p, adapter);
      assert t.runs[|s.runs|].plan == id;
      forall other | other in t.plans && Finished(t.plans[other].status) ensures HasRun(t.runs, other) {
        if other != id {
          var i :| 0 <= i < |s.runs| && s.runs[i].plan == other;
          assert t.runs[i].plan == other;
        }
      }
    }
  }

  lemma ApproveMatches(b: Builder, s: State, id: Id, who: Id, independent: bool, terminal: bool)
    requires RunsMatchPlans(b, s)
    ensures RunsMatchPlans(b, AfterApprove(s, id, who, independent, terminal))
  {
  }

  lemma CallMatches(b: Builder, s: State, c: Call)
    requires RunsMatchPlans(b, s)
    ensures RunsMatchPlans(b, After(b, s, c))
  {
    match c
    case Execute(id, adapter, terminal) => ExecuteMatches(b, s, id, adapter, terminal);
    case DecideApprove(id, who, independent, terminal, adapter) =>
      ApproveMatches(b, s, id, who, independent, terminal);
      ExecuteMatches(b, AfterApprove(s, id, who, independent, terminal), id, adapter, terminal);
    case Approve(id, who, independent, terminal) => ApproveMatches(b, s, id, who, independent, terminal);
    case _ =>
  }

  /** From an empty store, every history executes each plan at most once and leaves exactly the
      traces its final status claims. */
  lemma {:induction false} ExecutedAtMostOnce(b: Builder, calls: seq<Call>)
    ensures RunsMatchPlans(b, Run(b, State(map[], []), calls))
  {
    if calls != [] {
      ExecutedAtMostOnce(b, calls[..|calls| - 1]);
      CallMatches(b, Run(b, State(map[], []), calls[..|calls| - 1]), calls[|calls| - 1]);
    }
  }

  /** The endings of a plan, told from the adapter's answers to its steps. */
  predicate EndsAs(p: Plan, adapter: Adapter, final: Status) {
    var forward, n := AllOk(p.body.steps.forward, adapter, 0), Attempted(p.body.steps.forward, adapter, 0);
    && (final == Executed <==> forward)
    && (final == RolledBack <==> !forward && AllOk(p.body.steps.rollback, adapter, n))
    && (final == Failed <==> !forward && !AllOk(p.body.steps.rollback, adapter, n))
  }

  /** One call that performs host operations. */
  lemma HostRunStep(b: Builder, s: State, c: Call)
    requires After(b, s, c).runs != s.runs
    ensures c.Execute? || c.DecideApprove?
    ensures c.id in s.plans && s.plans[c.id].status == (if c.Execute? then Approved else Staged)
    ensures After(b, s, c).runs == s.runs + [RunOf(c.id, s.plans[c.id], c.adapter)]
    ensures c.id in After(b, s, c).plans && EndsAs(s.plans[c.id], c.adapter, After(b, s, c).plans[c.id].status)
  {
  }

  const NOTHING: State := State(map[], [])

  /** Call `j` of the history performed this run: it found the plan approved, or staged and approved it itself,
      and the plan has ended as the adapter's answers say. */
  predicate PerformedBy(b: Builder, calls: seq<Call>, j: nat, run: HostRun)
    requires j < |calls|
  {
    var c, s, final := calls[j], Run(b, NOTHING, calls[..j]), Run(b, NOTHING, calls);
    && (c.Execute? || c.DecideApprove?) && c.id == run.plan
    && c.id in s.plans && s.plans[c.id].status == (if c.Execute? then Approved else Staged)
    && run == RunOf(c.id, s.plans[c.id], c.adapter)
    && c.id in final.plans && EndsAs(s.plans[c.id], c.adapter, final.plans[c.id].status)
  }

  /** In every history, each host run was performed by a call that found its plan approved, or staged and
      approved by that very call; and the plan ends, for good, executed iff every step was ok, rolled back iff a
      step was not and every rollback step was, and failed otherwise. */
  lemma {:induction false} HostRunsNeedApproval(b: Builder, calls: seq<Call>, i: nat) returns (j: nat)
    requires i < |Run(b, NOTHING, calls).runs|
    ensures j < |calls| && PerformedBy(b, calls, j, Run(b, NOTHING, calls).runs[i])
  {
    var most, c := calls[..|calls| - 1], calls[|calls| - 1];
    var s := Run(b, NOTHING, most);
    CallEvolves(b, s, c);
    if i < |s.runs| {
      j := HostRunsNeedApproval(b, most, i);
      assert most[..j] == calls[..j] && most[j] == calls[j];
      ExecutedAtMostOnce(b, most);
      assert RunFits(s.runs[i], s.plans[s.runs[i].plan]);
    } else {
      j := |calls| - 1;
      HostRunStep(b, s, c);
    }
  }

  // ----- Approval over histories -----

  /** Every stored plan is the rebuilt one under its digest; none is approved or finished without an approver. */
  predicate Genuine(b: Builder, p: Plan) {
    && p.body == b.Rebuild(p.body.fields) && p.digest == b.hash(p.body)
    && (p.status == Approved || Finished(p.status) ==> p.approvedBy.Some?)
  }

  lemma CallGenuine(b: Builder, s: State, c: Call)
    requires forall id | id in s.plans :: Genuine(b, s.plans[id])
    ensures forall id | id in After(b, s, c).plans :: Genuine(b, After(b, s, c).plans[id])
  {
  }

  lemma {:induction false} AllGenuine(b: Builder, calls: seq<Call>)
    ensures forall id | id in Run(b, NOTHING, calls).plans :: Genuine(b, Run(b, NOTHING, calls).plans[id])
  {
    if calls != [] {
      AllGenuine(b, calls[..|calls| - 1]);
      CallGenuine(b, Run(b, NOTHING, calls[..|calls| - 1]), calls[|calls| - 1]);
    }
  }

  /** After every history, executing a plan performs host operations if and only if the plan is approved and the
      evidence terminal; otherwise it changes nothing. */
  lemma RunsExactly(b: Builder, calls: seq<Call>, id: Id, adapter: Adapter, terminal: bool)
    ensures var s := Run(b, NOTHING, calls);
      var t := After(b, s, Execute(id, adapter, terminal));
      && (t.runs != s.runs <==> id in s.plans && s.plans[id].status == Approved && terminal)
      && (t.runs == s.runs ==> t == s)
  {
    AllGenuine(b, calls);
    var s := Run(b, NOTHING, calls);
    if id in s.plans { assert Genuine(b, s.plans[id]); }
  }

  /** Call `j` approved the plan: it found it staged, on terminal evidence, and its approver is independent. */
  predicate ApprovedBy(b: Builder, calls: seq<Call>, j: nat, id: Id, who: Id)
    requires j < |calls|
  {
    var c, s := calls[j], Run(b, NOTHING, calls[..j]);
    && (c.Approve? || c.DecideApprove?) && c.id == id && c.who == who && c.independent && c.evidenceTerminal
    && id in s.plans && s.plans[id].status == Staged
  }

  lemma ApprovalStep(b: Builder, s: State, c: Call, id: Id)
    requires id in After(b, s, c).plans && After(b, s, c).plans[id].approvedBy.Some?
    ensures (id in s.plans && s.plans[id].approvedBy == After(b, s, c).plans[id].approvedBy)
      || ((c.Approve? || c.DecideApprove?) && c.id == id && Some(c.who) == After(b, s, c).plans[id].approvedBy
        && c.independent && c.evidenceTerminal && id in s.plans && s.plans[id].status == Staged)
  {
  }

  /** In every history, whoever a plan names as its approver approved it while it was staged, on terminal
      evidence, and independently; and a plan names one exactly from its approval on. */
  lemma {:induction false} ApproversAreIndependent(b: Builder, calls: seq<Call>, id: Id) returns (j: nat)
    requires var s := Run(b, NOTHING, calls); id in s.plans && s.plans[id].approvedBy.Some?
    ensures j < |calls| && ApprovedBy(b, calls, j, id, Run(b, NOTHING, calls).plans[id].approvedBy.value)
    ensures var p := Run(b, NOTHING, calls).plans[id]; p.status == Approved || Finished(p.status)
  {
    var most, c := calls[..|calls| - 1], calls[|calls| - 1];
    var s := Run(b, NOTHING, most);
    ApprovalStep(b, s, c, id);
    CallEvolves(b, s, c);
    if id in s.plans && s.plans[id].approvedBy == Run(b, NOTHING, calls).plans[id].approvedBy {
      j := ApproversAreIndependent(b, most, id);
      assert most[..j] == calls[..j] && most[j] == calls[j];
    } else { j := |calls| - 1; }
  }

  lemma RefusalStep(b: Builder, s: State, c: Call, id: Id)
    requires id in After(b, s, c).plans && After(b, s, c).plans[id].status in {Denied, RevisionRequested}
    ensures (id in s.plans && s.plans[id].status == After(b, s, c).plans[id].status)
      || (c.Refuse? && c.id == id && c.evidenceTerminal && id in s.plans && s.plans[id].status == Staged
        && c.revision == (After(b, s, c).plans[id].status == RevisionRequested))
  {
  }

  /** Call `j` refused the plan while it was staged, on terminal evidence, for good or for revision. */
  predicate RefusedBy(b: Builder, calls: seq<Call>, j: nat, id: Id, revision: bool)
    requires j < |calls|
  {
    var c, s := calls[j], Run(b, NOTHING, calls[..j]);
    c.Refuse? && c.id == id && c.revision == revision && c.evidenceTerminal && id in s.plans
    && s.plans[id].status == Staged
  }

  /** In every history, a plan that is denied, or sent back for revision, was so by a call that found it staged, and
      it never runs. */
  lemma {:induction false} RefusalsTell(b: Builder, calls: seq<Call>, id: Id) returns (j: nat)
    requires var s := Run(b, NOTHING, calls); id in s.plans && s.plans[id].status in {Denied, RevisionRequested}
    ensures j < |calls|
      && RefusedBy(b, calls, j, id, Run(b, NOTHING, calls).plans[id].status == RevisionRequested)
    ensures forall i | 0 <= i < |Run(b, NOTHING, calls).runs| :: Run(b, NOTHING, calls).runs[i].plan != id
  {
    var most, c := calls[..|calls| - 1], calls[|calls| - 1];
    var s := Run(b, NOTHING, most);
    RefusalStep(b, s, c, id);
    ExecutedAtMostOnce(b, calls);
    if id in s.plans && s.plans[id].status == Run(b, NOTHING, calls).plans[id].status {
      j := RefusalsTell(b, most, id);
      assert most[..j] == calls[..j] && most[j] == calls[j];
    } else { j := |calls| - 1; }
  }
}
