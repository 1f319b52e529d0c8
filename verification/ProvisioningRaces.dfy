/** Executions of provisioning plans that overlap or are cut short. `execute_plan` reads the plan, performs
    the host steps and only then stores the outcome (src/overseer/backup_provisioning.py:370-410), so a plan
    stays approved while it runs. Exactly when its host steps can start again, and a run in which they do. */
module ProvisioningRaces {
  import opened Contracts
  import opened Provisioning

  datatype Event = Started(plan: Id) | Ended(plan: Id)

  /** An execution between its check and the storing of its outcome. */
  datatype Executor = InProgress(id: Id, copy: Plan)

  datatype World = World(plans: map<Id, Plan>, calls: map<Id, Executor>, next: Id, trace: seq<Event>)

  /** Staging, approving and refusing are single writes; an execution begins, and then stores its outcome
      or is never heard of again. */
  datatype Action = Write(call: Call) | Begin(id: Id, evidenceTerminal: bool) | Finish(executor: Id,
      adapter: Adapter) | Crash(executor: Id)

  predicate Ready(b: Builder, plans: map<Id, Plan>, id: Id) {
    id in plans && DigestHolds(b, plans[id]) && plans[id].status == Approved && plans[id].approvedBy.Some?
  }

  function Step(b: Builder, w: World, a: Action): World {
    match a
    case Write(c) =>
      if c.Stage? || c.Approve? || c.Refuse? then w.(plans := After(b, State(w.plans, []), c).plans) else w
    case Begin(id, terminal) =>
      if Ready(b, w.plans, id) && terminal
      then World(w.plans, w.calls[w.next := InProgress(id, w.plans[id])], w.next + 1, w.trace + [Started(id)]) else w
    case Finish(t, adapter) =>
      if t in w.calls
      then World(w.plans[w.calls[t].id := Outcome(w.calls[t].copy, adapter)], w.calls - {t}, w.next,
        w.trace + [Ended(w.calls[t].id)])
      else w
    case Crash(t) => w.(calls := w.calls - {t})
  }

  const EMPTY: World := World(map[], map[], 0, [])

  function Run(b: Builder, actions: seq<Action>): World {
    if actions == [] then EMPTY else Step(b, Run(b, actions[..|actions| - 1]), actions[|actions| - 1])
  }

  /** An ended plan is finished, and nothing starts after an end. */
  predicate EndsStay(w: World) {
    && (forall k | 0 <= k < |w.trace| && w.trace[k].Ended? ::
      w.trace[k].plan in w.plans && Finished(w.plans[w.trace[k].plan].status))
    && (forall j, k | 0 <= j < k < |w.trace| && w.trace[j].Ended? && w.trace[k].Started? ::
      w.trace[j].plan != w.trace[k].plan)
  }

  lemma StepKeepsEnds(b: Builder, w: World, a: Action)
    requires EndsStay(w)
    ensures EndsStay(Step(b, w, a))
  {
  }

  lemma {:induction false} RunsKeepEnds(b: Builder, actions: seq<Action>)
    ensures EndsStay(Run(b, actions))
  {
    if actions != [] {
      RunsKeepEnds(b, actions[..|actions| - 1]);
      StepKeepsEnds(b, Run(b, actions[..|actions| - 1]), actions[|actions| - 1]);
    }
  }

  /** Over every interleaving with any number of executors and crashes: the host steps of a plan start again
      only as long as no execution of it has stored its outcome. */
  lemma NothingStartsAfterAnEnd(b: Builder, actions: seq<Action>, j: nat, k: nat)
    requires var trace := Run(b, actions).trace;
    j < |trace| && k < |trace| && trace[j].Ended? && trace[k] == Started(trace[j].plan)
    ensures k < j
  {
    RunsKeepEnds(b, actions);
  }

  /** The plan's execution has begun, and none has stored an outcome. */
  predicate Unfinished(trace: seq<Event>, id: Id) { Started(id) in trace && Ended(id) !in trace }

  /** A step starts the host steps of a plan for a second time if and only if it begins an execution of an
      approved plan while an earlier execution of it has not stored its outcome. */
  lemma StartsAgainExactly(b: Builder, actions: seq<Action>, a: Action, id: Id)
    ensures var w := Run(b, actions);
      Started(id) in w.trace && Step(b, w, a).trace == w.trace + [Started(id)]
      <==> a.Begin? && a.id == id && a.evidenceTerminal && Ready(b, w.plans, id) && Unfinished(w.trace, id)
  {
    RunsKeepEnds(b, actions);
    var w := Run(b, actions);
    var v := Step(b, w, a);
    if v.trace == w.trace + [Started(id)] { assert v.trace[|w.trace|] == Started(id); }
    if Ended(id) in w.trace {
      var k :| 0 <= k < |w.trace| && w.trace[k] == Ended(id);
      assert Finished(w.plans[w.trace[k].plan].status);
    }
  }

  // ----- A run in which it happens -----

  function Good(n: nat, op: Operation): Answer { Ok }

  function Bad(n: nat, op: Operation): Answer { NotOk }

  /** Two executors read the approved plan. */
  function BothBegin(): seq<Action> {
    [Write(Stage(7, 1, true))] + [Write(Approve(7, 3, true, true))] + [Begin(7, true)] + [Begin(7, true)]
  }

  lemma RunLast(b: Builder, actions: seq<Action>, a: Action)
    ensures Run(b, actions + [a]) == Step(b, Run(b, actions), a)
  {
    assert (actions + [a])[..|actions + [a]| - 1] == actions;
  }

  function ApprovedPlan(b: Builder): Plan { Fresh(b, 1).(status := Approved, approvedBy := Some(3)) }

  lemma Approves(b: Builder)
    ensures Run(b, [Write(Stage(7, 1, true))] + [Write(Approve(7, 3, true, true))])
        == World(map[7 := ApprovedPlan(b)], map[], 0, [])
  {
    var first := [Write(Stage(7, 1, true))];
    assert first[..0] == [] && Run(b, first) == World(map[7 := Fresh(b, 1)], map[], 0, []);
    RunLast(b, first, Write(Approve(7, 3, true, true)));
    assert map[7 := Fresh(b, 1)][7 := ApprovedPlan(b)] == map[7 := ApprovedPlan(b)];
  }

  lemma Begins(b: Builder)
    ensures var q := ApprovedPlan(b);
      Run(b, BothBegin())
          == World(map[7 := q], map[0 := InProgress(7, q), 1 := InProgress(7, q)], 2, [Started(7), Started(7)])
  {
    Approves(b);
    var first := [Write(Stage(7, 1, true))] + [Write(Approve(7, 3, true, true))];
    RunLast(b, first, Begin(7, true));
    RunLast(b, first + [Begin(7, true)], Begin(7, true));
  }

  /** The host steps start twice; the first executor succeeds, the second fails, and an executed plan ends
      up as not executed. */
  lemma ExecutedTwice(b: Builder)
    requires b.build(1).forward != []
    ensures var w := Run(b, BothBegin() + [Finish(0, Good)]);
      var v := Run(b, BothBegin() + [Finish(0, Good)] + [Finish(1, Bad)]);
      && w.trace == [Started(7), Started(7), Ended(7)]
      && 7 in w.plans && w.plans[7].status == Executed && 7 in v.plans && v.plans[7].status != Executed
  {
    Begins(b);
    RunLast(b, BothBegin(), Finish(0, Good));
    RunLast(b, BothBegin() + [Finish(0, Good)], Finish(1, Bad));
    var q := ApprovedPlan(b);
    assert Bad(0, q.body.steps.forward[0]) != Ok;
    assert !AllOk(q.body.steps.forward, Bad, 0);
  }
}
