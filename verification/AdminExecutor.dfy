/** The administrative change executor (src/overseer/admin.py): approval state of a plan, and its
    execution against an arbitrary command runner.

    Free-text fields are reduced to whether they are filled in, and a command to whether it names a
    package provider that apt does not serve. */
module AdminExecutor {
  import opened Contracts

  datatype Kind =
    | UserServiceRestart | AptInstall | AptUpdate | AptUpgrade | FirmwareUpdate | FlatpakInstall
    | NpmGlobalInstall | DockerComposeUpdate | StorageMountTest | FirewallAllowTcp | FirewallDenyTcp | BlockIp

  datatype Step = Step(title: string, namesForeignProvider: bool)

  datatype Plan = Plan(
    kind: Kind, lowRisk: bool, approvalLevelNone: bool,
    statesFilled: bool, reasonFilled: bool, risksFilled: bool,
    steps: seq<Step>, rollback: seq<Step>, verification: seq<Step>,
    approved: bool, canceled: bool, archived: bool)
  {
    predicate Complete() {
      statesFilled && reasonFilled && risksFilled && steps != [] && rollback != [] && verification != []
    }

    predicate RequiresExplicitApproval() { !canceled && (!approvalLevelNone || !lowRisk) }

    predicate CanExecute() {
      !archived && !canceled && (approved || !RequiresExplicitApproval()) && Complete()
    }
  }

  // ----- The approval state over whole histories -----

  /** Operator actions; the flags say whether the required name and reason were filled in. */
  datatype Change =
    | Approve(named: bool) | Cancel(named: bool, reasoned: bool) | Archive(named: bool) | Unarchive(named: bool)

  /** One operator action; `None` is the raised error. */
  function Apply(p: Plan, c: Change): Option<Plan> {
    match c
    case Approve(named) =>
      if p.canceled || !p.Complete() || !named then None else Some(p.(approved := true))
    case Cancel(named, reasoned) =>
      if !named || !reasoned then None else Some(p.(canceled := true, approved := false))
    case Archive(named) =>
      if !named || p.archived then None else Some(p.(archived := true))
    case Unarchive(named) =>
      if !named || !p.archived then None else Some(p.(archived := false))
  }

  /** A refused action leaves the plan as it was. */
  function After(p: Plan, changes: seq<Change>): Plan {
    if changes == [] then p
    else
      var before := After(p, changes[..|changes| - 1]);
      match Apply(before, changes[|changes| - 1])
      case Some(next) => next
      case None => before
  }

  /** Some approval among the changes was accepted when it was made. */
  predicate SomeApproval(p: Plan, changes: seq<Change>) {
    changes != []
    && var (before, last) := (changes[..|changes| - 1], changes[|changes| - 1]);
    SomeApproval(p, before) || (last.Approve? && Apply(After(p, before), last).Some?)
  }

  predicate SomeCancellation(p: Plan, changes: seq<Change>) {
    changes != []
    && var (before, last) := (changes[..|changes| - 1], changes[|changes| - 1]);
    SomeCancellation(p, before) || (last.Cancel? && Apply(After(p, before), last).Some?)
  }

  /** `q` is `p` with other flags, and the flags say whether it was approved or cancelled. */
  predicate Reflects(p: Plan, q: Plan, approved: bool, cancelled: bool) {
    && q == p.(approved := q.approved, canceled := q.canceled, archived := q.archived)
    && (q.canceled <==> cancelled)
    && (q.approved <==> approved && !cancelled)
  }

  lemma ChangeReflected(p: Plan, q: Plan, c: Change, approved: bool, cancelled: bool)
    requires Reflects(p, q, approved, cancelled)
    ensures var ok := Apply(q, c).Some?;
      Reflects(p, if ok then Apply(q, c).value else q,
               approved || (c.Approve? && ok), cancelled || (c.Cancel? && ok))
  {
  }

  /** Only the three flags of a plan ever change, each as the accepted actions say. */
  lemma {:induction false} FlagsTellTheHistory(p: Plan, changes: seq<Change>)
    requires !p.approved && !p.canceled
    ensures Reflects(p, After(p, changes), SomeApproval(p, changes), SomeCancellation(p, changes))
  {
    if changes != [] {
      var before, last := changes[..|changes| - 1], changes[|changes| - 1];
      FlagsTellTheHistory(p, before);
      ChangeReflected(p, After(p, before), last, SomeApproval(p, before), SomeCancellation(p, before));
    }
  }

  /** What must be filled in before a plan can be approved or executed. */
  predicate FilledIn(p: Plan) {
    p.statesFilled && p.reasonFilled && p.risksFilled && |p.steps| > 0 && |p.rollback| > 0 && |p.verification| > 0
  }

  /** A plan can execute exactly when it was approved or needs no approval, was never cancelled, is not
      archived and is complete: no order of actions revives a cancelled plan. */
  lemma ExecutableExactly(p: Plan, changes: seq<Change>)
    requires !p.approved && !p.canceled
    ensures After(p, changes).CanExecute() <==>
            && (SomeApproval(p, changes) || (p.approvalLevelNone && p.lowRisk))
            && !SomeCancellation(p, changes) && !After(p, changes).archived && FilledIn(p)
  {
    FlagsTellTheHistory(p, changes);
  }

  /** After every history: an approval is accepted exactly when it is named, the plan is complete and was never
      cancelled; a cancellation when it is named and reasoned; an archiving or its reversal when it is named and
      changes something. Each then sets its own flags and no others. */
  lemma AcceptedExactly(p: Plan, changes: seq<Change>, c: Change)
    requires !p.approved && !p.canceled
    ensures var q := After(p, changes);
      var done := Apply(q, c);
      && (done.Some? <==> match c
            case Approve(named) => named && FilledIn(p) && !SomeCancellation(p, changes)
            case Cancel(named, reasoned) => named && reasoned
            case Archive(named) => named && !q.archived
            case Unarchive(named) => named && q.archived)
      && (done.Some? ==>
            && done.value.archived == (if c.Archive? then true else if c.Unarchive? then false else q.archived)
            && done.value.canceled == (c.Cancel? || SomeCancellation(p, changes))
            && done.value.approved == (!c.Cancel? && !SomeCancellation(p, changes)
                                       && (c.Approve? || SomeApproval(p, changes))))
  {
    FlagsTellTheHistory(p, changes);
  }

  // ----- Execution -----

  datatype CommandResult = CommandResult(title: string, exitCode: int)

  /** What the runner does with a command: an exit code, or an exception, which nothing catches. */
  datatype Answer = Finished(result: CommandResult) | Raised

  /** Any runner: its answer may depend on how many commands it ran before and on the step. */
  type Runner = (nat, Step) -> Answer

  datatype Status = Completed | AdminBlocked | AdminFailed

  datatype Execution = Execution(
    status: Status, commands: seq<CommandResult>, verification: seq<CommandResult>, rollback: seq<CommandResult>)

  /** `UserServiceRestart` is enabled by default; every other adapter must be enabled explicitly. */
  predicate Live(kind: Kind, enabled: set<Kind>) { kind == UserServiceRestart || kind in enabled }

  predicate NamesForeignProvider(p: Plan) {
    (p.kind == AptInstall || p.kind == AptUpgrade)
    && exists s | s in p.steps + p.rollback + p.verification :: s.namesForeignProvider
  }

  predicate Permitted(p: Plan, enabled: set<Kind>) {
    Live(p.kind, enabled) && p.CanExecute() && !NamesForeignProvider(p)
  }

  /** After every history, a plan runs exactly when its adapter is the restart of user services or was enabled, it can
      execute, and no command of an apt installation or upgrade names another package provider. */
  lemma PermittedExactly(p: Plan, changes: seq<Change>, enabled: set<Kind>)
    requires !p.approved && !p.canceled
    ensures Permitted(After(p, changes), enabled) <==>
            && (p.kind == UserServiceRestart || p.kind in enabled)
            && (SomeApproval(p, changes) || (p.approvalLevelNone && p.lowRisk))
            && !SomeCancellation(p, changes) && !After(p, changes).archived && FilledIn(p)
            && (p.kind == AptInstall || p.kind == AptUpgrade ==>
                  (forall s | s in p.steps :: !s.namesForeignProvider)
                  && (forall s | s in p.rollback :: !s.namesForeignProvider)
                  && (forall s | s in p.verification :: !s.namesForeignProvider))
  {
    FlagsTellTheHistory(p, changes);
    ExecutableExactly(p, changes);
  }

  predicate Succeeds(run: Runner, n: nat, s: Step) { run(n, s).Finished? && run(n, s).result.exitCode == 0 }

  /** How many steps succeed before the first that does not. */
  function Successes(steps: seq<Step>, run: Runner, start: nat): (k: nat)
    ensures k <= |steps|
  {
    if steps == [] || !Succeeds(run, start, steps[0]) then 0 else 1 + Successes(steps[1..], run, start + 1)
  }

  lemma {:induction false} SuccessesTell(steps: seq<Step>, run: Runner, start: nat)
    ensures var k := Successes(steps, run, start);
      && (k < |steps| ==> !Succeeds(run, start + k, steps[k]))
      && forall i | 0 <= i < k :: Succeeds(run, start + i, steps[i])
  {
    if steps != [] && Succeeds(run, start, steps[0]) {
      SuccessesTell(steps[1..], run, start + 1);
      var k := Successes(steps, run, start);
      forall i | 0 <= i < k ensures Succeeds(run, start + i, steps[i]) {
        if i > 0 { assert steps[i] == steps[1..][i - 1] && Succeeds(run, start + 1 + (i - 1), steps[1..][i - 1]); }
      }
    }
  }

  /** The first step that does not succeed is unique. */
  lemma {:induction false} SuccessesAre(steps: seq<Step>, run: Runner, start: nat, k: nat)
    requires k <= |steps| && (k < |steps| ==> !Succeeds(run, start + k, steps[k]))
    requires forall i | 0 <= i < k :: Succeeds(run, start + i, steps[i])
    ensures Successes(steps, run, start) == k
  {
    if k > 0 {
      assert Succeeds(run, start + 0, steps[0]);
      forall i | 0 <= i < k - 1 ensures Succeeds(run, start + 1 + i, steps[1..][i]) {
        assert Succeeds(run, start + (i + 1), steps[i + 1]);
      }
      SuccessesAre(steps[1..], run, start + 1, k - 1);
    }
  }

  /** How many steps are answered before the first that raises. */
  function Answers(steps: seq<Step>, run: Runner, start: nat): (k: nat)
    ensures k <= |steps|
  {
    if steps == [] || run(start, steps[0]).Raised? then 0 else 1 + Answers(steps[1..], run, start + 1)
  }

  lemma {:induction false} AnswersTell(steps: seq<Step>, run: Runner, start: nat)
    ensures var k := Answers(steps, run, start);
      && (k < |steps| ==> run(start + k, steps[k]).Raised?)
      && forall i | 0 <= i < k :: run(start + i, steps[i]).Finished?
  {
    if steps != [] && run(start, steps[0]).Finished? {
      AnswersTell(steps[1..], run, start + 1);
      var k := Answers(steps, run, start);
      forall i | 0 <= i < k ensures run(start + i, steps[i]).Finished? {
        if i > 0 { assert steps[i] == steps[1..][i - 1] && run(start + 1 + (i - 1), steps[1..][i - 1]).Finished?; }
      }
    }
  }

  lemma {:induction false} AnswersAre(steps: seq<Step>, run: Runner, start: nat, k: nat)
    requires k <= |steps| && (k < |steps| ==> run(start + k, steps[k]).Raised?)
    requires forall i | 0 <= i < k :: run(start + i, steps[i]).Finished?
    ensures Answers(steps, run, start) == k
  {
    if k > 0 {
      assert run(start + 0, steps[0]).Finished?;
      forall i | 0 <= i < k - 1 ensures run(start + 1 + i, steps[1..][i]).Finished? {
        assert run(start + (i + 1), steps[i + 1]).Finished?;
      }
      AnswersAre(steps[1..], run, start + 1, k - 1);
    }
  }

  function Through(steps: seq<Step>, k: nat): seq<Step> { if k < |steps| then steps[..k + 1] else steps }

  /** The commands handed to the runner: steps and checks up to the first that does not succeed; if that
      one exited, the rollback steps up to the first that raises. */
  function Attempted(plan: Plan, run: Runner): seq<Step> {
    var forward := plan.steps + plan.verification;
    var k := Successes(forward, run, 0);
    if k < |forward| && run(k, forward[k]).Finished?
    then Through(forward, k) + Through(plan.rollback, Answers(plan.rollback, run, k + 1))
    else Through(forward, k)
  }

  predicate SomeRaised(run: Runner, ran: seq<Step>) { exists i | 0 <= i < |ran| :: run(i, ran[i]).Raised? }

  /** After part of the steps and checks, every rollback step was run and answered. */
  predicate RolledBack(plan: Plan, run: Runner, ran: seq<Step>) {
    exists n :: 0 <= n <= |plan.steps + plan.verification|
        && ran == (plan.steps + plan.verification)[..n] + plan.rollback
      && forall i | n <= i < |ran| :: run(i, ran[i]).Finished?
  }

  /** Nothing is run after a command that raised, so it is never followed by the whole rollback. */
  lemma LastRaised(plan: Plan, run: Runner, ran: seq<Step>)
    requires plan.rollback != [] && ran != [] && run(|ran| - 1, ran[|ran| - 1]).Raised?
    ensures SomeRaised(run, ran) && !RolledBack(plan, run, ran)
  {
  }

  lemma UndoneCut(plan: Plan, run: Runner, head: seq<Step>)
    requires Answers(plan.rollback, run, |head|) < |plan.rollback|
    ensures var ran := head + Through(plan.rollback, Answers(plan.rollback, run, |head|));
      run(|ran| - 1, ran[|ran| - 1]).Raised?
  {
    AnswersTell(plan.rollback, run, |head|);
  }

  lemma UndoneAll(run: Runner, head: seq<Step>, rollback: seq<Step>)
    requires forall i | 0 <= i < |head| :: run(i, head[i]).Finished?
    requires Answers(rollback, run, |head|) == |rollback|
    ensures var ran := head + rollback; forall i | 0 <= i < |ran| :: run(i, ran[i]).Finished?
  {
    var ran := head + rollback;
    AnswersTell(rollback, run, |head|);
    forall i | 0 <= i < |ran| ensures run(i, ran[i]).Finished? {
      if i >= |head| { assert run(|head| + (i - |head|), rollback[i - |head|]).Finished?; }
    }
  }

  lemma HeadFinished(forward: seq<Step>, run: Runner, k: nat)
    requires k == Successes(forward, run, 0) < |forward| && run(k, forward[k]).Finished?
    ensures forall i | 0 <= i < k + 1 :: run(i, forward[i]).Finished?
  {
    SuccessesTell(forward, run, 0);
    forall i | 0 <= i < k + 1 ensures run(i, forward[i]).Finished? {
      if i < k { assert Succeeds(run, 0 + i, forward[i]); }
    }
  }

  /** Whenever something did not succeed, the whole rollback list is run and answered if and only if none
      of the attempted commands raised. */
  lemma RolledBackExactly(plan: Plan, run: Runner)
    requires plan.Complete() && Successes(plan.steps + plan.verification, run, 0) < |plan.steps + plan.verification|
    ensures RolledBack(plan, run, Attempted(plan, run)) <==> !SomeRaised(run, Attempted(plan, run))
  {
    var forward := plan.steps + plan.verification;
    var k, ran := Successes(forward, run, 0), Attempted(plan, run);
    var head := forward[..k + 1];
    if run(k, forward[k]).Raised? { LastRaised(plan, run, ran); }
    else if Answers(plan.rollback, run, k + 1) < |plan.rollback| {
      UndoneCut(plan, run, head);
      LastRaised(plan, run, ran);
    } else {
      HeadFinished(forward, run, k);
      UndoneAll(run, head, plan.rollback);
      assert ran == head + plan.rollback;
    }
  }

  /** A restart whose second command is missing from the host: the first has taken effect and nothing is
      rolled back. */
  lemma MissingCommandLeavesChange()
    ensures var stop, start, undo := Step("stop", false), Step("start", false), Step("undo", false);
      var plan := Plan(UserServiceRestart, true, true, true, true, true, [stop, start], [undo], [start], false,
          false, false);
      var run := (n: nat, s: Step) => if s == start then Raised else Finished(CommandResult(s.title, 0));
      && Permitted(plan, {}) && Attempted(plan, run) == [stop, start]
      && run(0, stop) == Finished(CommandResult("stop", 0)) && run(1, start).Raised?
      && !RolledBack(plan, run, Attempted(plan, run))
  {
    var stop, start, undo := Step("stop", false), Step("start", false), Step("undo", false);
    var plan := Plan(UserServiceRestart, true, true, true, true, true, [stop, start], [undo], [start], false, false,
        false);
    var run := (n: nat, s: Step) => if s == start then Raised else Finished(CommandResult(s.title, 0));
    assert stop.title[2] != start.title[2];
    var forward := plan.steps + plan.verification;
    assert forward == [stop, start, start];
    var k := Successes(forward, run, 0);
    assert forward[0] == stop && Succeeds(run, 0, forward[0]) && !Succeeds(run, 1, forward[1]);
    SuccessesAre(forward, run, 0, 1);
    assert Attempted(plan, run) == [stop, start];
    assert SomeRaised(run, Attempted(plan, run)) by { assert run(1, Attempted(plan, run)[1]).Raised?; }
    RolledBackExactly(plan, run);
  }

  /** `results` are the answers to all of `steps`. */
  predicate Answered(steps: seq<Step>, run: Runner, start: nat, results: seq<CommandResult>) {
    |results| == |steps| && forall i | 0 <= i < |steps| :: run(start + i, steps[i]) == Finished(results[i])
  }

  /** Runs up to the first step that does not succeed; `None` is an exception. */
  method RunUntilFailure(steps: seq<Step>, run: Runner, start: nat)
    returns (results: Option<seq<CommandResult>>, k: nat)
    ensures k == Successes(steps, run, start)
    ensures results.None? <==> k < |steps| && run(start + k, steps[k]).Raised?
    ensures results.Some? ==> Answered(Through(steps, k), run, start, results.value)
  {
    var done: seq<CommandResult> := [];
    for n := 0 to |steps|
      invariant |done| == n
      invariant forall i | 0 <= i < n :: run(start + i, steps[i]) == Finished(done[i]) && done[i].exitCode == 0
    {
      var answer := run(start + n, steps[n]);
      if answer.Raised? {
        SuccessesAre(steps, run, start, n);
        return None, n;
      }
      done := done + [answer.result];
      if answer.result.exitCode != 0 {
        SuccessesAre(steps, run, start, n);
        return Some(done), n;
      }
    }
    SuccessesAre(steps, run, start, |steps|);
    return Some(done), |steps|;
  }

  method RunAll(steps: seq<Step>, run: Runner, start: nat) returns (results: Option<seq<CommandResult>>, k: nat)
    ensures k == Answers(steps, run, start) && (results.None? <==> k < |steps|)
    ensures results.Some? ==> Answered(steps, run, start, results.value)
  {
    var done: seq<CommandResult> := [];
    for n := 0 to |steps|
      invariant |done| == n
      invariant forall i | 0 <= i < n :: run(start + i, steps[i]) == Finished(done[i])
    {
      var answer := run(start + n, steps[n]);
      if answer.Raised? {
        AnswersAre(steps, run, start, n);
        return None, n;
      }
      done := done + [answer.result];
    }
    AnswersAre(steps, run, start, |steps|);
    return Some(done), |steps|;
  }

  /** The steps and the checks seen as one list. */
  lemma {:induction false} SuccessesJoin(steps: seq<Step>, checks: seq<Step>, run: Runner, start: nat)
    ensures var k := Successes(steps, run, start);
      Successes(steps + checks, run, start) == if k < |steps| then k
      else |steps| + Successes(checks, run, start + |steps|)
  {
    if steps == [] { assert steps + checks == checks; }
    else if Succeeds(run, start, steps[0]) {
      assert (steps + checks)[1..] == steps[1..] + checks;
      SuccessesJoin(steps[1..], checks, run, start + 1);
    }
  }

  /** What a returned execution reports: the answers of all attempted commands in order, and completion
      exactly when all steps and checks exited with zero. */
  predicate Reports(plan: Plan, run: Runner, r: Execution) {
    var forward := plan.steps + plan.verification;
    var k := Successes(forward, run, 0);
    && Answered(Attempted(plan, run), run, 0, r.commands + r.verification + r.rollback)
    && (r.status == Completed <==> k == |forward|) && (r.status == AdminFailed <==> k < |forward|)
    && (r.verification != [] ==> |r.commands| == |plan.steps|)
    && |r.commands| <= |plan.steps| && |r.verification| <= |plan.verification|
    && |r.rollback| == if k < |forward| then |plan.rollback| else 0
  }

  lemma AnsweredJoin(first: seq<Step>, second: seq<Step>, run: Runner, start: nat, a: seq<CommandResult>,
      b: seq<CommandResult>)
    requires Answered(first, run, start, a) && Answered(second, run, start + |first|, b)
    ensures Answered(first + second, run, start, a + b)
  {
    forall i | 0 <= i < |first + second| ensures run(start + i, (first + second)[i]) == Finished((a + b)[i]) {
      if i >= |first| { assert run(start + |first| + (i - |first|), second[i - |first|]) == Finished(b[i - |first|]); }
    }
  }

  /** The steps and checks of a plan stopped after `head` with an exit code that is not zero. */
  predicate StoppedAfter(plan: Plan, run: Runner, head: seq<Step>, commands: seq<CommandResult>,
      checks: seq<CommandResult>) {
    var forward := plan.steps + plan.verification;
    var k := Successes(forward, run, 0);
    && k < |forward| && head == Through(forward, k) && Answered(head, run, 0, commands + checks)
    && |commands| <= |plan.steps| && |checks| <= |plan.verification| && (checks != [] ==> |commands| == |plan.steps|)
  }

  /** A permitted plan hands exactly these commands over, and escapes exactly when one of them raised. */
  predicate Outcome(plan: Plan, run: Runner, r: Option<Execution>, ran: seq<Step>) {
    && ran == Attempted(plan, run) && (r.None? <==> SomeRaised(run, ran))
    && (r.Some? ==> Reports(plan, run, r.value))
  }

  /** Every way out of `execute_admin_change_plan` after a failure runs the rollback list. */
  method Undo(plan: Plan, run: Runner, head: seq<Step>, commands: seq<CommandResult>, checks: seq<CommandResult>)
    returns (r: Option<Execution>, ran: seq<Step>)
    requires StoppedAfter(plan, run, head, commands, checks)
    ensures Outcome(plan, run, r, ran)
  {
    var undone, a := RunAll(plan.rollback, run, |head|);
    ran := head + Through(plan.rollback, a);
    ghost var forward := plan.steps + plan.verification;
    ghost var k := Successes(forward, run, 0);
    assert head[k] == forward[k] && run(0 + k, head[k]).Finished?;
    if undone.None? {
      UndoneCut(plan, run, head);
      return None, ran;
    }
    AnsweredJoin(head, plan.rollback, run, 0, commands + checks, undone.value);
    NoneRaised(ran, run, commands + checks + undone.value);
    return Some(Execution(AdminFailed, commands, checks, undone.value)), ran;
  }

  lemma NoneRaised(ran: seq<Step>, run: Runner, results: seq<CommandResult>)
    requires Answered(ran, run, 0, results)
    ensures !SomeRaised(run, ran)
  {
    forall i | 0 <= i < |ran| ensures run(i, ran[i]).Finished? { assert run(0 + i, ran[i]) == Finished(results[i]); }
  }

  lemma Escapes(plan: Plan, run: Runner, ran: seq<Step>)
    requires var forward := plan.steps + plan.verification;
      var k := Successes(forward, run, 0);
      k < |forward| && run(k, forward[k]).Raised? && ran == Through(forward, k)
    ensures Outcome(plan, run, None, ran)
  {
    assert run(|ran| - 1, ran[|ran| - 1]).Raised?;
  }

  lemma ThroughFirst(steps: seq<Step>, checks: seq<Step>, k: nat)
    requires k < |steps|
    ensures Through(steps + checks, k) == Through(steps, k)
  {
  }

  lemma ThroughSecond(steps: seq<Step>, checks: seq<Step>, j: nat)
    requires j <= |checks|
    ensures Through(steps + checks, |steps| + j) == steps + Through(checks, j)
  {
    if j < |checks| { assert (steps + checks)[..|steps| + j + 1] == steps + checks[..j + 1]; }
  }

  /** Verification, once every step has succeeded. */
  method Verify(plan: Plan, run: Runner, commands: seq<CommandResult>) returns (r: Option<Execution>, ran: seq<Step>)
    requires Successes(plan.steps, run, 0) == |plan.steps| && Answered(plan.steps, run, 0, commands)
    ensures Outcome(plan, run, r, ran)
  {
    SuccessesJoin(plan.steps, plan.verification, run, 0);
    var checks, j := RunUntilFailure(plan.verification, run, |plan.steps|);
    ran := plan.steps + Through(plan.verification, j);
    ThroughSecond(plan.steps, plan.verification, j);
    if checks.None? {
      Escapes(plan, run, ran);
      return None, ran;
    }
    AnsweredJoin(plan.steps, Through(plan.verification, j), run, 0, commands, checks.value);
    if j < |plan.verification| {
      r, ran := Undo(plan, run, ran, commands, checks.value);
      return;
    }
    // The second scan over the command results finds nothing to report.
    NoneFailed(plan.steps, run, commands);
    if exists c | c in commands :: c.exitCode != 0 {
      assert false;
    }
    NoneRaised(ran, run, commands + checks.value);
    assert commands + checks.value + [] == commands + checks.value;
    return Some(Execution(Completed, commands, checks.value, [])), ran;
  }

  lemma NoneFailed(steps: seq<Step>, run: Runner, results: seq<CommandResult>)
    requires Successes(steps, run, 0) == |steps| && Answered(steps, run, 0, results)
    ensures forall c | c in results :: c.exitCode == 0
  {
    SuccessesTell(steps, run, 0);
    forall i | 0 <= i < |results| ensures results[i].exitCode == 0 {
      assert Succeeds(run, 0 + i, steps[i]) && run(0 + i, steps[i]) == Finished(results[i]);
    }
  }

  /** `execute_admin_change_plan`; `None` is the runner's exception. */
  method ExecuteAdminChangePlan(plan: Plan, run: Runner, enabled: set<Kind>) returns (r: Option<Execution>,
      ran: seq<Step>)
    // Nothing runs unless the plan is permitted.
    ensures !Permitted(plan, enabled) ==> r == Some(Execution(AdminBlocked, [], [], [])) && ran == []
    ensures Permitted(plan, enabled) ==> Outcome(plan, run, r, ran)
  {
    if !Live(plan.kind, enabled) || !plan.CanExecute() || NamesForeignProvider(plan) {
      return Some(Execution(AdminBlocked, [], [], [])), [];
    }
    var commands, k := RunUntilFailure(plan.steps, run, 0);
    ran := Through(plan.steps, k);
    if commands.None? {
      StoppedInSteps(plan, run);
      Escapes(plan, run, ran);
      return None, ran;
    }
    if k < |plan.steps| {
      StoppedInSteps(plan, run);
      assert commands.value + [] == commands.value;
      r, ran := Undo(plan, run, ran, commands.value, []);
      return;
    }
    r, ran := Verify(plan, run, commands.value);
  }

  lemma StoppedInSteps(plan: Plan, run: Runner)
    requires Successes(plan.steps, run, 0) < |plan.steps|
    ensures var forward, k := plan.steps + plan.verification, Successes(plan.steps, run, 0);
      Successes(forward, run, 0) == k && forward[k] == plan.steps[k] && Through(forward, k) == Through(plan.steps, k)
  {
    SuccessesJoin(plan.steps, plan.verification, run, 0);
    ThroughFirst(plan.steps, plan.verification, Successes(plan.steps, run, 0));
  }
}
