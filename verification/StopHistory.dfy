/**
 Every start of a sensor is answered: in every run, a handle without a pending STOP was never started, or
 after its last start some command carried a confirmation for it. Starts and confirmations are read off
 the commands and their outcomes, not off the flag.
 */
module StopHistory {
  import opened Wrappers
  import opened StopObligations
  import opened StopSafety
  import opened StopEvidence

  /** The start command reached the sensor, so that it may be measuring whatever its answer was. */
  ghost predicate Attempted(s: State, step: Step, id: Id) {
    step.DoStart? &&
    var targets := Startable(s, step.requested);
    exists i :: 0 <= i < |targets| && targets[i] == id && !StartEach(s.handles, targets[..i], step.raises).raised
  }

  /** The command carries a confirmation that the sensor does not measure any more. */
  ghost predicate Confirms(s: State, step: Step, id: Id) {
    id in s.handles &&
    match step
    case DoStop(requested, drained, stopping) =>
      && drained && id in StopTargets(s, requested) && s.handles[id].connected
      && stopping(id).confirmed && !stopping(id).tooLate
    case DoCleanup(requested, cleaning) =>
      id in CleanupTargets(s, requested) && cleaning(id).confirmed && !cleaning(id).tooLate
    case DoRecover(r) =>
      && id in r.order
      && if Key(s.handles[id]) in r.operator then ControlledReset(r, s.handles[id])
         else r.outcome(id).confirmed || r.outcome(id).hostReportsStop
    case _ => false
  }

  // ---------------------------------------------------------------- the flag falls only with a confirmation

  lemma {:induction false} StopNeedsConfirmation(handles: map<Id, Handle>, targets: seq<Id>, outcome: Id -> StopOutcome, id: Id)
    requires id in handles
    ensures var h := StopEach(handles, targets, outcome).handles[id];
            && h.connected == handles[id].connected
            && (handles[id].pending && !h.pending ==>
                  id in targets && handles[id].connected && outcome(id).confirmed && !outcome(id).tooLate)
  {
    if targets != [] {
      StopNeedsConfirmation(handles, targets[..|targets| - 1], outcome, id);
      assert targets == targets[..|targets| - 1] + [targets[|targets| - 1]];
    }
  }

  lemma {:induction false} IsolatingConfirmsNothing(handles: map<Id, Handle>, targets: seq<Id>, id: Id)
    requires id in handles
    ensures IsolateEach(handles, targets).handles[id].pending == handles[id].pending
  {
    if targets != [] {
      IsolatingConfirmsNothing(handles, targets[..|targets| - 1], id);
    }
  }

  lemma CleanOneNeedsConfirmation(h: Handle, o: CleanupOutcome)
    ensures h.pending && !CleanOne(h, o).0.pending ==> o.confirmed && !o.tooLate
  {
  }

  lemma {:induction false} CleanupNeedsConfirmation(handles: map<Id, Handle>, targets: seq<Id>, outcome: Id -> CleanupOutcome, id: Id)
    requires id in handles
    ensures var h := CleanEach(handles, targets, outcome).handles[id];
            handles[id].pending && !h.pending ==> id in targets && outcome(id).confirmed && !outcome(id).tooLate
  {
    if targets != [] {
      var n := |targets| - 1;
      CleanupNeedsConfirmation(handles, targets[..n], outcome, id);
      assert targets == targets[..n] + [targets[n]];
      if targets[n] == id {
        CleanOneNeedsConfirmation(CleanEach(handles, targets[..n], outcome).handles[id], outcome(id));
      }
    }
  }

  lemma RecoveryNeedsConfirmation(s: State, r: Request, id: Id)
    requires id in s.handles && s.handles[id].pending && !Recover(s, r).handles[id].pending
    ensures Confirms(s, DoRecover(r), id)
  {
    RecoverTracks(s.handles, r.order, r, id);
    RecoverTouches(s.handles, r.order, r);
  }

  lemma {:induction false} StartingConfirmsNothing(handles: map<Id, Handle>, targets: seq<Id>, raises: Id -> bool, id: Id)
    requires id in handles
    ensures var p := StartEach(handles, targets, raises);
            id in p.handles && (handles[id].pending ==> p.handles[id].pending)
  {
    if targets != [] {
      StartingConfirmsNothing(handles, targets[..|targets| - 1], raises, id);
    }
  }

  lemma {:induction false} ConnectingKeepsFlag(handles: map<Id, Handle>, targets: seq<Id>, outcome: Id -> ConnectOutcome, id: Id)
    requires id in handles
    ensures var p := ConnectEach(handles, targets, outcome); id in p.handles && p.handles[id].pending == handles[id].pending
  {
    if targets != [] {
      ConnectingKeepsFlag(handles, targets[..|targets| - 1], outcome, id);
    }
  }

  lemma StopFlag(s: State, requested: Option<set<Address>>, drained: bool, outcome: Id -> StopOutcome, id: Id)
    requires Inv(s) && id in s.handles
    ensures var t := Stop(s, requested, drained, outcome);
            id in t.handles && (s.handles[id].pending && !t.handles[id].pending ==> Confirms(s, DoStop(requested, drained, outcome), id))
  {
    var targets := StopTargets(s, requested);
    var r := StopVerdicts(s, targets, drained, outcome);
    ObligeKeepsForm(s.(handles := r.handles), targets, r.good);
    StopNeedsConfirmation(s.handles, targets, outcome, id);
    IsolatingConfirmsNothing(s.handles, targets, id);
  }

  lemma CleanupFlag(s: State, requested: Option<set<Address>>, outcome: Id -> CleanupOutcome, id: Id)
    requires Inv(s) && id in s.handles
    ensures var t := Cleanup(s, requested, outcome);
            id in t.handles && (s.handles[id].pending && !t.handles[id].pending ==> Confirms(s, DoCleanup(requested, outcome), id))
  {
    var targets := CleanupTargets(s, requested);
    var r := CleanEach(s.handles, targets, outcome);
    ObligeKeepsForm(s.(handles := r.handles), targets, r.good);
    CleanupNeedsConfirmation(s.handles, targets, outcome, id);
  }

  /** In every step, handles stay, and a pending STOP stops being pending only with a confirmation. */
  lemma FlagFallsOnlyWithConfirmation(s: State, step: Step, id: Id)
    requires Inv(s) && id in s.handles
    ensures var t := Next(s, step);
            id in t.handles && (s.handles[id].pending && !t.handles[id].pending ==> Confirms(s, step, id))
  {
    if Allowed(s, step) {
      match step
      case DoConnect(targets, connecting) => ConnectingKeepsFlag(s.handles, targets, connecting, id);
      case DoStart(requested, raises) => StartingConfirmsNothing(s.handles, Startable(s, requested), raises, id);
      case DoStop(requested, drained, stopping) => StopFlag(s, requested, drained, stopping, id);
      case DoCleanup(requested, cleaning) => CleanupFlag(s, requested, cleaning, id);
      case DoRecover(r) =>
        RecoverTouches(s.handles, r.order, r);
        if s.handles[id].pending && !Recover(s, r).handles[id].pending {
          RecoveryNeedsConfirmation(s, r, id);
        }
      case _ =>
    }
  }

  // ---------------------------------------------------------------- every start raises it

  lemma {:induction false} ReachedIsPending(handles: map<Id, Handle>, targets: seq<Id>, raises: Id -> bool, i: nat)
    requires i < |targets| && targets[i] in handles && !handles[targets[i]].quarantined
    requires !StartEach(handles, targets[..i], raises).raised
    ensures var p := StartEach(handles, targets, raises); targets[i] in p.handles && p.handles[targets[i]].pending
  {
    var n, id := |targets| - 1, targets[i];
    if i < n {
      assert targets[..n][..i] == targets[..i];
      ReachedIsPending(handles, targets[..n], raises, i);
    } else {
      StartTouches(handles, targets[..n], raises);
      StartingIsolatesNothing(handles, targets[..n], raises, id);
    }
  }

  lemma {:induction false} StartingIsolatesNothing(handles: map<Id, Handle>, targets: seq<Id>, raises: Id -> bool, id: Id)
    requires id in handles
    ensures var p := StartEach(handles, targets, raises); id in p.handles && p.handles[id].quarantined == handles[id].quarantined
  {
    if targets != [] {
      StartingIsolatesNothing(handles, targets[..|targets| - 1], raises, id);
    }
  }

  lemma AttemptIsPending(s: State, step: Step, id: Id)
    requires Attempted(s, step, id)
    ensures id in s.handles && id in Next(s, step).handles && Next(s, step).handles[id].pending
  {
    var targets := Startable(s, step.requested);
    var i :| 0 <= i < |targets| && targets[i] == id && !StartEach(s.handles, targets[..i], step.raises).raised;
    StartableIsUsable(s, step.requested, i);
    ReachedIsPending(s.handles, targets, step.raises, i);
    StartStep(s, step.requested, step.raises);
  }

  lemma StartableIsUsable(s: State, requested: Option<set<Address>>, i: nat)
    requires i < |Startable(s, requested)|
    ensures var id := Startable(s, requested)[i]; id in s.handles && !s.handles[id].quarantined
  {
    SelectedAre(s.handles, s.sensors, MayStart(s, requested));
    assert Startable(s, requested)[i] in Startable(s, requested);
  }

  lemma StartStep(s: State, requested: Option<set<Address>>, raises: Id -> bool)
    ensures Next(s, DoStart(requested, raises)).handles == StartEach(s.handles, Startable(s, requested), raises).handles
  {
  }

  // ---------------------------------------------------------------- over whole runs

  ghost predicate AttemptedAt(steps: seq<Step>, j: nat, id: Id) {
    j < |steps| && Attempted(RunFrom(Initial(), steps[..j]), steps[j], id)
  }

  ghost predicate ConfirmedAt(steps: seq<Step>, k: nat, id: Id) {
    k < |steps| && Confirms(RunFrom(Initial(), steps[..k]), steps[k], id)
  }

  lemma FrontAttempts(steps: seq<Step>, j: nat, id: Id)
    requires steps != [] && j < |steps| - 1
    ensures AttemptedAt(steps[..|steps| - 1], j, id) == AttemptedAt(steps, j, id)
    ensures ConfirmedAt(steps[..|steps| - 1], j, id) == ConfirmedAt(steps, j, id)
  {
    assert steps[..|steps| - 1][..j] == steps[..j];
  }

  /** If no STOP is pending after the last step although one was before, the last step confirmed it. */
  lemma LastStepAnswers(steps: seq<Step>, id: Id)
    requires steps != []
    requires var s := RunFrom(Initial(), steps[..|steps| - 1]); id in s.handles && s.handles[id].pending
    requires var t := RunFrom(Initial(), steps); id in t.handles ==> !t.handles[id].pending
    ensures ConfirmedAt(steps, |steps| - 1, id)
  {
    var n := |steps| - 1;
    RunKeeps(Initial(), steps[..n]);
    FlagFallsOnlyWithConfirmation(RunFrom(Initial(), steps[..n]), steps[n], id);
  }

  lemma LastStepIsNoStart(steps: seq<Step>, id: Id)
    requires steps != []
    requires var t := RunFrom(Initial(), steps); id in t.handles ==> !t.handles[id].pending
    ensures !AttemptedAt(steps, |steps| - 1, id)
  {
    var n := |steps| - 1;
    RunKeeps(Initial(), steps[..n]);
    if AttemptedAt(steps, n, id) {
      AttemptIsPending(RunFrom(Initial(), steps[..n]), steps[n], id);
    }
  }

  /** In every run, every start of a sensor without a pending STOP was followed by a confirmation for it. */
  lemma {:induction false} EveryStartIsAnswered(steps: seq<Step>, id: Id, j: nat)
    requires var s := RunFrom(Initial(), steps); id in s.handles ==> !s.handles[id].pending
    requires AttemptedAt(steps, j, id)
    ensures exists k :: j < k < |steps| && ConfirmedAt(steps, k, id)
  {
    var n := |steps| - 1;
    var front := steps[..n];
    LastStepIsNoStart(steps, id);
    FrontAttempts(steps, j, id);
    if id in RunFrom(Initial(), front).handles && RunFrom(Initial(), front).handles[id].pending {
      LastStepAnswers(steps, id);
    } else {
      EveryStartIsAnswered(front, id, j);
      var k :| j < k < n && ConfirmedAt(front, k, id);
      FrontAttempts(steps, k, id);
    }
  }

  /**
   In every run, when a recovery clears an obligation that names a handle and has no rival, every start of
   that handle was followed by a confirmation for it: a plugin STOP that succeeded, the report of its host,
   or the operator's word with a controlled reset.
   */
  lemma ClearedAfterConfirmation(steps: seq<Step>, r: Request, a: Address, id: Id, j: nat)
    ensures var s := RunFrom(Initial(), steps);
            && InOrder(s, r) && a in s.obligations && s.obligations[a] == Some(id) && !Rival(s, a, id)
            && a !in Recover(s, r).obligations && AttemptedAt(steps, j, id)
            ==> exists k :: j < k <= |steps| && ConfirmedAt(steps + [DoRecover(r)], k, id)
  {
    var s := RunFrom(Initial(), steps);
    if InOrder(s, r) && a in s.obligations && s.obligations[a] == Some(id) && !Rival(s, a, id)
       && a !in Recover(s, r).obligations && AttemptedAt(steps, j, id)
    {
      OwnStopConfirmed(s, r, a, id);
      RunThen(steps, DoRecover(r));
      RecoveryStep(s, r);
      FrontAttempts(steps + [DoRecover(r)], j, id);
      EveryStartIsAnswered(steps + [DoRecover(r)], id, j);
    }
  }

  lemma RunThen(steps: seq<Step>, step: Step)
    ensures (steps + [step])[..|steps|] == steps && RunFrom(Initial(), steps + [step]) == Next(RunFrom(Initial(), steps), step)
  {
    assert (steps + [step])[..|steps|] == steps;
  }

  lemma RecoveryStep(s: State, r: Request)
    requires InOrder(s, r)
    ensures Next(s, DoRecover(r)) == Recover(s, r)
  {
  }
}
