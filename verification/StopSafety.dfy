/** What every run keeps about physical STOP obligations. */
module StopSafety {
  import opened Wrappers
  import opened StopObligations

  // ---------------------------------------------------------------- folds touch only their targets

  lemma {:induction false} SelectedAre(handles: map<Id, Handle>, ids: seq<Id>, wanted: Handle -> bool)
    ensures forall id :: id in Select(handles, ids, wanted) <==> id in ids && id in handles && wanted(handles[id])
  {
    if ids != [] {
      SelectedAre(handles, ids[..|ids| - 1], wanted);
      assert ids == ids[..|ids| - 1] + [ids[|ids| - 1]];
    }
  }

  /** The same handles, with the same addresses and adapters, and unchanged outside `targets`. */
  ghost predicate Touches(handles: map<Id, Handle>, after: map<Id, Handle>, targets: seq<Id>) {
    && after.Keys == handles.Keys
    && (forall id :: id in handles ==> after[id].address == handles[id].address && after[id].adapter == handles[id].adapter)
    && (forall id :: id in handles && id !in targets ==> after[id] == handles[id])
  }

  lemma TouchesMore(a: map<Id, Handle>, b: map<Id, Handle>, targets: seq<Id>, id: Id, h: Handle)
    requires targets != [] && id == targets[|targets| - 1] && Touches(a, b, targets[..|targets| - 1])
    requires id in b && h.address == b[id].address && h.adapter == b[id].adapter
    ensures Touches(a, b[id := h], targets)
  {
    assert targets == targets[..|targets| - 1] + [id];
  }

  lemma TouchesNoMore(a: map<Id, Handle>, b: map<Id, Handle>, targets: seq<Id>)
    requires targets != [] && Touches(a, b, targets[..|targets| - 1])
    ensures Touches(a, b, targets)
  {
    assert targets == targets[..|targets| - 1] + [targets[|targets| - 1]];
  }

  lemma {:induction false} ConnectTouches(handles: map<Id, Handle>, targets: seq<Id>, outcome: Id -> ConnectOutcome)
    ensures Touches(handles, ConnectEach(handles, targets, outcome).handles, targets)
  {
    if targets != [] {
      var n, id := |targets| - 1, targets[|targets| - 1];
      ConnectTouches(handles, targets[..n], outcome);
      var p := ConnectEach(handles, targets[..n], outcome);
      TouchesNoMore(handles, p.handles, targets);
      if !p.raised && id in p.handles {
        TouchesMore(handles, p.handles, targets, id, Linked(p.handles, id)[id]);
      }
    }
  }

  lemma {:induction false} StartTouches(handles: map<Id, Handle>, targets: seq<Id>, raises: Id -> bool)
    ensures Touches(handles, StartEach(handles, targets, raises).handles, targets)
  {
    if targets != [] {
      var n, id := |targets| - 1, targets[|targets| - 1];
      StartTouches(handles, targets[..n], raises);
      var p := StartEach(handles, targets[..n], raises);
      TouchesNoMore(handles, p.handles, targets);
      if !p.raised && id in p.handles && !p.handles[id].quarantined {
        TouchesMore(handles, p.handles, targets, id, p.handles[id].(pending := true, standing := Owed));
      }
    }
  }

  lemma {:induction false} StopTouches(handles: map<Id, Handle>, targets: seq<Id>, outcome: Id -> StopOutcome)
    ensures Touches(handles, StopEach(handles, targets, outcome).handles, targets)
  {
    if targets != [] {
      var n, id := |targets| - 1, targets[|targets| - 1];
      StopTouches(handles, targets[..n], outcome);
      var p := StopEach(handles, targets[..n], outcome);
      TouchesNoMore(handles, p.handles, targets);
      if id in p.handles {
        TouchesMore(handles, p.handles, targets, id, StopOne(p.handles[id], outcome(id)).0);
      }
    }
  }

  lemma {:induction false} IsolateTouches(handles: map<Id, Handle>, targets: seq<Id>)
    ensures Touches(handles, IsolateEach(handles, targets).handles, targets)
  {
    if targets != [] {
      var n, id := |targets| - 1, targets[|targets| - 1];
      IsolateTouches(handles, targets[..n]);
      var p := IsolateEach(handles, targets[..n]);
      TouchesNoMore(handles, p.handles, targets);
      if id in p.handles {
        TouchesMore(handles, p.handles, targets, id, p.handles[id].(quarantined := true));
      }
    }
  }

  lemma CleanOneKeepsAddress(h: Handle, o: CleanupOutcome)
    ensures var c := CleanOne(h, o).0; c.address == h.address && c.adapter == h.adapter
  {
  }

  lemma {:induction false} CleanTouches(handles: map<Id, Handle>, targets: seq<Id>, outcome: Id -> CleanupOutcome)
    ensures Touches(handles, CleanEach(handles, targets, outcome).handles, targets)
  {
    if targets != [] {
      var n, id := |targets| - 1, targets[|targets| - 1];
      CleanTouches(handles, targets[..n], outcome);
      var p := CleanEach(handles, targets[..n], outcome);
      TouchesNoMore(handles, p.handles, targets);
      if id in p.handles {
        CleanOneKeepsAddress(p.handles[id], outcome(id));
        TouchesMore(handles, p.handles, targets, id, CleanOne(p.handles[id], outcome(id)).0);
      }
    }
  }

  lemma RecoverOneKeepsAddress(r: Request, h: Handle, o: RecoveryOutcome)
    ensures var c := RecoverOne(r, h, o).0; c.address == h.address && c.adapter == h.adapter
  {
  }

  lemma {:induction false} RecoverTouches(handles: map<Id, Handle>, targets: seq<Id>, r: Request)
    ensures Touches(handles, RecoverEach(handles, targets, r).handles, targets)
  {
    if targets != [] {
      var n, id := |targets| - 1, targets[|targets| - 1];
      RecoverTouches(handles, targets[..n], r);
      var p := RecoverEach(handles, targets[..n], r);
      TouchesNoMore(handles, p.handles, targets);
      if id in p.handles {
        RecoverOneKeepsAddress(r, p.handles[id], r.outcome(id));
        TouchesMore(handles, p.handles, targets, id, RecoverOne(r, p.handles[id], r.outcome(id)).0);
      }
    }
  }

  // ---------------------------------------------------------------- recording obligations

  lemma {:induction false} FirstIsThere(handles: map<Id, Handle>, sensors: seq<Id>, id: Id)
    requires id in sensors && id in handles
    ensures var f := First(handles, sensors, handles[id].address);
            f.Some? && f.value in sensors && f.value in handles && handles[f.value].address == handles[id].address
  {
    if !(sensors[0] in handles && handles[sensors[0]].address == handles[id].address) {
      FirstIsThere(handles, sensors[1..], id);
    }
  }

  /** Exactly the keys of the targets without a good verdict are added. */
  lemma {:induction false} ObligedExactly(s: State, targets: seq<Id>, good: seq<bool>)
    requires |good| == |targets| && forall i :: 0 <= i < |targets| ==> targets[i] in s.sensors && targets[i] in s.handles
    ensures var t := ObligeEach(s, targets, good);
            && t.handles == s.handles && t.sensors == s.sensors
            && forall a :: a in t.obligations <==>
                 a in s.obligations || exists i :: 0 <= i < |targets| && !good[i] && Key(s.handles[targets[i]]) == a
  {
    if targets != [] {
      var n := |targets| - 1;
      ObligedExactly(s, targets[..n], good[..n]);
      var t := ObligeEach(s, targets[..n], good[..n]);
      FirstIsThere(s.handles, s.sensors, targets[n]);
      var u := ObligeEach(s, targets, good);
      assert u.obligations.Keys == t.obligations.Keys + if good[n] then {} else {Key(s.handles[targets[n]])};
      forall a ensures a in u.obligations <==>
                 a in s.obligations || exists i :: 0 <= i < |targets| && !good[i] && Key(s.handles[targets[i]]) == a
      {
        if i :| 0 <= i < |targets| && !good[i] && Key(s.handles[targets[i]]) == a {
          if i < n {
            assert targets[..n][i] == targets[i] && good[..n][i] == good[i];
          }
        }
        if i :| 0 <= i < n && !good[..n][i] && Key(s.handles[targets[..n][i]]) == a {
          assert targets[..n][i] == targets[i] && good[..n][i] == good[i];
        }
      }
    }
  }

  lemma {:induction false} RetainKeeps(handles: map<Id, Handle>, ids: seq<Id>, o: map<Address, Option<Id>>)
    ensures o.Keys <= Retain(handles, ids, o).Keys
    ensures forall id :: id in ids && id in handles && HasAddress(handles[id]) && (handles[id].pending || handles[id].quarantined)
              ==> Key(handles[id]) in Retain(handles, ids, o)
    ensures forall a :: a in Retain(handles, ids, o) && a !in o ==>
              var v := Retain(handles, ids, o)[a]; v.Some? && v.value in handles && Key(handles[v.value]) == a
    ensures forall a :: a in o ==> Retain(handles, ids, o)[a] == o[a]
  {
    if ids != [] {
      RetainKeeps(handles, ids[..|ids| - 1], o);
      assert ids == ids[..|ids| - 1] + [ids[|ids| - 1]];
    }
  }

  // ---------------------------------------------------------------- the pending flag tells the truth

  /** A STOP is owed exactly while the flag says so. */
  predicate Honest(h: Handle) {
    h.pending <==> h.standing.Owed?
  }

  ghost predicate AllHonest(handles: map<Id, Handle>) {
    forall id :: id in handles ==> Honest(handles[id])
  }

  ghost predicate Inv(s: State) {
    AllHonest(s.handles) && WellFormed(s)
  }

  lemma {:induction false} ConnectHonest(handles: map<Id, Handle>, targets: seq<Id>, outcome: Id -> ConnectOutcome)
    requires AllHonest(handles)
    ensures AllHonest(ConnectEach(handles, targets, outcome).handles)
  {
    if targets != [] {
      ConnectHonest(handles, targets[..|targets| - 1], outcome);
    }
  }

  lemma {:induction false} StartHonest(handles: map<Id, Handle>, targets: seq<Id>, raises: Id -> bool)
    requires AllHonest(handles)
    ensures AllHonest(StartEach(handles, targets, raises).handles)
  {
    if targets != [] {
      StartHonest(handles, targets[..|targets| - 1], raises);
    }
  }

  lemma {:induction false} StopHonest(handles: map<Id, Handle>, targets: seq<Id>, outcome: Id -> StopOutcome)
    requires AllHonest(handles)
    ensures AllHonest(StopEach(handles, targets, outcome).handles) && AllHonest(IsolateEach(handles, targets).handles)
  {
    if targets != [] {
      StopHonest(handles, targets[..|targets| - 1], outcome);
    }
  }

  lemma CleanOneHonest(h: Handle, o: CleanupOutcome)
    requires Honest(h)
    ensures Honest(CleanOne(h, o).0)
  {
  }

  lemma {:induction false} CleanHonest(handles: map<Id, Handle>, targets: seq<Id>, outcome: Id -> CleanupOutcome)
    requires AllHonest(handles)
    ensures AllHonest(CleanEach(handles, targets, outcome).handles)
  {
    if targets != [] {
      var n, id := |targets| - 1, targets[|targets| - 1];
      CleanHonest(handles, targets[..n], outcome);
      var p := CleanEach(handles, targets[..n], outcome);
      if id in p.handles {
        CleanOneHonest(p.handles[id], outcome(id));
      }
    }
  }

  lemma RecoverOneHonest(r: Request, h: Handle, o: RecoveryOutcome)
    requires Honest(h)
    ensures Honest(RecoverOne(r, h, o).0)
  {
  }

  lemma {:induction false} RecoverHonest(handles: map<Id, Handle>, targets: seq<Id>, r: Request)
    requires AllHonest(handles)
    ensures AllHonest(RecoverEach(handles, targets, r).handles)
  {
    if targets != [] {
      var n, id := |targets| - 1, targets[|targets| - 1];
      RecoverHonest(handles, targets[..n], r);
      var p := RecoverEach(handles, targets[..n], r);
      if id in p.handles {
        RecoverOneHonest(r, p.handles[id], r.outcome(id));
      }
    }
  }

  // ---------------------------------------------------------------- named handles exist

  lemma TargetsAreKnown(s: State, requested: Option<set<Address>>)
    requires WellFormed(s)
    ensures forall id :: id in StopTargets(s, requested) ==> id in s.sensors && id in s.handles
    ensures forall id :: id in CleanupTargets(s, requested) ==> id in s.sensors && id in s.handles
  {
    SelectedAre(s.handles, s.sensors, MayStop(requested));
    SelectedAre(s.handles, s.sensors, MayClean(requested));
  }

  lemma {:induction false} ObligeKeepsForm(s: State, targets: seq<Id>, good: seq<bool>)
    requires |good| == |targets| && WellFormed(s)
    ensures WellFormed(ObligeEach(s, targets, good)) && ObligeEach(s, targets, good).handles == s.handles
  {
    if targets != [] {
      var n := |targets| - 1;
      ObligeKeepsForm(s, targets[..n], good[..n]);
    }
  }

  ghost predicate NamesKnown(handles: map<Id, Handle>, o: map<Address, Option<Id>>) {
    forall a :: a in o && o[a].Some? ==> o[a].value in handles
  }

  lemma {:induction false} ConfiguredAreKnown(handles: map<Id, Handle>, ids: seq<Id>, r: Request)
    ensures NamesKnown(handles, ConfiguredTargets(handles, ids, r))
    ensures forall a :: a in ConfiguredTargets(handles, ids, r) ==>
              var v := ConfiguredTargets(handles, ids, r)[a];
              v.Some? && v.value in handles && Key(handles[v.value]) == a && Requested(r.requested, Some(a))
  {
    if ids != [] {
      ConfiguredAreKnown(handles, ids[..|ids| - 1], r);
    }
  }

  lemma {:induction false} SettleKeepsForm(handles: map<Id, Handle>, o: map<Address, Option<Id>>, targets: map<Address, Option<Id>>,
                                           order: seq<Id>, good: seq<bool>)
    requires |good| == |order| && NamesKnown(handles, o) && NamesKnown(handles, targets)
    ensures NamesKnown(handles, SettleEach(handles, o, targets, order, good).obligations)
  {
    if order != [] {
      var n := |order| - 1;
      SettleKeepsForm(handles, o, targets, order[..n], good[..n]);
    }
  }

  lemma RecoverKeepsForm(s: State, r: Request)
    requires WellFormed(s)
    ensures WellFormed(Recover(s, r))
  {
    RecoverTouches(s.handles, r.order, r);
    var e := RecoverEach(s.handles, r.order, r);
    ConfiguredAreKnown(s.handles, s.sensors, r);
    assert NamesKnown(e.handles, Targets(s, r));
    SettleKeepsForm(e.handles, s.obligations, Targets(s, r), r.order, e.good);
  }

  lemma ReconfigureKeeps(s: State, added: map<Id, AdapterId>, order: seq<Id>, dropped: set<Id>, succeeds: bool)
    requires Inv(s) && added.Keys !! s.handles.Keys && Elements(order) == added.Keys
    ensures Inv(Reconfigure(s, added, order, dropped, succeeds))
  {
    RetainKeeps(s.handles, s.sensors, s.obligations);
    var t := Reconfigure(s, added, order, dropped, succeeds);
    if succeeds {
      forall i | 0 <= i < |order| ensures order[i] in t.handles {
        assert order[i] in Elements(order);
      }
    }
  }

  lemma StepKeeps(s: State, step: Step)
    requires Inv(s)
    ensures Inv(Next(s, step))
  {
    if Allowed(s, step) {
      match step
      case DoConnect(targets, connecting) =>
        ConnectTouches(s.handles, targets, connecting);
        ConnectHonest(s.handles, targets, connecting);
      case DoStart(requested, raises) =>
        StartTouches(s.handles, Startable(s, requested), raises);
        StartHonest(s.handles, Startable(s, requested), raises);
      case DoStop(requested, drained, stopping) => StopKeeps(s, requested, drained, stopping);
      case DoCleanup(requested, cleaning) => CleanupKeeps(s, requested, cleaning);
      case DoReconfigure(added, order, dropped, succeeds) => ReconfigureKeeps(s, added, order, dropped, succeeds);
      case DoRecover(request) =>
        RecoverKeepsForm(s, request);
        RecoverHonest(s.handles, request.order, request);
      case _ =>
    }
  }

  lemma StopKeeps(s: State, requested: Option<set<Address>>, drained: bool, outcome: Id -> StopOutcome)
    requires Inv(s)
    ensures Inv(Stop(s, requested, drained, outcome))
  {
    var targets := StopTargets(s, requested);
    var r := StopVerdicts(s, targets, drained, outcome);
    StopHonest(s.handles, targets, outcome);
    ObligeKeepsForm(s.(handles := r.handles), targets, r.good);
  }

  lemma CleanupKeeps(s: State, requested: Option<set<Address>>, outcome: Id -> CleanupOutcome)
    requires Inv(s)
    ensures Inv(Cleanup(s, requested, outcome))
  {
    var targets := CleanupTargets(s, requested);
    var r := CleanEach(s.handles, targets, outcome);
    CleanHonest(s.handles, targets, outcome);
    ObligeKeepsForm(s.(handles := r.handles), targets, r.good);
  }

  lemma {:induction false} RunKeeps(s: State, steps: seq<Step>)
    requires Inv(s)
    ensures Inv(RunFrom(s, steps))
  {
    if steps != [] {
      RunKeeps(s, steps[..|steps| - 1]);
      StepKeeps(RunFrom(s, steps[..|steps| - 1]), steps[|steps| - 1]);
    }
  }

  // ---------------------------------------------------------------- a STOP accounts for every target

  lemma {:induction false} StopVerdictsAreTrue(handles: map<Id, Handle>, targets: seq<Id>, outcome: Id -> StopOutcome, i: nat)
    requires i < |targets| && targets[i] in handles
    ensures var r := StopEach(handles, targets, outcome);
            targets[i] in r.handles && (r.good[i] ==> !r.handles[targets[i]].pending)
  {
    var n := |targets| - 1;
    StopTouches(handles, targets[..n], outcome);
    var p := StopEach(handles, targets[..n], outcome);
    if i < n {
      StopVerdictsAreTrue(handles, targets[..n], outcome, i);
      assert targets[..n][i] == targets[i];
    }
  }

  lemma {:induction false} NothingIsolatedIsGood(handles: map<Id, Handle>, targets: seq<Id>, i: nat)
    requires i < |targets| && targets[i] in handles
    ensures !IsolateEach(handles, targets).good[i]
  {
    var n := |targets| - 1;
    IsolateTouches(handles, targets[..n]);
    if i < n {
      NothingIsolatedIsGood(handles, targets[..n], i);
    }
  }

  /** A sensor with a "stopped" verdict owes nothing. */
  lemma StoppedOwesNothing(s: State, requested: Option<set<Address>>, drained: bool, outcome: Id -> StopOutcome, i: nat)
    requires Inv(s) && i < |StopTargets(s, requested)|
    ensures var targets := StopTargets(s, requested);
            var t := Stop(s, requested, drained, outcome);
            targets[i] in t.handles && (StopVerdicts(s, targets, drained, outcome).good[i] ==> !t.handles[targets[i]].standing.Owed?)
  {
    var targets := StopTargets(s, requested);
    var r := StopVerdicts(s, targets, drained, outcome);
    TargetsAreKnown(s, requested);
    StopHonest(s.handles, targets, outcome);
    ObligeKeepsForm(s.(handles := r.handles), targets, r.good);
    if drained {
      StopVerdictsAreTrue(s.handles, targets, outcome, i);
    } else {
      NothingIsolatedIsGood(s.handles, targets, i);
    }
  }

  /** A STOP adds the addresses of exactly the targets whose verdict is not "stopped". */
  lemma StopObligesExactly(s: State, requested: Option<set<Address>>, drained: bool, outcome: Id -> StopOutcome, a: Address)
    requires Inv(s)
    ensures var targets := StopTargets(s, requested);
            var good := StopVerdicts(s, targets, drained, outcome).good;
            a in Stop(s, requested, drained, outcome).obligations <==>
              || a in s.obligations
              || exists i :: 0 <= i < |targets| && targets[i] in s.handles && !good[i] && Key(s.handles[targets[i]]) == a
  {
    var targets := StopTargets(s, requested);
    var r := StopVerdicts(s, targets, drained, outcome);
    TargetsAreKnown(s, requested);
    StopTouches(s.handles, targets, outcome);
    IsolateTouches(s.handles, targets);
    assert Touches(s.handles, r.handles, targets);
    SameKeys(s.handles, r.handles, targets);
    ObligedExactly(s.(handles := r.handles), targets, r.good);
  }

  lemma SameKeys(handles: map<Id, Handle>, after: map<Id, Handle>, targets: seq<Id>)
    requires Touches(handles, after, targets)
    ensures forall id :: id in handles ==> Key(after[id]) == Key(handles[id])
  {
  }

  // ---------------------------------------------------------------- so does a cleanup

  /** A "cleaned" sensor owes no STOP and has no link, and nothing later in the cleanup changes that. */
  lemma CleanOneVerdict(h: Handle, o: CleanupOutcome)
    ensures var (c, ok) := CleanOne(h, o); (ok ==> !c.pending && !c.linked) && (!h.pending && !h.linked ==> !c.pending && !c.linked)
  {
  }

  lemma {:induction false} CleanVerdictsAreTrue(handles: map<Id, Handle>, targets: seq<Id>, outcome: Id -> CleanupOutcome, i: nat)
    requires i < |targets| && targets[i] in handles
    ensures var r := CleanEach(handles, targets, outcome);
            targets[i] in r.handles && (r.good[i] ==> !r.handles[targets[i]].pending && !r.handles[targets[i]].linked)
  {
    var n := |targets| - 1;
    CleanTouches(handles, targets[..n], outcome);
    var p := CleanEach(handles, targets[..n], outcome);
    if targets[n] in p.handles {
      CleanOneVerdict(p.handles[targets[n]], outcome(targets[n]));
    }
    if i < n {
      CleanVerdictsAreTrue(handles, targets[..n], outcome, i);
      assert targets[..n][i] == targets[i];
    }
  }

  /** A cleaned sensor owes nothing and has no link. */
  lemma CleanedOwesNothing(s: State, requested: Option<set<Address>>, outcome: Id -> CleanupOutcome, i: nat)
    requires Inv(s) && i < |CleanupTargets(s, requested)|
    ensures var id := CleanupTargets(s, requested)[i];
            var t := Cleanup(s, requested, outcome);
            id in t.handles && (CleanEach(s.handles, CleanupTargets(s, requested), outcome).good[i] ==>
              !t.handles[id].standing.Owed? && !t.handles[id].linked)
  {
    var targets := CleanupTargets(s, requested);
    var r := CleanEach(s.handles, targets, outcome);
    TargetsAreKnown(s, requested);
    CleanHonest(s.handles, targets, outcome);
    ObligeKeepsForm(s.(handles := r.handles), targets, r.good);
    CleanVerdictsAreTrue(s.handles, targets, outcome, i);
  }

  /** A cleanup adds the addresses of exactly the targets it could not clean. */
  lemma CleanupObligesExactly(s: State, requested: Option<set<Address>>, outcome: Id -> CleanupOutcome, a: Address)
    requires Inv(s)
    ensures var targets := CleanupTargets(s, requested);
            var good := CleanEach(s.handles, targets, outcome).good;
            a in Cleanup(s, requested, outcome).obligations <==>
              || a in s.obligations
              || exists i :: 0 <= i < |targets| && targets[i] in s.handles && !good[i] && Key(s.handles[targets[i]]) == a
  {
    var targets := CleanupTargets(s, requested);
    var r := CleanEach(s.handles, targets, outcome);
    TargetsAreKnown(s, requested);
    CleanTouches(s.handles, targets, outcome);
    SameKeys(s.handles, r.handles, targets);
    ObligedExactly(s.(handles := r.handles), targets, r.good);
  }

  // ---------------------------------------------------------------- obligations last and block

  /** Nothing but a recovery removes an obligation. */
  lemma OnlyRecoveryClears(s: State, step: Step)
    requires Inv(s) && !step.DoRecover?
    ensures s.obligations.Keys <= Next(s, step).obligations.Keys
  {
    if Allowed(s, step) {
      match step
      case DoStop(requested, drained, stopping) =>
        forall a | a in s.obligations ensures a in Next(s, step).obligations {
          StopObligesExactly(s, requested, drained, stopping, a);
        }
      case DoCleanup(requested, cleaning) =>
        forall a | a in s.obligations ensures a in Next(s, step).obligations {
          CleanupObligesExactly(s, requested, cleaning, a);
        }
      case DoReconfigure(_, _, _, _) => RetainKeeps(s.handles, s.sensors, s.obligations);
      case _ =>
    }
  }

  /** Neither connecting nor starting touches a handle whose address is an obligation. */
  lemma ObligedIsLeftAlone(s: State, step: Step, id: Id)
    requires step.DoConnect? || step.DoStart?
    requires id in s.handles && Key(s.handles[id]) in s.obligations
    ensures id in Next(s, step).handles && Next(s, step).handles[id] == s.handles[id]
  {
    if Allowed(s, step) {
      if step.DoConnect? {
        ConnectTouches(s.handles, step.targets, step.connecting);
        if Reconciled(s, step.targets) {
          assert id !in step.targets;
        }
      } else {
        var targets := Startable(s, step.requested);
        StartTouches(s.handles, targets, step.raises);
        SelectedAre(s.handles, s.sensors, MayStart(s, step.requested));
      }
    }
  }

  /** Replacing the configuration retains every handle that owes a STOP, under its address. */
  lemma ReconfigureForgetsNothing(s: State, added: map<Id, AdapterId>, order: seq<Id>, dropped: set<Id>, succeeds: bool, id: Id)
    requires Inv(s) && id in s.sensors && HasAddress(s.handles[id]) && s.handles[id].standing.Owed?
    ensures var t := Reconfigure(s, added, order, dropped, succeeds);
            var a := Key(s.handles[id]);
            && a in t.obligations
            && if a in s.obligations then t.obligations[a] == s.obligations[a]
               else t.obligations[a].Some? && t.obligations[a].value in s.handles && Key(s.handles[t.obligations[a].value]) == a
  {
    RetainKeeps(s.handles, s.sensors, s.obligations);
    assert Honest(s.handles[id]);
  }
}
