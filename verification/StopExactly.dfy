/**
 What the sensor manager's commands do, exactly: which verdict each sensor gets, and who is connected,
 started, obliged and released. Everything is said of the handles before the command and of its outcomes.
 */
module StopExactly {
  import opened Wrappers
  import opened StopObligations
  import opened StopSafety
  import opened StopEvidence

  lemma {:induction false} SelectedAreDifferent(handles: map<Id, Handle>, ids: seq<Id>, wanted: Handle -> bool)
    requires Different(ids)
    ensures Different(Select(handles, ids, wanted))
  {
    if ids != [] {
      var front := ids[..|ids| - 1];
      SelectedAreDifferent(handles, front, wanted);
      SelectedAre(handles, front, wanted);
      forall i | 0 <= i < |Select(handles, front, wanted)| ensures Select(handles, front, wanted)[i] != ids[|ids| - 1] {
        assert Select(handles, front, wanted)[i] in front;
      }
    }
  }

  // ---------------------------------------------------------------- STOP

  /** The sensor is stopped: in time, not isolated, and confirmed by its plugin, or without link and owing nothing. */
  predicate Stops(drained: bool, h: Handle, o: StopOutcome) {
    drained && !h.quarantined && !o.tooLate && if h.connected then o.confirmed else !h.pending
  }

  /** What a STOP leaves of a handle. */
  predicate StopLeaves(drained: bool, h: Handle, o: StopOutcome, c: Handle) {
    && c.address == h.address && c.adapter == h.adapter && c.connected == h.connected && c.linked == h.linked
    && (c.pending <==> h.pending && !(Stops(drained, h, o) && h.connected))
    && (c.quarantined <==> h.quarantined || !drained || (!o.tooLate && h.connected && !o.confirmed && o.isolates))
  }

  lemma LastStops(handles: map<Id, Handle>, targets: seq<Id>, outcome: Id -> StopOutcome, n: nat)
    requires |targets| == n + 1 && targets[n] in handles && targets[n] !in targets[..n]
    ensures var r, id := StopEach(handles, targets, outcome), targets[n];
            && (r.good[n] <==> Stops(true, handles[id], outcome(id)))
            && id in r.handles && StopLeaves(true, handles[id], outcome(id), r.handles[id])
  {
    StopTouches(handles, targets[..n], outcome);
  }

  lemma LastStopsNoOther(handles: map<Id, Handle>, targets: seq<Id>, outcome: Id -> StopOutcome, n: nat, i: nat)
    requires |targets| == n + 1 && i < n && targets[n] != targets[i]
    ensures var r, q := StopEach(handles, targets, outcome), StopEach(handles, targets[..n], outcome);
            r.good[i] == q.good[i] && (targets[i] in q.handles ==> r.handles[targets[i]] == q.handles[targets[i]])
  {
  }

  lemma {:induction false} StopsExactly(handles: map<Id, Handle>, targets: seq<Id>, outcome: Id -> StopOutcome, i: nat)
    requires Different(targets) && i < |targets| && targets[i] in handles
    ensures var r, id := StopEach(handles, targets, outcome), targets[i];
            && (r.good[i] <==> Stops(true, handles[id], outcome(id)))
            && id in r.handles && StopLeaves(true, handles[id], outcome(id), r.handles[id])
  {
    var n := |targets| - 1;
    if i < n {
      StopsExactly(handles, targets[..n], outcome, i);
      LastStopsNoOther(handles, targets, outcome, n, i);
    } else {
      LastStops(handles, targets, outcome, n);
    }
  }

  lemma {:induction false} IsolatesExactly(handles: map<Id, Handle>, targets: seq<Id>, outcome: Id -> StopOutcome, i: nat)
    requires Different(targets) && i < |targets| && targets[i] in handles
    ensures var r, id := IsolateEach(handles, targets), targets[i];
            && !r.good[i] && id in r.handles && StopLeaves(false, handles[id], outcome(id), r.handles[id])
  {
    var n := |targets| - 1;
    IsolateTouches(handles, targets[..n]);
    if i < n {
      IsolatesExactly(handles, targets[..n], outcome, i);
    } else {
      assert targets[n] !in targets[..n];
    }
  }

  /** The verdict and the handle of every target of a STOP, from the handle before and the outcome alone. */
  lemma VerdictExactly(s: State, targets: seq<Id>, drained: bool, outcome: Id -> StopOutcome, i: nat)
    requires Different(targets) && i < |targets| && targets[i] in s.handles
    ensures var r, id := StopVerdicts(s, targets, drained, outcome), targets[i];
            && (r.good[i] <==> Stops(drained, s.handles[id], outcome(id)))
            && id in r.handles && StopLeaves(drained, s.handles[id], outcome(id), r.handles[id])
  {
    if drained {
      StopsExactly(s.handles, targets, outcome, i);
    } else {
      IsolatesExactly(s.handles, targets, outcome, i);
    }
  }

  /** The command is for this sensor: it is configured, and its address is among those asked for, if any are. */
  predicate AskedFor(s: State, requested: Option<set<Address>>, id: Id) {
    && id in s.sensors && id in s.handles
    && (requested.Some? ==> s.handles[id].address.Some? && s.handles[id].address.value in requested.value)
  }

  lemma StopTargetsAre(s: State, requested: Option<set<Address>>, id: Id)
    ensures id in StopTargets(s, requested) <==> AskedFor(s, requested, id)
  {
    SelectedAre(s.handles, s.sensors, MayStop(requested));
  }

  /**
   After a STOP, exactly those addresses are obligations that were before, or whose configured sensor was asked
   for and did not stop; and every handle is as its outcome leaves it.
   */
  lemma StopExactly(s: State, requested: Option<set<Address>>, drained: bool, outcome: Id -> StopOutcome, a: Address, id: Id)
    requires Inv(s) && Different(s.sensors) && id in s.handles
    ensures var t := Stop(s, requested, drained, outcome);
            && (a in t.obligations <==>
                  || a in s.obligations
                  || exists k :: AskedFor(s, requested, k) && Key(s.handles[k]) == a && !Stops(drained, s.handles[k], outcome(k)))
            && id in t.handles
            && if AskedFor(s, requested, id) then StopLeaves(drained, s.handles[id], outcome(id), t.handles[id])
               else t.handles[id] == s.handles[id]
  {
    var targets := StopTargets(s, requested);
    SelectedAreDifferent(s.handles, s.sensors, MayStop(requested));
    StopObligesWhom(s, requested, drained, outcome, a);
    StopTouches(s.handles, targets, outcome);
    IsolateTouches(s.handles, targets);
    var r := StopVerdicts(s, targets, drained, outcome);
    ObligeKeepsForm(s.(handles := r.handles), targets, r.good);
    StopTargetsAre(s, requested, id);
    if id in targets {
      var i :| 0 <= i < |targets| && targets[i] == id;
      VerdictExactly(s, targets, drained, outcome, i);
    }
  }

  lemma StopObligesWhom(s: State, requested: Option<set<Address>>, drained: bool, outcome: Id -> StopOutcome, a: Address)
    requires Inv(s) && Different(s.sensors)
    ensures a in Stop(s, requested, drained, outcome).obligations <==>
              || a in s.obligations
              || exists k :: AskedFor(s, requested, k) && Key(s.handles[k]) == a && !Stops(drained, s.handles[k], outcome(k))
  {
    var targets := StopTargets(s, requested);
    var good := StopVerdicts(s, targets, drained, outcome).good;
    StopObligesExactly(s, requested, drained, outcome, a);
    SelectedAreDifferent(s.handles, s.sensors, MayStop(requested));
    if i :| 0 <= i < |targets| && targets[i] in s.handles && !good[i] && Key(s.handles[targets[i]]) == a {
      VerdictExactly(s, targets, drained, outcome, i);
      assert targets[i] in targets;
      StopTargetsAre(s, requested, targets[i]);
    }
    if k :| AskedFor(s, requested, k) && Key(s.handles[k]) == a && !Stops(drained, s.handles[k], outcome(k)) {
      StopTargetsAre(s, requested, k);
      var i :| 0 <= i < |targets| && targets[i] == k;
      VerdictExactly(s, targets, drained, outcome, i);
    }
  }

  // ---------------------------------------------------------------- cleanup

  /** The sensor is cleaned: in time, not isolated, uninterrupted, its STOP confirmed over a link, and every link given up. */
  predicate Cleans(h: Handle, o: CleanupOutcome) {
    && !o.tooLate && !h.quarantined && o.cut > 3
    && (h.pending ==> (h.linked || o.reconnects) && o.confirmed)
    && (h.linked || h.pending ==> o.disconnects)
  }

  lemma CleansOneExactly(h: Handle, o: CleanupOutcome)
    ensures CleanOne(h, o).1 <==> Cleans(h, o)
    ensures Cleans(h, o) ==>
              var c := CleanOne(h, o).0;
              && !c.pending && !c.linked && !c.quarantined && c.address == h.address
              && c.connected == (h.connected && !h.linked && !h.pending)
  {
  }

  /** What a cleanup leaves of the sensor, however far it gets: its owed STOP, its link, and whether it is isolated. */
  lemma CleanupLeaves(h: Handle, o: CleanupOutcome)
    ensures var c := CleanOne(h, o).0;
            var begun := !o.tooLate && !h.quarantined;
            var goes := begun && o.cut > 0 && (h.pending && !h.linked ==> o.reconnects);
            var down := goes && (h.linked || h.pending) && o.cut > 2 && o.disconnects;
            && c.adapter == h.adapter && c.address == h.address
            && (c.pending <==> h.pending && !(goes && o.cut > 1 && o.confirmed))
            && (c.linked <==> (h.linked || (goes && h.pending)) && !down)
            && (c.connected <==> (h.connected || (goes && h.pending && !h.linked)) && !down)
            && (c.quarantined <==>
                  || h.quarantined
                  || (o.isolates && begun && o.cut == 0)
                  || (o.isolates && goes && (o.cut <= 2 || (h.pending && !o.confirmed)))
                  || (o.isolates && goes && o.cut == 3 && (h.linked || h.pending ==> o.disconnects)))
  {
  }

  lemma {:induction false} CleansExactly(handles: map<Id, Handle>, targets: seq<Id>, outcome: Id -> CleanupOutcome, i: nat)
    requires Different(targets) && i < |targets| && targets[i] in handles
    ensures var r, id := CleanEach(handles, targets, outcome), targets[i];
            (r.good[i] <==> Cleans(handles[id], outcome(id))) && id in r.handles && r.handles[id] == CleanOne(handles[id], outcome(id)).0
  {
    var n := |targets| - 1;
    CleanTouches(handles, targets[..n], outcome);
    if i < n {
      CleansExactly(handles, targets[..n], outcome, i);
    } else {
      assert targets[n] !in targets[..n];
      CleansOneExactly(handles[targets[n]], outcome(targets[n]));
    }
  }

  /** The cleanup is for this sensor: configured, with an address, whose key is among those asked for, if any are. */
  predicate CleanupFor(s: State, requested: Option<set<Address>>, id: Id) {
    && id in s.sensors && id in s.handles && s.handles[id].address.Some? && s.handles[id].address.value != ""
    && (requested.Some? ==> Key(s.handles[id]) in requested.value)
  }

  lemma CleanupTargetsAre(s: State, requested: Option<set<Address>>, id: Id)
    ensures id in CleanupTargets(s, requested) <==> CleanupFor(s, requested, id)
  {
    SelectedAre(s.handles, s.sensors, MayClean(requested));
  }

  /** A cleanup adds exactly the addresses of the sensors it is for and that it does not clean. */
  lemma CleanupExactly(s: State, requested: Option<set<Address>>, outcome: Id -> CleanupOutcome, a: Address)
    requires Inv(s) && Different(s.sensors)
    ensures a in Cleanup(s, requested, outcome).obligations <==>
              || a in s.obligations
              || exists k :: CleanupFor(s, requested, k) && Key(s.handles[k]) == a && !Cleans(s.handles[k], outcome(k))
  {
    var targets := CleanupTargets(s, requested);
    var good := CleanEach(s.handles, targets, outcome).good;
    CleanupObligesExactly(s, requested, outcome, a);
    SelectedAreDifferent(s.handles, s.sensors, MayClean(requested));
    if i :| 0 <= i < |targets| && targets[i] in s.handles && !good[i] && Key(s.handles[targets[i]]) == a {
      CleansExactly(s.handles, targets, outcome, i);
      assert targets[i] in targets;
      CleanupTargetsAre(s, requested, targets[i]);
    }
    if k :| CleanupFor(s, requested, k) && Key(s.handles[k]) == a && !Cleans(s.handles[k], outcome(k)) {
      CleanupTargetsAre(s, requested, k);
      var i :| 0 <= i < |targets| && targets[i] == k;
      CleansExactly(s.handles, targets, outcome, i);
    }
  }

  // ---------------------------------------------------------------- recovery of one sensor

  /**
   The gateway of the sensor lets it be reconciled: there is none, or it answers and is ready, and, when a reset
   was uncertain or the operator confirmed something, a controlled reset was allowed and confirmed.
   */
  predicate GatewayLets(r: Request, h: Handle) {
    match GatewayOf(r, h)
    case NoGateway => true
    case OutOfReach => false
    case Reports(first, afterReset) =>
      if first.resetConfirmed == Some(false) || r.operator != {} then r.allowReset && afterReset.Some? && afterReset.value.ready
      else first.ready
  }

  /** The sensor is recovered: by the operator's word after a controlled reset, or by its plugin and a disconnection. */
  predicate Recovers(r: Request, h: Handle, o: RecoveryOutcome) {
    && Key(h) !in r.active && GatewayLets(r, h) && !o.tooLate && o.finishes
    && if Key(h) in r.operator then ControlledReset(r, h)
       else
         var owed := h.pending && !o.hostReportsStop;
         && o.prepares && o.polls
         && (owed ==> (h.linked || o.reconnects) && o.confirmed)
         && (h.linked || owed ==> o.disconnects)
  }

  /** The part of it that is the plugin's and the link's. */
  predicate Reconciles(h: Handle, o: RecoveryOutcome) {
    var owed := h.pending && !o.hostReportsStop;
    && o.prepares && o.polls && o.finishes
    && (owed ==> (h.linked || o.reconnects) && o.confirmed)
    && (h.linked || owed ==> o.disconnects)
  }

  lemma ReconcilesExactly(h: Handle, o: RecoveryOutcome)
    ensures ReconcileSensor(h, o).1 <==> Reconciles(h, o)
    ensures var c := ReconcileSensor(h, o).0;
            if Reconciles(h, o) then !c.pending && !c.connected && !c.linked && !c.quarantined else c.quarantined
  {
  }

  lemma GatewayLetsExactly(r: Request, h: Handle)
    ensures GatewayFails(r, GatewayOf(r, h)) <==> !GatewayLets(r, h)
  {
  }

  lemma ResetIsControlled(r: Request, h: Handle)
    requires Key(h) in r.operator && GatewayLets(r, h)
    ensures ResetConfirmed(r, h) <==> ControlledReset(r, h)
  {
  }

  lemma RecoversOneExactly(r: Request, h: Handle, o: RecoveryOutcome)
    ensures RecoverOne(r, h, o).1 <==> Recovers(r, h, o)
    ensures Recovers(r, h, o) ==> var c := RecoverOne(r, h, o).0; !c.pending && !c.connected && !c.linked && !c.quarantined
    ensures Key(h) in r.active || !GatewayLets(r, h) || o.tooLate ==> RecoverOne(r, h, o).0 == h
    ensures !(Key(h) in r.active || !GatewayLets(r, h) || o.tooLate) && !Recovers(r, h, o) ==> RecoverOne(r, h, o).0.quarantined
  {
    GatewayLetsExactly(r, h);
    if Key(h) in r.operator && GatewayLets(r, h) {
      ResetIsControlled(r, h);
    } else {
      ReconcilesExactly(h, o);
    }
  }

  /** What an attempt with the plugin leaves of the sensor, however far it gets. */
  lemma ReconciliationLeaves(h: Handle, o: RecoveryOutcome)
    ensures var c := ReconcileSensor(h, o).0;
            var owed := o.prepares && h.pending && !o.hostReportsStop;
            var up := owed && o.polls && (h.linked || o.reconnects);
            && c.adapter == h.adapter && c.address == h.address
            && (c.pending <==> h.pending && !(o.prepares && o.hostReportsStop) && !(up && o.confirmed))
            && (c.linked <==> (h.linked || up) && !Reconciles(h, o))
            && (c.connected <==> (h.connected || up) && !Reconciles(h, o))
            && (c.quarantined <==> !Reconciles(h, o))
  {
  }

  /** The operator's word changes nothing about a sensor but to isolate it, unless the sensor is recovered by it. */
  lemma OperatorLeaves(r: Request, h: Handle, o: RecoveryOutcome)
    requires Key(h) in r.operator && !Recovers(r, h, o)
    ensures var c := RecoverOne(r, h, o).0; c == h || c == h.(quarantined := true)
  {
    GatewayLetsExactly(r, h);
    if GatewayLets(r, h) {
      ResetIsControlled(r, h);
    }
  }

  lemma {:induction false} RecoversExactly(handles: map<Id, Handle>, targets: seq<Id>, r: Request, i: nat)
    requires Different(targets) && i < |targets| && targets[i] in handles
    ensures var e, id := RecoverEach(handles, targets, r), targets[i];
            && (e.good[i] <==> Recovers(r, handles[id], r.outcome(id)))
            && id in e.handles && e.handles[id] == RecoverOne(r, handles[id], r.outcome(id)).0
  {
    var n := |targets| - 1;
    RecoverTouches(handles, targets[..n], r);
    if i < n {
      RecoversExactly(handles, targets[..n], r, i);
    } else {
      assert targets[n] !in targets[..n];
      RecoversOneExactly(r, handles[targets[n]], r.outcome(targets[n]));
    }
  }

  // ---------------------------------------------------------------- which sensors a recovery takes on

  /** The last configured sensor with this address within the scope of the request. */
  ghost predicate LastConfigured(handles: map<Id, Handle>, ids: seq<Id>, a: Address, i: nat) {
    && i < |ids| && AtAddress(handles, ids[i], a)
    && forall j :: i < j < |ids| ==> !AtAddress(handles, ids[j], a)
  }

  predicate AtAddress(handles: map<Id, Handle>, id: Id, a: Address) {
    id in handles && handles[id].address.Some? && handles[id].address.value != "" && Key(handles[id]) == a
  }

  /**
   A recovery takes on every obligation within its scope, with the handle that the obligation names, and for every
   other address within its scope the last configured sensor that has it.
   */
  lemma TargetsExactly(s: State, r: Request, a: Address)
    ensures var targets := Targets(s, r);
            if r.requested.Some? && a !in r.requested.value then a !in targets
            else if a in s.obligations then a in targets && targets[a] == s.obligations[a]
            else
              && (a in targets <==> exists id :: id in s.sensors && AtAddress(s.handles, id, a))
              && forall i: nat :: LastConfigured(s.handles, s.sensors, a, i) ==> a in targets && targets[a] == Some(s.sensors[i])
  {
    ConfiguredExactly(s.handles, s.sensors, r, a);
    ConfiguredAreKnown(s.handles, s.sensors, r);
  }

  lemma {:induction false} ConfiguredExactly(handles: map<Id, Handle>, ids: seq<Id>, r: Request, a: Address)
    ensures var t := ConfiguredTargets(handles, ids, r);
            && (a in t <==> Requested(r.requested, Some(a)) && exists id :: id in ids && AtAddress(handles, id, a))
            && forall i: nat :: LastConfigured(handles, ids, a, i) && a in t ==> t[a] == Some(ids[i])
  {
    if ids != [] {
      var n := |ids| - 1;
      var front, t := ids[..n], ConfiguredTargets(handles, ids, r);
      ConfiguredExactly(handles, front, r, a);
      assert ids == front + [ids[n]];
      assert AtAddress(handles, ids[n], a) ==> ids[n] in ids;
      forall i: nat | LastConfigured(handles, ids, a, i) && a in t ensures t[a] == Some(ids[i]) {
        if i < n {
          assert front[i] == ids[i];
          assert !AtAddress(handles, ids[n], a);
          assert LastConfigured(handles, front, a, i);
        }
      }
      if exists id :: id in ids && AtAddress(handles, id, a) {
        var id :| id in ids && AtAddress(handles, id, a);
        assert id in front || id == ids[n];
      }
    }
  }

  // ---------------------------------------------------------------- what a whole recovery leaves

  /** While obligations are bound, every handle taken on is the target of its own address. */
  lemma TargetOfItsKey(s: State, r: Request, id: Id)
    requires Inv(s) && Bound(s) && Some(id) in Targets(s, r).Values && id in s.handles
    ensures Key(s.handles[id]) in Targets(s, r) && Targets(s, r)[Key(s.handles[id])] == Some(id)
  {
    ConfiguredAreKnown(s.handles, s.sensors, r);
    var a :| a in Targets(s, r) && Targets(s, r)[a] == Some(id);
  }

  ghost predicate KeysKnown(handles: map<Id, Handle>, targets: map<Address, Option<Id>>, order: seq<Id>) {
    forall i :: 0 <= i < |order| ==> order[i] in handles && Key(handles[order[i]]) in targets
  }

  /** Settling leaves an address alone that no result is about. */
  lemma {:induction false} SettlesOthers(handles: map<Id, Handle>, o: map<Address, Option<Id>>, targets: map<Address, Option<Id>>,
                                         order: seq<Id>, good: seq<bool>, a: Address)
    requires |good| == |order| && KeysKnown(handles, targets, order)
    requires forall i :: 0 <= i < |order| ==> Key(handles[order[i]]) != a
    ensures var p := SettleEach(handles, o, targets, order, good);
            !p.raised && (a in p.obligations <==> a in o) && (a in o ==> p.obligations[a] == o[a])
  {
    if order != [] {
      var n := |order| - 1;
      SettlesOthers(handles, o, targets, order[..n], good[..n], a);
    }
  }

  /** The one result about an address decides it. */
  lemma {:induction false} SettlesByResult(handles: map<Id, Handle>, o: map<Address, Option<Id>>, targets: map<Address, Option<Id>>,
                                           order: seq<Id>, good: seq<bool>, k: nat)
    requires |good| == |order| && KeysKnown(handles, targets, order) && k < |order|
    requires forall i :: 0 <= i < |order| && i != k ==> Key(handles[order[i]]) != Key(handles[order[k]])
    ensures var p, a := SettleEach(handles, o, targets, order, good), Key(handles[order[k]]);
            !p.raised && (a in p.obligations <==> !good[k])
  {
    var n := |order| - 1;
    if k < n {
      SettlesByResult(handles, o, targets, order[..n], good[..n], k);
    } else {
      SettlesOthers(handles, o, targets, order[..n], good[..n], Key(handles[order[k]]));
    }
  }

  lemma OrderIsKnown(s: State, r: Request)
    requires Inv(s) && Bound(s) && InOrder(s, r)
    ensures KeysKnown(RecoverEach(s.handles, r.order, r).handles, Targets(s, r), r.order)
    ensures KeysKnown(s.handles, Targets(s, r), r.order)
    ensures forall i :: 0 <= i < |r.order| ==> Targets(s, r)[Key(s.handles[r.order[i]])] == Some(r.order[i])
  {
    RecoverTouches(s.handles, r.order, r);
    SameKeys(s.handles, RecoverEach(s.handles, r.order, r).handles, r.order);
    ConfiguredAreKnown(s.handles, s.sensors, r);
    forall i | 0 <= i < |r.order|
      ensures r.order[i] in s.handles && Key(s.handles[r.order[i]]) in Targets(s, r)
              && Targets(s, r)[Key(s.handles[r.order[i]])] == Some(r.order[i])
    {
      assert r.order[i] in r.order;
      TargetOfItsKey(s, r, r.order[i]);
    }
  }

  lemma SettledTarget(s: State, r: Request, a: Address, id: Id)
    requires Inv(s) && Bound(s) && InOrder(s, r) && Different(r.order)
    requires a in Targets(s, r) && Targets(s, r)[a] == Some(id) && id in s.handles && Key(s.handles[id]) == a
    ensures var e := RecoverEach(s.handles, r.order, r);
            var p := SettleEach(e.handles, s.obligations, Targets(s, r), r.order, e.good);
            !p.raised && (a in p.obligations <==> !Recovers(r, s.handles[id], r.outcome(id)))
  {
    OrderIsKnown(s, r);
    var e := RecoverEach(s.handles, r.order, r);
    RecoverTouches(s.handles, r.order, r);
    SameKeys(s.handles, e.handles, r.order);
    assert id in r.order;
    var k :| 0 <= k < |r.order| && r.order[k] == id;
    forall i | 0 <= i < |r.order| && i != k ensures Key(e.handles[r.order[i]]) != Key(e.handles[r.order[k]]) {
      assert r.order[i] != r.order[k];
    }
    SettlesByResult(e.handles, s.obligations, Targets(s, r), r.order, e.good, k);
    RecoversExactly(s.handles, r.order, r, k);
  }

  lemma BoundTargetHasKey(s: State, r: Request, a: Address, id: Id)
    requires Inv(s) && Bound(s) && a in Targets(s, r) && Targets(s, r)[a] == Some(id)
    ensures id in s.handles && Key(s.handles[id]) == a
  {
    ConfiguredAreKnown(s.handles, s.sensors, r);
  }

  /**
   While obligations are bound to their addresses: after a recovery, the address of each sensor taken on is an
   obligation exactly when the sensor was not recovered.
   */
  lemma RecoveryExactly(s: State, r: Request, a: Address, id: Id)
    requires Inv(s) && Bound(s) && InOrder(s, r) && Different(r.order)
    requires a in Targets(s, r) && Targets(s, r)[a] == Some(id)
    ensures id in s.handles && (a in Recover(s, r).obligations <==> !Recovers(r, s.handles[id], r.outcome(id)))
    ensures a in Recover(s, r).obligations ==> Recover(s, r).obligations[a] == Some(id)
  {
    BoundTargetHasKey(s, r, a, id);
    SettledTarget(s, r, a, id);
    var e := RecoverEach(s.handles, r.order, r);
    var p := SettleEach(e.handles, s.obligations, Targets(s, r), r.order, e.good);
    SettledValues(e.handles, s.obligations, Targets(s, r), r.order, e.good, a);
    TargetsKeepObligationsOr(s, r, a);
  }

  lemma TargetsKeepObligationsOr(s: State, r: Request, a: Address)
    requires a in Targets(s, r)
    ensures a in s.obligations ==> Targets(s, r)[a] == s.obligations[a]
  {
    if a in s.obligations {
      TargetsKeepObligations(s, r, a);
    }
  }

  /** The last inventory of the gateway: that after the controlled reset, when one was needed, allowed and made. */
  predicate LinkedAtLast(r: Request, g: Gateway, a: Address) {
    && g.Reports?
    && if (g.first.resetConfirmed == Some(false) || r.operator != {}) && r.allowReset && g.afterReset.Some?
       then a in g.afterReset.value.linked else a in g.first.linked
  }

  predicate ResetAtLast(r: Request, g: Gateway) {
    && g.Reports?
    && if (g.first.resetConfirmed == Some(false) || r.operator != {}) && r.allowReset && g.afterReset.Some?
       then g.afterReset.value.resetConfirmed == Some(true) else g.first.resetConfirmed == Some(true)
  }

  /** A link that some gateway reports in the end, that no target accounts for, and that no acquisition uses. */
  ghost predicate UnknownLink(s: State, r: Request, a: Address) {
    a !in Targets(s, r) && a !in r.active && exists g :: g in r.gateways && LinkedAtLast(r, r.gateways[g], a)
  }

  /** The operator's word with a reset that left no link at one gateway, for an address within the scope. */
  ghost predicate OrphanReleased(r: Request, a: Address) {
    && (r.requested.Some? ==> a in r.requested.value) && a in r.operator && r.allowReset
    && exists g :: g in r.gateways && ResetAtLast(r, r.gateways[g]) && forall b :: !LinkedAtLast(r, r.gateways[g], b)
  }

  lemma LastInventory(r: Request, g: Gateway)
    ensures FinalInventory(r, g).Some? <==> g.Reports?
    ensures forall a :: LinkedAtLast(r, g, a) <==> g.Reports? && a in FinalInventory(r, g).value.linked
    ensures ResetAtLast(r, g) && (forall b :: !LinkedAtLast(r, g, b)) <==> g.Reports? && EmptyAndConfirmed(FinalInventory(r, g))
  {
    if g.Reports? && EmptyAndConfirmed(FinalInventory(r, g)) {
      assert FinalInventory(r, g).value.linked == {};
    }
    if ResetAtLast(r, g) && forall b :: !LinkedAtLast(r, g, b) {
      forall b ensures b !in FinalInventory(r, g).value.linked {
        assert !LinkedAtLast(r, g, b);
      }
      assert FinalInventory(r, g).value.linked == {};
    }
  }

  lemma OrphansAre(s: State, r: Request, a: Address)
    ensures a in UnknownLinks(r, Targets(s, r)) <==> UnknownLink(s, r, a)
    ensures Requested(r.requested, Some(a)) && a in r.operator && VerifiedReset(r) <==> OrphanReleased(r, a)
  {
    forall g | g in r.gateways
      ensures FinalInventory(r, r.gateways[g]).Some? <==> r.gateways[g].Reports?
      ensures LinkedAtLast(r, r.gateways[g], a) <==> r.gateways[g].Reports? && a in FinalInventory(r, r.gateways[g]).value.linked
      ensures ResetAtLast(r, r.gateways[g]) && (forall b :: !LinkedAtLast(r, r.gateways[g], b)) <==>
              r.gateways[g].Reports? && EmptyAndConfirmed(FinalInventory(r, r.gateways[g]))
    {
      LastInventory(r, r.gateways[g]);
    }
  }

  /**
   Every other address is an obligation afterwards exactly when it was one or is an unknown link, unless it
   has no handle and the operator's word released it.
   */
  lemma OrphansExactly(s: State, r: Request, a: Address)
    requires Inv(s) && Bound(s) && InOrder(s, r) && Different(r.order)
    requires a in Targets(s, r) ==> Targets(s, r)[a].None?
    ensures a in Recover(s, r).obligations <==>
              && (a in s.obligations || UnknownLink(s, r, a))
              && !((a in s.obligations ==> s.obligations[a].None?) && OrphanReleased(r, a))
    ensures a in Recover(s, r).obligations ==>
              Recover(s, r).obligations[a] == if a in s.obligations then s.obligations[a] else None
  {
    OrderIsKnown(s, r);
    var e := RecoverEach(s.handles, r.order, r);
    RecoverTouches(s.handles, r.order, r);
    SameKeys(s.handles, e.handles, r.order);
    forall i | 0 <= i < |r.order| ensures Key(e.handles[r.order[i]]) != a {
      assert Targets(s, r)[Key(s.handles[r.order[i]])] == Some(r.order[i]);
    }
    SettlesOthers(e.handles, s.obligations, Targets(s, r), r.order, e.good, a);
    OrphansAre(s, r, a);
  }

  // ---------------------------------------------------------------- connecting and starting

  /** A connect command does nothing at all when some target's address is an obligation. */
  lemma ObligedConnectsNothing(s: State, targets: seq<Id>, outcome: Id -> ConnectOutcome, i: nat)
    requires i < |targets| && targets[i] in s.handles && Key(s.handles[targets[i]]) in s.obligations
    ensures Connect(s, targets, outcome) == s
  {
  }

  /** Otherwise each target up to the first that raises is connected exactly when its adapter says so. */
  lemma ConnectsExactly(s: State, targets: seq<Id>, outcome: Id -> ConnectOutcome, i: nat)
    requires Different(targets) && i < |targets| && (forall j :: 0 <= j < |targets| ==> targets[j] in s.handles)
    requires forall j :: 0 <= j < |targets| ==> Key(s.handles[targets[j]]) !in s.obligations
    requires forall j :: 0 <= j < i ==> outcome(targets[j]).Refuses? || outcome(targets[j]).Connects?
    ensures var t, id := Connect(s, targets, outcome), targets[i];
            && id in t.handles
            && t.handles[id] == if outcome(id).Connects? || outcome(id).ConnectsThenRaises?
                                then s.handles[id].(connected := true, linked := true) else s.handles[id]
  {
    ConnectsEach(s.handles, targets, outcome, i);
  }

  /** Once one raises, the targets after it are left alone. */
  lemma RaisedConnectsNoMore(s: State, targets: seq<Id>, outcome: Id -> ConnectOutcome, i: nat, j: nat)
    requires Different(targets) && j < i < |targets| && targets[i] in s.handles && targets[j] in s.handles
    requires outcome(targets[j]).Raises? || outcome(targets[j]).ConnectsThenRaises?
    ensures var t := Connect(s, targets, outcome); targets[i] in t.handles && t.handles[targets[i]] == s.handles[targets[i]]
  {
    RaisedOnce(s.handles, targets, outcome, i, j);
  }

  lemma {:induction false} RaisedOnce(handles: map<Id, Handle>, targets: seq<Id>, outcome: Id -> ConnectOutcome, i: nat, j: nat)
    requires Different(targets) && j < i < |targets| && targets[i] in handles && targets[j] in handles
    requires outcome(targets[j]).Raises? || outcome(targets[j]).ConnectsThenRaises?
    ensures var p := ConnectEach(handles, targets, outcome);
            p.raised && targets[i] in p.handles && p.handles[targets[i]] == handles[targets[i]]
  {
    var n := |targets| - 1;
    if i < n {
      RaisedOnce(handles, targets[..n], outcome, i, j);
    } else {
      RaisedEarly(handles, targets[..n], outcome, j);
      NoMoreOnceRaised(handles, targets, outcome, n);
    }
  }

  lemma NoMoreOnceRaised(handles: map<Id, Handle>, targets: seq<Id>, outcome: Id -> ConnectOutcome, n: nat)
    requires |targets| == n + 1 && targets[n] in handles && targets[n] !in targets[..n]
    requires ConnectEach(handles, targets[..n], outcome).raised
    ensures var p := ConnectEach(handles, targets, outcome);
            p.raised && targets[n] in p.handles && p.handles[targets[n]] == handles[targets[n]]
  {
    ConnectTouches(handles, targets[..n], outcome);
  }

  lemma {:induction false} RaisedEarly(handles: map<Id, Handle>, targets: seq<Id>, outcome: Id -> ConnectOutcome, j: nat)
    requires j < |targets| && targets[j] in handles
    requires outcome(targets[j]).Raises? || outcome(targets[j]).ConnectsThenRaises?
    ensures ConnectEach(handles, targets, outcome).raised
  {
    var n := |targets| - 1;
    ConnectTouches(handles, targets[..n], outcome);
    if j < n {
      RaisedEarly(handles, targets[..n], outcome, j);
    }
  }

  lemma {:induction false} NoRaiseYet(handles: map<Id, Handle>, targets: seq<Id>, outcome: Id -> ConnectOutcome)
    requires forall j :: 0 <= j < |targets| ==> outcome(targets[j]).Refuses? || outcome(targets[j]).Connects?
    ensures !ConnectEach(handles, targets, outcome).raised
  {
    if targets != [] {
      NoRaiseYet(handles, targets[..|targets| - 1], outcome);
    }
  }

  /** The handle is as the adapter's answer leaves it. */
  predicate ConnectLeaves(h: Handle, o: ConnectOutcome, c: Handle) {
    c == if o.Connects? || o.ConnectsThenRaises? then h.(connected := true, linked := true) else h
  }

  lemma LastConnects(handles: map<Id, Handle>, targets: seq<Id>, outcome: Id -> ConnectOutcome, n: nat)
    requires |targets| == n + 1 && targets[n] in handles && targets[n] !in targets[..n]
    requires !ConnectEach(handles, targets[..n], outcome).raised
    ensures var p, id := ConnectEach(handles, targets, outcome), targets[n];
            id in p.handles && ConnectLeaves(handles[id], outcome(id), p.handles[id])
  {
    ConnectTouches(handles, targets[..n], outcome);
  }

  lemma LastConnectsNoOther(handles: map<Id, Handle>, targets: seq<Id>, outcome: Id -> ConnectOutcome, n: nat, id: Id)
    requires |targets| == n + 1 && targets[n] != id
    ensures var p, q := ConnectEach(handles, targets, outcome), ConnectEach(handles, targets[..n], outcome);
            id in q.handles ==> id in p.handles && p.handles[id] == q.handles[id]
  {
  }

  lemma {:induction false} ConnectsEach(handles: map<Id, Handle>, targets: seq<Id>, outcome: Id -> ConnectOutcome, i: nat)
    requires Different(targets) && i < |targets| && targets[i] in handles
    requires forall j :: 0 <= j < i ==> outcome(targets[j]).Refuses? || outcome(targets[j]).Connects?
    ensures var p, id := ConnectEach(handles, targets, outcome), targets[i];
            id in p.handles && ConnectLeaves(handles[id], outcome(id), p.handles[id])
  {
    var n := |targets| - 1;
    if i < n {
      ConnectsEach(handles, targets[..n], outcome, i);
      LastConnectsNoOther(handles, targets, outcome, n, targets[i]);
    } else {
      NoRaiseYet(handles, targets[..n], outcome);
      LastConnects(handles, targets, outcome, n);
    }
  }

  /** May be started: configured, connected, not isolated, without obligation, and asked for. */
  predicate MayBeStarted(s: State, requested: Option<set<Address>>, id: Id) {
    && id in s.sensors && id in s.handles && s.handles[id].connected && !s.handles[id].quarantined
    && Key(s.handles[id]) !in s.obligations
    && (requested.Some? ==> s.handles[id].address.Some? && s.handles[id].address.value in requested.value)
  }

  /** No start of a sensor configured before place `i` raises. */
  ghost predicate ReachesPlace(s: State, requested: Option<set<Address>>, raises: Id -> bool, i: nat) {
    forall j :: 0 <= j < i && j < |s.sensors| && MayBeStarted(s, requested, s.sensors[j]) ==> !raises(s.sensors[j])
  }

  /**
   Exactly the sensors that may be started and come before the first start that raises, or are that one, owe a
   STOP afterwards, besides those that did.
   */
  lemma StartsExactly(s: State, requested: Option<set<Address>>, raises: Id -> bool, i: nat)
    requires Different(s.sensors) && i < |s.sensors| && s.sensors[i] in s.handles
    ensures var t, id := Start(s, requested, raises), s.sensors[i];
            && id in t.handles
            && t.handles[id] == if MayBeStarted(s, requested, id) && ReachesPlace(s, requested, raises, i)
                                then s.handles[id].(pending := true, standing := Owed) else s.handles[id]
  {
    var id, wanted := s.sensors[i], MayStart(s, requested);
    StartsAlong(s.handles, s.sensors, wanted, raises, id);
    forall k | k in s.sensors ensures MayBeStarted(s, requested, k) <==> Picked(s.handles, wanted, k) {
    }
    assert ReachesPlace(s, requested, raises, i) <==> !StopsBefore(s.handles, s.sensors, wanted, raises, i) by {
      ReachedPlaces(s, requested, raises, i);
    }
    assert Reached(s.handles, s.sensors, wanted, raises, id) <==>
           Picked(s.handles, wanted, id) && !StopsBefore(s.handles, s.sensors, wanted, raises, i);
  }

  /** A command never touches a sensor that is not configured. */
  lemma StartsNoOther(s: State, requested: Option<set<Address>>, raises: Id -> bool, id: Id)
    requires id in s.handles && id !in s.sensors
    ensures id in Start(s, requested, raises).handles && Start(s, requested, raises).handles[id] == s.handles[id]
  {
    StartsAlong(s.handles, s.sensors, MayStart(s, requested), raises, id);
  }

  lemma ReachedPlaces(s: State, requested: Option<set<Address>>, raises: Id -> bool, i: nat)
    requires i <= |s.sensors|
    ensures ReachesPlace(s, requested, raises, i) <==> !StopsBefore(s.handles, s.sensors, MayStart(s, requested), raises, i)
  {
    forall j | 0 <= j < i ensures MayBeStarted(s, requested, s.sensors[j]) <==> Picked(s.handles, MayStart(s, requested), s.sensors[j]) {
      assert s.sensors[j] in s.sensors;
    }
  }

  predicate Picked(handles: map<Id, Handle>, wanted: Handle -> bool, id: Id) {
    id in handles && wanted(handles[id])
  }

  ghost predicate StopsBefore(handles: map<Id, Handle>, ids: seq<Id>, wanted: Handle -> bool, raises: Id -> bool, n: nat) {
    exists j :: 0 <= j < n && j < |ids| && Picked(handles, wanted, ids[j]) && raises(ids[j])
  }

  ghost predicate Reached(handles: map<Id, Handle>, ids: seq<Id>, wanted: Handle -> bool, raises: Id -> bool, id: Id) {
    exists i :: 0 <= i < |ids| && ids[i] == id && Picked(handles, wanted, id) && !StopsBefore(handles, ids, wanted, raises, i)
  }

  lemma {:induction false} StartsAlong(handles: map<Id, Handle>, ids: seq<Id>, wanted: Handle -> bool, raises: Id -> bool, id: Id)
    requires id in handles && forall h :: wanted(h) ==> !h.quarantined
    ensures var p := StartEach(handles, Select(handles, ids, wanted), raises);
            && (p.raised <==> StopsBefore(handles, ids, wanted, raises, |ids|)) && id in p.handles
            && p.handles[id] == if Reached(handles, ids, wanted, raises, id)
                                then handles[id].(pending := true, standing := Owed) else handles[id]
  {
    if ids != [] {
      var n := |ids| - 1;
      StartsAlong(handles, ids[..n], wanted, raises, id);
      StopsAlong(handles, ids, wanted, raises, n);
      ReachedAlong(handles, ids, wanted, raises, n, id);
      if Picked(handles, wanted, ids[n]) {
        StartsAlong(handles, ids[..n], wanted, raises, ids[n]);
        OneMoreStart(handles, Select(handles, ids[..n], wanted), ids[n], raises);
      } else {
        assert Select(handles, ids, wanted) == Select(handles, ids[..n], wanted);
      }
    }
  }

  lemma OneMoreStart(handles: map<Id, Handle>, targets: seq<Id>, id: Id, raises: Id -> bool)
    ensures var p, q := StartEach(handles, targets + [id], raises), StartEach(handles, targets, raises);
            p == if q.raised || id !in q.handles then q
                 else if q.handles[id].quarantined then Progress(q.handles, true)
                 else Progress(q.handles[id := q.handles[id].(pending := true, standing := Owed)], raises(id))
  {
    assert (targets + [id])[..|targets|] == targets;
  }

  lemma StopsAlong(handles: map<Id, Handle>, ids: seq<Id>, wanted: Handle -> bool, raises: Id -> bool, n: nat)
    requires |ids| == n + 1
    ensures forall i :: 0 <= i <= n ==> StopsBefore(handles, ids[..n], wanted, raises, i) == StopsBefore(handles, ids, wanted, raises, i)
    ensures StopsBefore(handles, ids, wanted, raises, n + 1) <==>
            StopsBefore(handles, ids[..n], wanted, raises, n) || (Picked(handles, wanted, ids[n]) && raises(ids[n]))
  {
    forall i | 0 <= i <= n ensures StopsBefore(handles, ids[..n], wanted, raises, i) == StopsBefore(handles, ids, wanted, raises, i) {
      if StopsBefore(handles, ids, wanted, raises, i) {
        var j :| 0 <= j < i && j < |ids| && Picked(handles, wanted, ids[j]) && raises(ids[j]);
        assert ids[..n][j] == ids[j];
      }
    }
  }

  lemma ReachedAlong(handles: map<Id, Handle>, ids: seq<Id>, wanted: Handle -> bool, raises: Id -> bool, n: nat, id: Id)
    requires |ids| == n + 1
    ensures Reached(handles, ids, wanted, raises, id) <==>
            || Reached(handles, ids[..n], wanted, raises, id)
            || (ids[n] == id && Picked(handles, wanted, id) && !StopsBefore(handles, ids[..n], wanted, raises, n))
  {
    StopsAlong(handles, ids, wanted, raises, n);
    if Reached(handles, ids[..n], wanted, raises, id) {
      var i :| 0 <= i < n && ids[..n][i] == id && !StopsBefore(handles, ids[..n], wanted, raises, i);
      assert ids[i] == id;
    }
    if Reached(handles, ids, wanted, raises, id) {
      var i :| 0 <= i < |ids| && ids[i] == id && !StopsBefore(handles, ids, wanted, raises, i);
      assert i < n ==> ids[..n][i] == id;
    }
  }

  /** A lost link, an isolation and a discovery change their own sensor only. */
  lemma ReportsExactly(s: State, id: Id, address: Address, k: Id)
    requires id in s.handles && k in s.handles
    ensures var t := Next(s, LinkLost(id));
            k in t.handles && t.handles[k] == if k == id then s.handles[k].(connected := false, linked := false) else s.handles[k]
    ensures var t := Next(s, Quarantine(id));
            k in t.handles && t.handles[k] == if k == id then s.handles[k].(quarantined := true) else s.handles[k]
    ensures var t := Next(s, Discovered(id, address));
            && k in t.handles
            && t.handles[k] == if k == id && id in s.sensors && !s.handles[id].connected
                               then s.handles[k].(address := Some(address), linked := false) else s.handles[k]
  {
  }

  // ---------------------------------------------------------------- configurations

  /** A configured sensor that still owes a STOP or is isolated, under its address. */
  ghost predicate Unresolved(handles: map<Id, Handle>, id: Id, a: Address) {
    && id in handles && handles[id].address.Some? && handles[id].address.value != ""
    && (handles[id].pending || handles[id].quarantined) && Key(handles[id]) == a
  }

  lemma {:induction false} RetainsExactly(handles: map<Id, Handle>, ids: seq<Id>, o: map<Address, Option<Id>>, a: Address)
    ensures a in Retain(handles, ids, o) <==> a in o || exists k :: k in ids && Unresolved(handles, k, a)
  {
    if ids != [] {
      var front, last := ids[..|ids| - 1], ids[|ids| - 1];
      RetainsExactly(handles, front, o, a);
      assert ids == front + [last];
      assert Unresolved(handles, last, a) ==> last in ids;
      if k :| k in ids && Unresolved(handles, k, a) {
        assert k in front || k == last;
      }
    }
  }

  /**
   Replacing the configuration adds exactly the addresses of its unresolved sensors to the obligations, disconnects
   exactly the retired sensors that are no obligation, and installs new handles, if it succeeds.
   */
  lemma ReconfiguresExactly(s: State, added: map<Id, AdapterId>, order: seq<Id>, dropped: set<Id>, succeeds: bool, a: Address, id: Id)
    requires added.Keys !! s.handles.Keys
    ensures var t := Reconfigure(s, added, order, dropped, succeeds);
            && (a in t.obligations <==> a in s.obligations || exists k :: k in s.sensors && Unresolved(s.handles, k, a))
            && t.sensors == (if succeeds then order else s.sensors)
            && (id in s.handles ==>
                  && id in t.handles
                  && t.handles[id] == if id in s.sensors && id in dropped && Key(s.handles[id]) !in t.obligations
                                      then s.handles[id].(connected := false, linked := false) else s.handles[id])
            && (id in added && succeeds ==>
                  && id in t.handles
                  && t.handles[id] == Handle(added[id], None, false, false, false, false, NeverStarted))
  {
    RetainsExactly(s.handles, s.sensors, s.obligations, a);
  }

  /** Obligation keys ignore the case of letters and nothing else. */
  lemma KeyOfLetters(a: Address, i: nat, k: nat)
    requires i < |a| && k < 26
    ensures |Upper(a)| == |a|
    ensures a[i] == 'a' + k as char ==> Upper(a)[i] == 'A' + k as char
    ensures a[i] < 'a' || 'z' < a[i] ==> Upper(a)[i] == a[i]
  {
  }

  /** In every run, the configuration names each handle once. */
  lemma {:induction false} ConfiguredOnce(steps: seq<Step>)
    ensures Different(RunFrom(Initial(), steps).sensors)
  {
    if steps != [] {
      var front := steps[..|steps| - 1];
      ConfiguredOnce(front);
      RunKeeps(Initial(), front);
      StepKeepsOnce(RunFrom(Initial(), front), steps[|steps| - 1]);
    }
  }

  lemma StepKeepsOnce(s: State, step: Step)
    requires Inv(s) && Different(s.sensors)
    ensures Different(Next(s, step).sensors)
  {
    if Allowed(s, step) {
      match step
      case DoStop(requested, drained, stopping) => OnlyObliges(s, StopTargets(s, requested), StopVerdicts(s, StopTargets(s, requested), drained, stopping));
      case DoCleanup(requested, cleaning) => OnlyObliges(s, CleanupTargets(s, requested), CleanEach(s.handles, CleanupTargets(s, requested), cleaning));
      case _ =>
    }
  }

  lemma OnlyObliges(s: State, targets: seq<Id>, r: Outcome)
    requires |r.good| == |targets|
    ensures ObligeEach(s.(handles := r.handles), targets, r.good).sensors == s.sensors
  {
    ObligeKeepsSensors(s.(handles := r.handles), targets, r.good);
  }

  lemma {:induction false} ObligeKeepsSensors(s: State, targets: seq<Id>, good: seq<bool>)
    requires |good| == |targets|
    ensures ObligeEach(s, targets, good).sensors == s.sensors
  {
    if targets != [] {
      var n := |targets| - 1;
      ObligeKeepsSensors(s, targets[..n], good[..n]);
    }
  }
}
