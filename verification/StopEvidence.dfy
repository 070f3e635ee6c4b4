/**
 What an obligation's end rests on: which confirmations clear a handle, which handle clears an address,
 and that every start of a sensor is answered before its STOP stops being owed.
 */
module StopEvidence {
  import opened Wrappers
  import opened StopObligations
  import opened StopSafety

  // ---------------------------------------------------------------- what a recovery does to one handle

  /** No STOP is pending and the link is down. */
  predicate Quiet(h: Handle) {
    !h.pending && !h.connected && !h.linked
  }

  /** A controlled reset was allowed and confirmed, and left the handle's address without a link. */
  predicate ControlledReset(r: Request, h: Handle) {
    var g := GatewayOf(r, h);
    r.allowReset && g.Reports? && g.afterReset.Some? && Key(h) !in g.afterReset.value.linked
  }

  /**
   A STOP that was owed before and is not owed after was confirmed: by the operator with a controlled
   reset, or else by the plugin's own answer to the STOP or the report of its host.
   */
  predicate StopConfirmed(r: Request, id: Id, before: Handle, after: Handle) {
    before.pending && !after.pending ==>
      if Key(before) in r.operator then after.standing == OperatorConfirmed && ControlledReset(r, before)
      else
        || (after.standing == PluginConfirmed && r.outcome(id).confirmed)
        || (after.standing == HostReported && r.outcome(id).hostReportsStop)
  }

  /** A link that was up before and is down after was given up by a confirmed disconnection or the controlled reset. */
  predicate LinkConfirmed(r: Request, id: Id, before: Handle, after: Handle) {
    before.linked && !after.linked ==>
      if Key(before) in r.operator then ControlledReset(r, before) else r.outcome(id).disconnects
  }

  /** How a recovery may change a handle, whatever its verdict. */
  predicate Tracks(r: Request, id: Id, before: Handle, after: Handle) {
    && after.address == before.address && after.adapter == before.adapter
    && (after.pending ==> before.pending)
    && (Quiet(before) ==> Quiet(after))
    && StopConfirmed(r, id, before, after) && LinkConfirmed(r, id, before, after)
    && (Key(before) in r.operator ==>
          after.standing == before.standing || (after.standing == OperatorConfirmed && ControlledReset(r, before)))
    && (Key(before) !in r.operator && (!before.pending || after.pending) ==> after.standing == before.standing)
  }

  /** The handle ends without a pending STOP and without a link, and both by confirmation. */
  predicate Released(r: Request, id: Id, before: Handle, after: Handle) {
    Quiet(after) && Key(after) == Key(before) && StopConfirmed(r, id, before, after) && LinkConfirmed(r, id, before, after)
  }

  /** A good verdict says more: the sensor was not acquiring, and the operator's word came with a controlled reset. */
  predicate Verified(r: Request, id: Id, before: Handle, after: Handle) {
    && Released(r, id, before, after)
    && Key(before) !in r.active
    && (Key(before) in r.operator ==> after.standing == OperatorConfirmed && ControlledReset(r, before))
  }

  lemma SameAddressSameKey(r: Request, a: Handle, b: Handle)
    requires a.address == b.address && a.adapter == b.adapter
    ensures Key(a) == Key(b) && GatewayOf(r, a) == GatewayOf(r, b) && (ControlledReset(r, a) <==> ControlledReset(r, b))
  {
  }

  lemma TracksItself(r: Request, id: Id, h: Handle)
    ensures Tracks(r, id, h, h)
  {
  }

  lemma TracksOn(r: Request, id: Id, a: Handle, b: Handle, c: Handle)
    requires Tracks(r, id, a, b) && Tracks(r, id, b, c)
    ensures Tracks(r, id, a, c)
  {
    SameAddressSameKey(r, a, b);
  }

  lemma ReconcileTracks(r: Request, id: Id, h: Handle)
    requires Key(h) !in r.operator
    ensures var (c, ok) := ReconcileSensor(h, r.outcome(id)); Tracks(r, id, h, c) && (ok ==> Quiet(c))
  {
  }

  lemma RecoverOneTracks(r: Request, id: Id, h: Handle)
    ensures var (c, ok) := RecoverOne(r, h, r.outcome(id)); Tracks(r, id, h, c) && (ok ==> Verified(r, id, h, c))
  {
    RecoverOneKeepsAddress(r, h, r.outcome(id));
    var c := RecoverOne(r, h, r.outcome(id)).0;
    SameAddressSameKey(r, h, c);
    if Key(h) !in r.operator {
      ReconcileTracks(r, id, h);
    }
  }

  // ---------------------------------------------------------------- over all targets of a recovery

  lemma {:induction false} RecoverTracks(handles: map<Id, Handle>, targets: seq<Id>, r: Request, id: Id)
    requires id in handles
    ensures var e := RecoverEach(handles, targets, r); id in e.handles && Tracks(r, id, handles[id], e.handles[id])
  {
    if targets == [] {
      TracksItself(r, id, handles[id]);
    } else {
      var n := |targets| - 1;
      RecoverTracks(handles, targets[..n], r, id);
      if targets[n] == id {
        var p := RecoverEach(handles, targets[..n], r);
        RecoverOneTracks(r, id, p.handles[id]);
        TracksOn(r, id, handles[id], p.handles[id], RecoverOne(r, p.handles[id], r.outcome(id)).0);
      }
    }
  }

  /** What was verified of a handle on the way stays verified of the whole way. */
  lemma VerifiedOn(r: Request, id: Id, a: Handle, b: Handle, c: Handle, d: Handle)
    requires Tracks(r, id, a, b) && Verified(r, id, b, c) && Tracks(r, id, b, c) && Tracks(r, id, c, d)
    ensures Verified(r, id, a, d)
  {
    SameAddressSameKey(r, a, b);
    SameAddressSameKey(r, b, c);
    SameAddressSameKey(r, c, d);
    TracksOn(r, id, a, b, c);
    TracksOn(r, id, a, c, d);
  }

  /** A good verdict in a recovery is about a handle that is released by confirmation. */
  lemma {:induction false} GoodMeansReleased(handles: map<Id, Handle>, targets: seq<Id>, r: Request, i: nat)
    requires i < |targets|
    ensures var e := RecoverEach(handles, targets, r);
            var id := targets[i];
            e.good[i] ==> id in handles && id in e.handles && Verified(r, id, handles[id], e.handles[id])
  {
    var n, id := |targets| - 1, targets[i];
    RecoverTouches(handles, targets[..n], r);
    if i == n {
      LastGoodIsReleased(handles, targets, r);
    } else {
      GoodMeansReleased(handles, targets[..n], r, i);
      if id in handles && targets[n] == id {
        var p := RecoverEach(handles, targets[..n], r);
        RecoverTracks(handles, targets[..n], r, id);
        RecoverOneTracks(r, id, p.handles[id]);
        if p.good[i] {
          VerifiedStays(r, id, handles[id], p.handles[id], RecoverOne(r, p.handles[id], r.outcome(id)).0);
        }
      }
    }
  }

  lemma LastGoodIsReleased(handles: map<Id, Handle>, targets: seq<Id>, r: Request)
    requires targets != []
    ensures var e, n := RecoverEach(handles, targets, r), |targets| - 1;
            var id := targets[n];
            e.good[n] ==> id in handles && id in e.handles && Verified(r, id, handles[id], e.handles[id])
  {
    var n, id := |targets| - 1, targets[|targets| - 1];
    var p := RecoverEach(handles, targets[..n], r);
    RecoverTouches(handles, targets[..n], r);
    if id in handles {
      RecoverTracks(handles, targets[..n], r, id);
      RecoverOneTracks(r, id, p.handles[id]);
      var (c, ok) := RecoverOne(r, p.handles[id], r.outcome(id));
      TracksItself(r, id, c);
      if ok {
        VerifiedOn(r, id, handles[id], p.handles[id], c, c);
      }
    }
  }

  lemma VerifiedStays(r: Request, id: Id, a: Handle, b: Handle, c: Handle)
    requires Tracks(r, id, a, b) && Verified(r, id, a, b) && Tracks(r, id, b, c)
    ensures Verified(r, id, a, c)
  {
    TracksItself(r, id, a);
    VerifiedOn(r, id, a, a, b, c);
  }

  // ---------------------------------------------------------------- what clears an obligation

  /** Settling drops a key only for a good verdict about a handle with that key. */
  lemma {:induction false} DroppedForGoodVerdict(handles: map<Id, Handle>, o: map<Address, Option<Id>>, targets: map<Address, Option<Id>>,
                                                 order: seq<Id>, good: seq<bool>, a: Address) returns (i: nat)
    requires |good| == |order| && a in o && a !in SettleEach(handles, o, targets, order, good).obligations
    ensures i < |order| && good[i] && order[i] in handles && Key(handles[order[i]]) == a
  {
    var n := |order| - 1;
    var p := SettleEach(handles, o, targets, order[..n], good[..n]);
    if a in p.obligations {
      i := n;
    } else {
      i := DroppedForGoodVerdict(handles, o, targets, order[..n], good[..n], a);
    }
  }

  /** Why an address is no obligation any more. */
  ghost predicate Justified(s: State, r: Request, t: State, a: Address)
    requires a in s.obligations
  {
    || (exists id :: id in r.order && id in s.handles && id in t.handles && Key(s.handles[id]) == a
                     && Verified(r, id, s.handles[id], t.handles[id]))
    || (s.obligations[a].None? && a in r.operator && VerifiedReset(r))
  }

  lemma TargetsKeepObligations(s: State, r: Request, a: Address)
    requires a in s.obligations
    ensures a in Targets(s, r) ==> Targets(s, r)[a] == s.obligations[a]
  {
    ConfiguredAreKnown(s.handles, s.sensors, r);
  }

  lemma {:induction false} SettledValues(handles: map<Id, Handle>, o: map<Address, Option<Id>>, targets: map<Address, Option<Id>>,
                                         order: seq<Id>, good: seq<bool>, a: Address)
    requires |good| == |order|
    ensures var p := SettleEach(handles, o, targets, order, good).obligations;
            a in p ==> (a in o && p[a] == o[a]) || (a in targets && p[a] == targets[a])
  {
    if order != [] {
      var n := |order| - 1;
      SettledValues(handles, o, targets, order[..n], good[..n], a);
    }
  }

  /**
   An obligation is cleared only when a handle at that address was released, its owed STOP confirmed by the
   plugin or its host and its link by a disconnection, or both by the operator's word and a controlled
   reset; or, when the obligation names no handle, by the operator's word and a reset that left no link.
   */
  lemma ClearedOnlyWithEvidence(s: State, r: Request, a: Address)
    requires a in s.obligations && a !in Recover(s, r).obligations
    ensures Justified(s, r, Recover(s, r), a)
  {
    var e := RecoverEach(s.handles, r.order, r);
    RecoverTouches(s.handles, r.order, r);
    SameKeys(s.handles, e.handles, r.order);
    var settled := SettleEach(e.handles, s.obligations, Targets(s, r), r.order, e.good);
    if a in settled.obligations {
      TargetsKeepObligations(s, r, a);
      SettledValues(e.handles, s.obligations, Targets(s, r), r.order, e.good, a);
    } else {
      var i := DroppedForGoodVerdict(e.handles, s.obligations, Targets(s, r), r.order, e.good, a);
      GoodMeansReleased(s.handles, r.order, r, i);
      assert r.order[i] in r.order;
    }
  }

  // ---------------------------------------------------------------- over whole runs

  /** In this step nothing at the address is connected or started. */
  ghost predicate Untouched(s: State, step: Step, a: Address) {
    step.DoConnect? || step.DoStart? ==>
      forall id :: id in s.handles && Key(s.handles[id]) == a ==> id in Next(s, step).handles && Next(s, step).handles[id] == s.handles[id]
  }

  ghost predicate ClearedBy(s: State, step: Step, a: Address)
    requires a in s.obligations
  {
    step.DoRecover? && Justified(s, step.request, Next(s, step), a)
  }

  /** The address is an obligation and nothing at it is connected or started, until a recovery clears it with evidence. */
  ghost predicate BlockedUntilCleared(s: State, steps: seq<Step>, a: Address)
    decreases |steps|
  {
    && a in s.obligations
    && (steps == []
        || (Untouched(s, steps[0], a)
            && (ClearedBy(s, steps[0], a) || BlockedUntilCleared(Next(s, steps[0]), steps[1..], a))))
  }

  lemma BlockedStep(s: State, step: Step, a: Address)
    requires Inv(s) && a in s.obligations
    ensures Untouched(s, step, a) && (a in Next(s, step).obligations || ClearedBy(s, step, a))
  {
    if step.DoConnect? || step.DoStart? {
      forall id | id in s.handles && Key(s.handles[id]) == a
        ensures id in Next(s, step).handles && Next(s, step).handles[id] == s.handles[id]
      {
        ObligedIsLeftAlone(s, step, id);
      }
    }
    if !step.DoRecover? {
      OnlyRecoveryClears(s, step);
    } else if a !in Next(s, step).obligations {
      ClearedOnlyWithEvidence(s, step.request, a);
    }
  }

  lemma {:induction false} Blocks(s: State, steps: seq<Step>, a: Address)
    requires Inv(s) && a in s.obligations
    ensures BlockedUntilCleared(s, steps, a)
    decreases |steps|
  {
    if steps != [] {
      BlockedStep(s, steps[0], a);
      StepKeeps(s, steps[0]);
      if a in Next(s, steps[0]).obligations {
        Blocks(Next(s, steps[0]), steps[1..], a);
      }
    }
  }

  /**
   In every run, a sensor whose STOP verdict was not "stopped" is neither connected nor started, whatever
   follows, until a recovery clears its address with evidence.
   */
  lemma UnconfirmedStopBlocks(before: seq<Step>, requested: Option<set<Address>>, drained: bool, outcome: Id -> StopOutcome,
                              i: nat, more: seq<Step>)
    requires var s := RunFrom(Initial(), before);
             var targets := StopTargets(s, requested);
             i < |targets| && !StopVerdicts(s, targets, drained, outcome).good[i]
    ensures var s := RunFrom(Initial(), before);
            var id := StopTargets(s, requested)[i];
            id in s.handles && BlockedUntilCleared(Stop(s, requested, drained, outcome), more, Key(s.handles[id]))
  {
    var s := RunFrom(Initial(), before);
    RunKeeps(Initial(), before);
    TargetsAreKnown(s, requested);
    var id := StopTargets(s, requested)[i];
    StopObligesExactly(s, requested, drained, outcome, Key(s.handles[id]));
    StopKeeps(s, requested, drained, outcome);
    Blocks(Stop(s, requested, drained, outcome), more, Key(s.handles[id]));
  }

  // ---------------------------------------------------------------- whose STOP it was

  /** Another handle that an obligation names has the address now. */
  ghost predicate Rival(s: State, a: Address, id: Id) {
    exists b :: b in s.obligations && IsRival(s, a, id, s.obligations[b])
  }

  predicate IsRival(s: State, a: Address, id: Id, named: Option<Id>) {
    named.Some? && named.value != id && named.value in s.handles && Key(s.handles[named.value]) == a
  }

  /** Without a rival, the only handle at an obligation's address that a recovery takes on is its own. */
  lemma OnlyItsOwn(s: State, r: Request, a: Address, id: Id, other: Id)
    requires a in s.obligations && s.obligations[a] == Some(id) && !Rival(s, a, id)
    requires other in s.handles && Key(s.handles[other]) == a && Some(other) in Targets(s, r).Values
    ensures other == id
  {
    ConfiguredAreKnown(s.handles, s.sensors, r);
    TargetsKeepObligations(s, r, a);
    var b :| b in Targets(s, r) && Targets(s, r)[b] == Some(other);
    if b in s.obligations {
      TargetsKeepObligations(s, r, b);
      assert !IsRival(s, a, id, s.obligations[b]);
    }
  }

  /** Without a rival, clearing an obligation that names a handle releases this very handle. */
  lemma OwnStopConfirmed(s: State, r: Request, a: Address, id: Id)
    requires InOrder(s, r) && a in s.obligations && s.obligations[a] == Some(id) && !Rival(s, a, id)
    requires a !in Recover(s, r).obligations
    ensures id in s.handles && id in Recover(s, r).handles && Verified(r, id, s.handles[id], Recover(s, r).handles[id])
  {
    ClearedOnlyWithEvidence(s, r, a);
    var t := Recover(s, r);
    var other :| other in r.order && other in s.handles && other in t.handles && Key(s.handles[other]) == a
                 && Verified(r, other, s.handles[other], t.handles[other]);
    OnlyItsOwn(s, r, a, id, other);
  }

  // ---------------------------------------------------------------- what a rival can do

  lemma InSomeOrder(ids: set<Id>) returns (order: seq<Id>)
    ensures Elements(order) == ids
  {
    order := [];
    var left := ids;
    while left != {}
      invariant left <= ids && Elements(order) == ids - left
    {
      var id :| id in left;
      assert Elements(order + [id]) == Elements(order) + {id};
      order, left := order + [id], left - {id};
    }
  }

  /** A recovery without gateways in which only the rival can be prepared. */
  function OnlyFor(rival: Id, order: seq<Id>): Request {
    Request(None, {}, false, {}, map[],
            (k: Id) => RecoveryOutcome(false, k == rival, false, true, true, true, true, true), order)
  }

  lemma OnlyRivalReconciles(rival: Id, order: seq<Id>, id: Id, h: Handle)
    ensures var r := OnlyFor(rival, order);
            var (c, ok) := RecoverOne(r, h, r.outcome(id));
            ok == (id == rival) && (id != rival ==> c == h.(quarantined := true))
  {
  }

  /** It gives a good verdict to the rival only. */
  lemma {:induction false} OnlyRivalIsGood(handles: map<Id, Handle>, targets: seq<Id>, rival: Id, order: seq<Id>, i: nat)
    requires i < |targets| && targets[i] in handles
    ensures RecoverEach(handles, targets, OnlyFor(rival, order)).good[i] == (targets[i] == rival)
  {
    var n := |targets| - 1;
    var p := RecoverEach(handles, targets[..n], OnlyFor(rival, order));
    if i < n {
      OnlyRivalIsGood(handles, targets[..n], rival, order, i);
    } else {
      OnlyRivalReconciles(rival, order, targets[n], p.handles[targets[n]]);
    }
  }

  /** It isolates every other target and does nothing else to it. */
  lemma {:induction false} OthersAreIsolated(handles: map<Id, Handle>, targets: seq<Id>, rival: Id, order: seq<Id>, id: Id)
    requires id in handles && id != rival
    ensures RecoverEach(handles, targets, OnlyFor(rival, order)).handles[id] ==
            if id in targets then handles[id].(quarantined := true) else handles[id]
  {
    if targets != [] {
      var n := |targets| - 1;
      OthersAreIsolated(handles, targets[..n], rival, order, id);
      assert targets == targets[..n] + [targets[n]];
      if targets[n] == id {
        OnlyRivalReconciles(rival, order, id, RecoverEach(handles, targets[..n], OnlyFor(rival, order)).handles[id]);
      }
    }
  }

  ghost predicate KeyIs(handles: map<Id, Handle>, id: Id, a: Address) {
    id in handles && Key(handles[id]) == a
  }

  /** Results for known addresses are all worked through. */
  lemma {:induction false} SettlesThrough(handles: map<Id, Handle>, o: map<Address, Option<Id>>, targets: map<Address, Option<Id>>,
                                          order: seq<Id>, good: seq<bool>, a: Address)
    requires |good| == |order| && a in targets && forall i :: 0 <= i < |order| ==> KeyIs(handles, order[i], a)
    ensures !SettleEach(handles, o, targets, order, good).raised
  {
    if order != [] {
      var n := |order| - 1;
      SettlesThrough(handles, o, targets, order[..n], good[..n], a);
      assert KeyIs(handles, order[n], a);
    }
  }

  /** A dropped address stays dropped while the results are about other addresses. */
  lemma {:induction false} StaysDropped(handles: map<Id, Handle>, o: map<Address, Option<Id>>, targets: map<Address, Option<Id>>,
                                        order: seq<Id>, good: seq<bool>, k: nat, a: Address)
    requires |good| == |order| && k <= |order|
    requires a !in SettleEach(handles, o, targets, order[..k], good[..k]).obligations
    requires forall i :: k <= i < |order| ==> !KeyIs(handles, order[i], a)
    ensures a !in SettleEach(handles, o, targets, order, good).obligations
  {
    if k == |order| {
      assert order[..k] == order && good[..k] == good;
    } else {
      var n := |order| - 1;
      assert order[..n][..k] == order[..k] && good[..n][..k] == good[..k];
      StaysDropped(handles, o, targets, order[..n], good[..n], k, a);
      assert !KeyIs(handles, order[n], a);
    }
  }

  /** Results about one known address: a good one drops it. */
  lemma DropsAt(handles: map<Id, Handle>, o: map<Address, Option<Id>>, targets: map<Address, Option<Id>>,
                order: seq<Id>, good: seq<bool>, k: nat, a: Address)
    requires |good| == |order| && k < |order| && a in targets && good[k]
    requires forall i :: 0 <= i <= k ==> KeyIs(handles, order[i], a)
    ensures a !in SettleEach(handles, o, targets, order[..k + 1], good[..k + 1]).obligations
  {
    SettlesThrough(handles, o, targets, order[..k], good[..k], a);
    assert order[..k + 1][..k] == order[..k] && good[..k + 1][..k] == good[..k];
    assert KeyIs(handles, order[k], a);
  }

  lemma SettlesWithout(handles: map<Id, Handle>, o: map<Address, Option<Id>>, targets: map<Address, Option<Id>>,
                       order: seq<Id>, good: seq<bool>, k: nat, a: Address)
    requires |good| == |order| && k < |order| && a in targets && good[k]
    requires forall i :: 0 <= i < |order| ==> (KeyIs(handles, order[i], a) <==> i <= k)
    ensures a !in SettleEach(handles, o, targets, order, good).obligations
  {
    DropsAt(handles, o, targets, order, good, k, a);
    StaysDropped(handles, o, targets, order, good, k + 1, a);
  }

  /** No gateways and no operator: what settling dropped stays dropped. */
  lemma NothingComesBack(s: State, rival: Id, order: seq<Id>, a: Address)
    requires var r := OnlyFor(rival, order);
             var e := RecoverEach(s.handles, order, r);
             a !in SettleEach(e.handles, s.obligations, Targets(s, r), order, e.good).obligations
    ensures a !in Recover(s, OnlyFor(rival, order)).obligations
  {
    assert UnknownLinks(OnlyFor(rival, order), Targets(s, OnlyFor(rival, order))) == {};
  }

  /** Taken at position `k`, after other targets at the address and before targets at other addresses, the rival clears it. */
  lemma RivalDropsAddress(s: State, a: Address, rival: Id, order: seq<Id>, k: nat)
    requires a in s.obligations && k < |order| && order[k] == rival
    requires forall i :: 0 <= i < |order| ==> order[i] in s.handles && (Key(s.handles[order[i]]) == a <==> i <= k)
    ensures a !in Recover(s, OnlyFor(rival, order)).obligations
  {
    var r := OnlyFor(rival, order);
    RecoverTouches(s.handles, order, r);
    var e := RecoverEach(s.handles, order, r);
    SameKeys(s.handles, e.handles, order);
    OnlyRivalIsGood(s.handles, order, rival, order, k);
    forall i | 0 <= i < |order| ensures KeyIs(e.handles, order[i], a) <==> i <= k {
      assert order[i] in s.handles;
    }
    assert a in Targets(s, r);
    SettlesWithout(e.handles, s.obligations, Targets(s, r), order, e.good, k, a);
    NothingComesBack(s, rival, order, a);
  }

  /** An order of the targets with the rival last among those at the address, and the rest after it. */
  lemma RivalOrder(s: State, all: set<Id>, a: Address, rival: Id) returns (order: seq<Id>, k: nat)
    requires (forall id :: id in all ==> id in s.handles) && rival in all && Key(s.handles[rival]) == a
    ensures Elements(order) == all && k < |order| && order[k] == rival
    ensures forall i :: 0 <= i < |order| ==> order[i] in s.handles && (Key(s.handles[order[i]]) == a <==> i <= k)
  {
    var here := InSomeOrder(set id | id in all && Key(s.handles[id]) == a && id != rival);
    var elsewhere := InSomeOrder(set id | id in all && Key(s.handles[id]) != a);
    order, k := here + [rival] + elsewhere, |here|;
    assert Elements(order) == Elements(here) + {rival} + Elements(elsewhere);
    forall i | 0 <= i < |order| ensures order[i] in s.handles && (Key(s.handles[order[i]]) == a <==> i <= k) {
      assert i < k ==> order[i] in Elements(here);
      assert i > k ==> order[i] == elsewhere[i - k - 1] && order[i] in Elements(elsewhere);
    }
  }

  lemma InOrderOf(s: State, rival: Id, order: seq<Id>)
    requires forall id :: id in Elements(order) <==> Some(id) in Targets(s, OnlyFor(rival, [])).Values
    ensures InOrder(s, OnlyFor(rival, order))
  {
    SameTargets(s, rival, order);
    forall id | id in order ensures Some(id) in Targets(s, OnlyFor(rival, order)).Values {
      assert id in Elements(order);
    }
    forall v | v in Targets(s, OnlyFor(rival, order)).Values && v.Some? ensures v.value in order {
      assert v.value in Elements(order);
    }
  }

  /** With a rival, some recovery clears the address and leaves its own handle as it is, isolated. */
  lemma RivalClears(s: State, a: Address, id: Id) returns (r: Request)
    requires Inv(s) && a in s.obligations && s.obligations[a] == Some(id) && Rival(s, a, id)
    ensures InOrder(s, r) && a !in Recover(s, r).obligations
    ensures id in s.handles && id in Recover(s, r).handles
    ensures Recover(s, r).handles[id] == s.handles[id].(quarantined := true)
  {
    var b :| b in s.obligations && IsRival(s, a, id, s.obligations[b]);
    var rival := s.obligations[b].value;
    var targets := Targets(s, OnlyFor(rival, []));
    ConfiguredAreKnown(s.handles, s.sensors, OnlyFor(rival, []));
    assert targets[b] == Some(rival) && targets[a] == Some(id);
    var all := set v | v in targets.Values && v.Some? :: v.value;
    var order, k := RivalOrder(s, all, a, rival);
    r := OnlyFor(rival, order);
    InOrderOf(s, rival, order);
    RivalDropsAddress(s, a, rival, order, k);
    assert id in Elements(order);
    OthersAreIsolated(s.handles, order, rival, order, id);
  }

  lemma SameTargets(s: State, rival: Id, order: seq<Id>)
    ensures Targets(s, OnlyFor(rival, order)) == Targets(s, OnlyFor(rival, []))
  {
    SameConfigured(s.handles, s.sensors, rival, order);
  }

  lemma {:induction false} SameConfigured(handles: map<Id, Handle>, ids: seq<Id>, rival: Id, order: seq<Id>)
    ensures ConfiguredTargets(handles, ids, OnlyFor(rival, order)) == ConfiguredTargets(handles, ids, OnlyFor(rival, []))
  {
    if ids != [] {
      SameConfigured(handles, ids[..|ids| - 1], rival, order);
    }
  }

  /**
   For an obligation that names a handle: every recovery that clears it releases that very handle exactly
   when the handle is quiet already or no other handle named by an obligation has the address.
   */
  lemma ReleasesItsOwnExactlyWhen(s: State, a: Address, id: Id)
    requires Inv(s) && a in s.obligations && s.obligations[a] == Some(id)
    ensures (forall r: Request :: InOrder(s, r) && a !in Recover(s, r).obligations ==>
               id in Recover(s, r).handles && Released(r, id, s.handles[id], Recover(s, r).handles[id]))
            <==> Quiet(s.handles[id]) || !Rival(s, a, id)
  {
    if Quiet(s.handles[id]) || !Rival(s, a, id) {
      forall r: Request | InOrder(s, r) && a !in Recover(s, r).obligations
        ensures id in Recover(s, r).handles && Released(r, id, s.handles[id], Recover(s, r).handles[id])
      {
        if Rival(s, a, id) {
          RecoverTracks(s.handles, r.order, r, id);
        } else {
          OwnStopConfirmed(s, r, a, id);
        }
      }
    } else {
      var r := RivalClears(s, a, id);
      assert InOrder(s, r) && a !in Recover(s, r).obligations;
    }
  }

  /** Every obligation names a handle that still has that address. */
  ghost predicate Bound(s: State) {
    forall a :: a in s.obligations && s.obligations[a].Some? ==>
      s.obligations[a].value in s.handles && Key(s.handles[s.obligations[a].value]) == a
  }

  /** While every obligation's handle keeps its address, no handle has a rival. */
  lemma BoundHasNoRival(s: State, a: Address, id: Id)
    requires Bound(s) && a in s.obligations && s.obligations[a] == Some(id)
    ensures !Rival(s, a, id)
  {
  }

  ghost predicate NamesBound(handles: map<Id, Handle>, o: map<Address, Option<Id>>) {
    forall a :: a in o && o[a].Some? ==> o[a].value in handles && Key(handles[o[a].value]) == a
  }

  lemma NamesStayBound(handles: map<Id, Handle>, after: map<Id, Handle>, o: map<Address, Option<Id>>)
    requires NamesBound(handles, o) && handles.Keys <= after.Keys
    requires forall id :: id in handles ==> after[id].address == handles[id].address
    ensures NamesBound(after, o)
  {
    forall a | a in o && o[a].Some? ensures o[a].value in after && Key(after[o[a].value]) == a {
      assert Key(handles[o[a].value]) == a;
    }
  }

  lemma {:induction false} ObligeKeepsBound(s: State, targets: seq<Id>, good: seq<bool>)
    requires |good| == |targets| && Bound(s)
    ensures Bound(ObligeEach(s, targets, good)) && ObligeEach(s, targets, good).handles == s.handles
  {
    if targets != [] {
      var n := |targets| - 1;
      ObligeKeepsBound(s, targets[..n], good[..n]);
    }
  }

  lemma {:induction false} SettleKeepsBound(handles: map<Id, Handle>, o: map<Address, Option<Id>>, targets: map<Address, Option<Id>>,
                                            order: seq<Id>, good: seq<bool>)
    requires |good| == |order| && NamesBound(handles, o) && NamesBound(handles, targets)
    ensures NamesBound(handles, SettleEach(handles, o, targets, order, good).obligations)
  {
    if order != [] {
      var n := |order| - 1;
      SettleKeepsBound(handles, o, targets, order[..n], good[..n]);
    }
  }

  lemma RecoverKeepsBound(s: State, r: Request)
    requires Inv(s) && Bound(s)
    ensures Bound(Recover(s, r))
  {
    RecoverTouches(s.handles, r.order, r);
    var e := RecoverEach(s.handles, r.order, r);
    ConfiguredAreKnown(s.handles, s.sensors, r);
    var targets := Targets(s, r);
    assert NamesBound(s.handles, targets);
    NamesStayBound(s.handles, e.handles, targets);
    NamesStayBound(s.handles, e.handles, s.obligations);
    SettleKeepsBound(e.handles, s.obligations, targets, r.order, e.good);
  }

  /** Discovery gives another address to the handle of an obligation. */
  predicate Rebinds(s: State, step: Step) {
    && step.Discovered? && step.id in s.handles
    && (exists a :: a in s.obligations && s.obligations[a] == Some(step.id))
    && Upper(step.address) != Key(s.handles[step.id])
  }

  /** Only discovery, by giving an obligation's handle another address, can unbind an obligation. */
  lemma BoundUnlessRebound(s: State, step: Step)
    requires Inv(s) && Bound(s) && !Rebinds(s, step)
    ensures Bound(Next(s, step))
  {
    if Allowed(s, step) {
      match step
      case DoConnect(targets, connecting) =>
        ConnectTouches(s.handles, targets, connecting);
        NamesStayBound(s.handles, Next(s, step).handles, s.obligations);
      case DoStart(requested, raises) =>
        StartTouches(s.handles, Startable(s, requested), raises);
        NamesStayBound(s.handles, Next(s, step).handles, s.obligations);
      case DoStop(requested, drained, stopping) =>
        var targets := StopTargets(s, requested);
        var r := StopVerdicts(s, targets, drained, stopping);
        StopTouches(s.handles, targets, stopping);
        IsolateTouches(s.handles, targets);
        NamesStayBound(s.handles, r.handles, s.obligations);
        ObligeKeepsBound(s.(handles := r.handles), targets, r.good);
      case DoCleanup(requested, cleaning) =>
        var targets := CleanupTargets(s, requested);
        var r := CleanEach(s.handles, targets, cleaning);
        CleanTouches(s.handles, targets, cleaning);
        NamesStayBound(s.handles, r.handles, s.obligations);
        ObligeKeepsBound(s.(handles := r.handles), targets, r.good);
      case DoReconfigure(added, order, dropped, succeeds) =>
        RetainKeeps(s.handles, s.sensors, s.obligations);
        var o := Retain(s.handles, s.sensors, s.obligations);
        assert NamesBound(s.handles, o);
        NamesStayBound(s.handles, Next(s, step).handles, o);
      case DoRecover(request) => RecoverKeepsBound(s, request);
      case Discovered(id, address) => BindKeepsBound(s, id, address);
      case LinkLost(id) => NamesStayBound(s.handles, Next(s, step).handles, s.obligations);
      case Quarantine(id) => NamesStayBound(s.handles, Next(s, step).handles, s.obligations);
    }
  }

  lemma BindKeepsBound(s: State, id: Id, address: Address)
    requires Bound(s) && !Rebinds(s, Discovered(id, address))
    ensures Bound(Bind(s, id, address))
  {
    var t := Bind(s, id, address);
    forall a | a in t.obligations && t.obligations[a].Some?
      ensures t.obligations[a].value in t.handles && Key(t.handles[t.obligations[a].value]) == a
    {
      if t.obligations[a].value == id {
        assert s.obligations[a] == Some(id);
      }
    }
  }
}
