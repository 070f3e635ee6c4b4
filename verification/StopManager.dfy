/** The sensor manager's commands as they run, each proved against its step. */
module StopManager {
  import opened Wrappers
  import opened StopObligations

  class SensorManager {
    var handles: map<Id, Handle>
    var sensors: seq<Id>
    var obligations: map<Address, Option<Id>>

    function Abs(): State
      reads this
    {
      State(handles, sensors, obligations)
    }

    constructor ()
      ensures Abs() == Initial()
    {
      handles, sensors, obligations := map[], [], map[];
    }

    method EnsureReconciled(targets: seq<Id>) returns (ok: bool)
      ensures ok == Reconciled(Abs(), targets)
    {
      for i := 0 to |targets|
        invariant Reconciled(Abs(), targets[..i])
      {
        if targets[i] in handles && Key(handles[targets[i]]) in obligations {
          return false;
        }
      }
      assert targets[..|targets|] == targets;
      return true;
    }

    method ConnectSensors(targets: seq<Id>, outcome: Id -> ConnectOutcome)
      modifies this`handles
      ensures Abs() == Connect(old(Abs()), targets, outcome)
    {
      var ok := EnsureReconciled(targets);
      if !ok {
        return;
      }
      var raised := false;
      for i := 0 to |targets|
        invariant Progress(handles, raised) == ConnectEach(old(handles), targets[..i], outcome)
      {
        assert targets[..i + 1][..i] == targets[..i];
        var id := targets[i];
        if !raised && id in handles {
          match outcome(id) {
            case Refuses =>
            case Connects =>
              handles := handles[id := handles[id].(connected := true, linked := true)];
            case ConnectsThenRaises =>
              handles := handles[id := handles[id].(connected := true, linked := true)];
              raised := true;
            case Raises =>
              raised := true;
          }
        }
      }
      assert targets[..|targets|] == targets;
    }

    method ConnectedSensors(requested: Option<set<Address>>) returns (ids: seq<Id>)
      ensures ids == Startable(Abs(), requested)
    {
      ids := [];
      ghost var wanted := MayStart(Abs(), requested);
      for i := 0 to |sensors|
        invariant ids == Select(handles, sensors[..i], wanted)
      {
        assert sensors[..i + 1][..i] == sensors[..i];
        var id := sensors[i];
        if id in handles && handles[id].connected && !handles[id].quarantined && Key(handles[id]) !in obligations
           && Requested(requested, handles[id].address)
        {
          ids := ids + [id];
        }
      }
      assert sensors[..|sensors|] == sensors;
    }

    method StartSensors(requested: Option<set<Address>>, raises: Id -> bool)
      modifies this`handles
      ensures Abs() == Start(old(Abs()), requested, raises)
    {
      var targets := ConnectedSensors(requested);
      var raised := false;
      for i := 0 to |targets|
        invariant Progress(handles, raised) == StartEach(old(handles), targets[..i], raises)
      {
        assert targets[..i + 1][..i] == targets[..i];
        var id := targets[i];
        if !raised && id in handles {
          if handles[id].quarantined {
            raised := true;
          } else {
            handles := handles[id := handles[id].(pending := true, standing := Owed)];
            raised := raises(id);
          }
        }
      }
      assert targets[..|targets|] == targets;
    }

    method StopSensors(requested: Option<set<Address>>, drained: bool, outcome: Id -> StopOutcome)
      modifies this`handles, this`obligations
      ensures Abs() == Stop(old(Abs()), requested, drained, outcome)
    {
      var targets := Select(handles, sensors, MayStop(requested));
      var good: seq<bool>;
      if drained {
        good := StopStreams(targets, outcome);
      } else {
        good := IsolateTargets(targets);
      }
      RecordObligations(targets, good);
    }

    method StopStreams(targets: seq<Id>, outcome: Id -> StopOutcome) returns (good: seq<bool>)
      modifies this`handles
      ensures Outcome(handles, good) == StopEach(old(handles), targets, outcome)
    {
      good := [];
      for i := 0 to |targets|
        invariant Outcome(handles, good) == StopEach(old(handles), targets[..i], outcome)
      {
        assert targets[..i + 1][..i] == targets[..i];
        var id, ok := targets[i], true;
        if id in handles {
          var h, o := handles[id], outcome(id);
          if h.quarantined || o.tooLate {
            ok := false;
          } else if !h.connected {
            ok := !h.pending;
          } else if o.confirmed {
            h := h.(pending := false, standing := PluginConfirmed);
          } else {
            h, ok := h.(quarantined := h.quarantined || o.isolates), false;
          }
          handles := handles[id := h];
        }
        good := good + [ok];
      }
      assert targets[..|targets|] == targets;
    }

    method IsolateTargets(targets: seq<Id>) returns (good: seq<bool>)
      modifies this`handles
      ensures Outcome(handles, good) == IsolateEach(old(handles), targets)
    {
      good := [];
      for i := 0 to |targets|
        invariant Outcome(handles, good) == IsolateEach(old(handles), targets[..i])
      {
        assert targets[..i + 1][..i] == targets[..i];
        var id := targets[i];
        good := good + [id !in handles];
        if id in handles {
          handles := handles[id := handles[id].(quarantined := true)];
        }
      }
      assert targets[..|targets|] == targets;
    }

    method RecordObligations(targets: seq<Id>, good: seq<bool>)
      requires |good| == |targets|
      modifies this`obligations
      ensures Abs() == ObligeEach(old(Abs()), targets, good)
    {
      for i := 0 to |targets|
        invariant Abs() == ObligeEach(old(Abs()), targets[..i], good[..i])
      {
        assert targets[..i + 1][..i] == targets[..i] && good[..i + 1][..i] == good[..i];
        if !good[i] && targets[i] in handles {
          var first := First(handles, sensors, handles[targets[i]].address);
          if first.Some? && first.value in handles {
            obligations := obligations[Key(handles[first.value]) := first];
          }
        }
      }
      assert targets[..|targets|] == targets && good[..|good|] == good;
    }

    method CleanUp(requested: Option<set<Address>>, outcome: Id -> CleanupOutcome)
      modifies this`handles, this`obligations
      ensures Abs() == Cleanup(old(Abs()), requested, outcome)
    {
      var targets := Select(handles, sensors, MayClean(requested));
      var good: seq<bool> := [];
      for i := 0 to |targets|
        invariant sensors == old(sensors) && obligations == old(obligations)
        invariant Outcome(handles, good) == CleanEach(old(handles), targets[..i], outcome)
      {
        assert targets[..i + 1][..i] == targets[..i];
        var id, ok := targets[i], true;
        if id in handles {
          var cleaned := CleanOne(handles[id], outcome(id));
          ok := cleaned.1;
          handles := handles[id := cleaned.0];
        }
        good := good + [ok];
      }
      assert targets[..|targets|] == targets;
      RecordObligations(targets, good);
    }

    method RetainUnresolved()
      modifies this`obligations
      ensures obligations == Retain(handles, sensors, old(obligations))
    {
      for i := 0 to |sensors|
        invariant obligations == Retain(handles, sensors[..i], old(obligations))
      {
        assert sensors[..i + 1][..i] == sensors[..i];
        var id := sensors[i];
        if id in handles && HasAddress(handles[id]) && (handles[id].pending || handles[id].quarantined) && Key(handles[id]) !in obligations {
          obligations := obligations[Key(handles[id]) := Some(id)];
        }
      }
      assert sensors[..|sensors|] == sensors;
    }

    method ReinitializeSensors(added: map<Id, AdapterId>, order: seq<Id>, dropped: set<Id>, succeeds: bool)
      modifies this
      ensures Abs() == Reconfigure(old(Abs()), added, order, dropped, succeeds)
    {
      RetainUnresolved();
      handles := Retired(Abs(), dropped);
      if succeeds {
        handles := handles + map id | id in added :: NewHandle(added[id]);
        sensors := order;
      }
    }

    method CollectTargets(r: Request) returns (targets: map<Address, Option<Id>>)
      ensures targets == Targets(Abs(), r)
    {
      targets := map[];
      for i := 0 to |sensors|
        invariant targets == ConfiguredTargets(handles, sensors[..i], r)
      {
        assert sensors[..i + 1][..i] == sensors[..i];
        var id := sensors[i];
        if id in handles && HasAddress(handles[id]) && Requested(r.requested, Some(Key(handles[id]))) {
          targets := targets[Key(handles[id]) := Some(id)];
        }
      }
      assert sensors[..|sensors|] == sensors;
      targets := targets + map a | a in obligations && Requested(r.requested, Some(a)) :: obligations[a];
    }

    method Reconcile(r: Request) returns (good: seq<bool>)
      modifies this`handles
      ensures Outcome(handles, good) == RecoverEach(old(handles), r.order, r)
    {
      good := [];
      for i := 0 to |r.order|
        invariant Outcome(handles, good) == RecoverEach(old(handles), r.order[..i], r)
      {
        assert r.order[..i + 1][..i] == r.order[..i];
        var id, ok := r.order[i], false;
        if id in handles {
          var recovered := RecoverOne(r, handles[id], r.outcome(id));
          ok := recovered.1;
          handles := handles[id := recovered.0];
        }
        good := good + [ok];
      }
      assert r.order[..|r.order|] == r.order;
    }

    method SettleResults(targets: map<Address, Option<Id>>, order: seq<Id>, good: seq<bool>) returns (raised: bool)
      requires |good| == |order|
      modifies this`obligations
      ensures Settling(obligations, raised) == SettleEach(handles, old(obligations), targets, order, good)
    {
      raised := false;
      for i := 0 to |order|
        invariant Settling(obligations, raised) == SettleEach(handles, old(obligations), targets, order[..i], good[..i])
      {
        assert order[..i + 1][..i] == order[..i] && good[..i + 1][..i] == good[..i];
        if !raised && order[i] in handles {
          var key := Key(handles[order[i]]);
          if good[i] {
            obligations := obligations - {key};
            raised := key !in targets;
          } else if key in targets {
            obligations := obligations[key := targets[key]];
          } else {
            raised := true;
          }
        }
      }
      assert order[..|order|] == order && good[..|good|] == good;
    }

    method RecoverSensors(r: Request)
      modifies this`handles, this`obligations
      ensures Abs() == Recover(old(Abs()), r)
    {
      var targets := CollectTargets(r);
      var good := Reconcile(r);
      var raised := SettleResults(targets, r.order, good);
      if raised {
        return;
      }
      obligations := AddOrphans(obligations, UnknownLinks(r, targets));
      obligations := ReleaseOrphans(obligations, r);
    }
  }
}
