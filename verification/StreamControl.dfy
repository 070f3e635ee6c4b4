/** The stream phase machine as Core runs it, section by section, each proved against its step. */
module StreamControl {
  import opened Wrappers
  import opened StartupGate
  import opened StreamPhase

  /** Where a gate thread goes after a section. */
  datatype Outcome = GoOn | Leave | MovedOn

  /**
   `node` is the abstract node, threads and history included, and `Valid` ties the fields to it. A gate
   section gets the thread's token, as the program does, and a ghost index that says which thread runs.
   */
  class Core {
    var phase: Phase
    var token: nat
    var coordinated: bool
    var session: Option<Session>
    var stamp: Option<Stamp>
    var commit: bool
    var outputs: bool
    var addresses: seq<Address>
    var stats: map<Address, Stats>
    ghost var node: Node

    ghost predicate Valid()
      reads this
    {
      && phase == node.phase && token == node.token && coordinated == node.coordinated && session == node.session
      && stamp == node.stamp && commit == node.commit && outputs == node.outputs
      && addresses == node.addresses && stats == node.stats
    }

    constructor ()
      ensures Valid() && node == NewNode()
    {
      phase, token, coordinated, session, stamp := Idle, 0, false, None, None;
      commit, outputs, addresses, stats := false, false, [], map[];
      node := NewNode();
    }

    method StartStream(coordinated': bool, session': Option<Session>, stamp': Option<Stamp>,
                       addresses': seq<Address>, rates: map<Address, Option<nat>>)
      requires Valid()
      modifies this
      ensures Valid() && node == StreamPhase.StartStream(old(node), coordinated', session', stamp', addresses', rates)
    {
      node := StreamPhase.StartStream(node, coordinated', session', stamp', addresses', rates);
      stamp, coordinated, session := stamp', coordinated', session';
      commit, outputs := false, false;
      ResetStartupGateState(addresses', rates);
    }

    method ResetStartupGateState(addresses': seq<Address>, rates: map<Address, Option<nat>>)
      modifies this`token, this`phase, this`addresses, this`stats
      ensures token == old(token) + 1 && phase == Starting && addresses == addresses'
      ensures stats == FreshStats(addresses', rates)
    {
      token, phase, addresses := token + 1, Starting, addresses';
      stats := map[];
      for i := 0 to |addresses'|
        invariant token == old(token) + 1 && phase == Starting && addresses == addresses'
        invariant stats == FreshStats(addresses'[..i], rates)
      {
        var a := addresses'[i];
        assert Elements(addresses'[..i + 1]) == Elements(addresses'[..i]) + {a} by {
          assert addresses'[..i + 1] == addresses'[..i] + [a];
        }
        stats := stats[a := Fresh(if a in rates then rates[a] else None)];
      }
      assert addresses'[..|addresses'|] == addresses';
    }

    method OnStreamStarted()
      requires Valid()
      modifies this
      ensures Valid() && node == StreamStarted(old(node))
    {
      if addresses != [] {
        phase := WarmingUp;
      }
      node := StreamStarted(node);
    }

    method OnStreamStopped()
      requires Valid()
      modifies this
      ensures Valid() && node == StreamStopped(old(node))
    {
      if phase.StartupFailed? {
      } else if !phase.OfficialStreaming? {
        phase := Idle;
      }
      node := StreamStopped(node);
    }

    method BeginStop(othersActive: bool)
      requires Valid()
      modifies this
      ensures Valid() && node == StopBegin(old(node), othersActive)
    {
      if !othersActive {
        if !phase.Idle? && !phase.StartupFailed? {
          phase := Stopping;
        }
        token := token + 1;
      }
      node := StopBegin(node, othersActive);
    }

    method ClearStartupGateState()
      requires Valid()
      modifies this
      ensures Valid() && node == Clear(old(node))
    {
      token, phase, addresses, stats := token + 1, Idle, [], map[];
      coordinated, session, commit, outputs := false, None, false, false;
      node := Clear(node);
    }

    /** Whether the sample goes on to its subject. */
    method OnData(s: Sample) returns (official: bool)
      requires Valid()
      modifies this
      ensures Valid() && node == StreamPhase.OnData(old(node), s)
      ensures official == Official(old(node))
    {
      if s.address in stats && (phase.Starting? || phase.WarmingUp?) && s.rate.Some? {
        stats := stats[s.address := Record(stats[s.address], s)];
      }
      official := phase.OfficialStreaming? && outputs && (!coordinated || commit);
      node := StreamPhase.OnData(node, s);
    }

    method SensorsStable() returns (stable: bool)
      requires Valid()
      ensures stable == AllStable(node)
    {
      if addresses == [] {
        return false;
      }
      for i := 0 to |addresses|
        invariant forall k :: 0 <= k < i && addresses[k] in stats ==> IsStable(stats[addresses[k]])
      {
        if addresses[i] in stats && !IsStable(stats[addresses[i]]) {
          return false;
        }
      }
      return true;
    }

    /** One pass of the settling loop. */
    method Settle(ghost i: nat, mine: nat) returns (next: Outcome)
      requires Valid() && i < |node.gates| && node.gates[i] == Gate(mine, Settling)
      modifies this`node
      ensures Valid() && node == GateStep(old(node), i, SettleCheck)
      ensures next.Leave? <==> node.gates[i].pc.Done?
    {
      next := if mine != token || phase != WarmingUp then Leave else GoOn;
      node := GateStep(node, i, SettleCheck);
    }

    /** One pass of the observation loop; local persistence may fail to activate. */
    method Observe(ghost i: nat, mine: nat, activates: bool) returns (next: Outcome)
      requires Valid() && i < |node.gates| && node.gates[i] == Gate(mine, Observing)
      modifies this
      ensures Valid() && node == ObserveSection(old(node), i, activates)
      ensures next.Leave? <==> node.gates[i].pc.Done?
      ensures next.MovedOn? <==> node.gates[i].pc.Preparing?
    {
      if mine != token || phase != WarmingUp {
        node := At(node, i, Done);
        return Leave;
      }
      var stable := SensorsStable();
      if !stable {
        return GoOn;
      }
      next := GoOfficial(i, activates);
    }

    method GoOfficial(ghost i: nat, activates: bool) returns (next: Outcome)
      requires Valid() && i < |node.gates|
      modifies this
      ensures Valid() && node == PassGate(old(node), i, activates)
      ensures next == if node.gates[i].pc.Done? then Leave else MovedOn
      ensures node.gates[i].pc.Done? || node.gates[i].pc.Preparing?
    {
      if coordinated {
        phase, next := PreparingOfficial, MovedOn;
      } else {
        phase, next := ActivatingOfficial, Leave;
        if activates {
          phase, outputs := OfficialStreaming, true;
        }
      }
      node := PassGate(node, i, activates);
    }

    /** The stability window is over. */
    method GiveUpObserving(ghost i: nat, mine: nat)
      requires Valid() && i < |node.gates| && node.gates[i] == Gate(mine, Observing)
      modifies this
      ensures Valid() && node == GateStep(old(node), i, TimeOut)
    {
      if mine == token && phase == WarmingUp {
        phase := StartupFailed;
      }
      node := GateStep(node, i, TimeOut);
    }

    /** After persistence was prepared, or failed to be: the session to announce, if the thread is still in charge. */
    method FinishPreparing(ghost i: nat, mine: nat, succeeds: bool) returns (announce: bool, named: Option<Session>)
      requires Valid() && i < |node.gates| && node.gates[i].token == mine && node.gates[i].pc.Preparing?
      modifies this
      ensures Valid() && node == PrepareSection(old(node), i, succeeds)
      ensures announce <==> node.gates[i].pc.Announcing?
      ensures announce ==> named == node.gates[i].pc.session
    {
      announce, named := false, None;
      if mine == token && phase == PreparingOfficial {
        if succeeds {
          phase := ReadyForOfficial;
          announce, named := true, session;
        } else {
          phase := StartupFailed;
        }
      }
      node := PrepareSection(node, i, succeeds);
    }

    /** Whether the commit is taken on; the activation then runs outside the lock. */
    method StartOfficialStream(session': Option<Session>, stamp': Option<Stamp>) returns (activate: bool)
      requires Valid()
      modifies this
      ensures Valid() && node == AcceptCommit(old(node), session', stamp')
      ensures activate <==> node.activations > old(node).activations
    {
      activate := false;
      if !coordinated || session'.None? || session' != session {
        return;
      }
      if stamp'.Some? && stamp' != stamp {
        return;
      }
      if phase != ReadyForOfficial {
        return;
      }
      node := AcceptCommit(node, session', stamp');
      commit, phase, activate := true, ActivatingOfficial, true;
    }

    method EndActivation(succeeded: bool)
      requires Valid() && node.activations > 0
      modifies this
      ensures Valid() && node == FinishActivation(old(node), succeeded)
    {
      if succeeded {
        phase, outputs := OfficialStreaming, true;
      } else {
        commit, outputs, phase := false, false, StartupFailed;
      }
      node := FinishActivation(node, succeeded);
    }
  }
}
