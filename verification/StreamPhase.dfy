/**
 The stream phase machine of one node: starts, stops, sample callbacks, the coordinated commit, and any
 number of startup-gate threads.

 Each section that the program runs under the startup lock is one step, so steps of different gate
 threads, callbacks and commands interleave freely. A start is one step.
 */
module StreamPhase {
  import opened Wrappers
  import opened StartupGate

  type Session = string
  type Stamp = string
  type Address = string

  datatype Phase =
    | Idle | Starting | WarmingUp | PreparingOfficial | ReadyForOfficial
    | ActivatingOfficial | OfficialStreaming | StartupFailed | Stopping

  // ---------------------------------------------------------------- stability of one sensor

  const PACKETS_REQUIRED: nat := 60
  const MIN_PACKETS_REQUIRED: nat := 3
  const MIN_OBSERVATION: nat := 2 * MICROS

  function RequiredPackets(expected: Option<nat>): (n: nat)
    ensures MIN_PACKETS_REQUIRED <= n <= PACKETS_REQUIRED
    ensures expected.None? || expected.value == 0 ==> n == PACKETS_REQUIRED
    ensures expected.Some? && 0 < expected.value ==>
              && (n == PACKETS_REQUIRED || n * MICROS >= expected.value * MIN_OBSERVATION)
              && (n == MIN_PACKETS_REQUIRED || (n - 1) * MICROS < expected.value * MIN_OBSERVATION)
  {
    if expected.None? || expected.value == 0 then PACKETS_REQUIRED
    else
      var during := expected.value * 2;
      var capped := if during < PACKETS_REQUIRED then during else PACKETS_REQUIRED;
      if capped > MIN_PACKETS_REQUIRED then capped else MIN_PACKETS_REQUIRED
  }

  /** The observed rate, one packet fewer than received over the duration, is at least 95% of the expected one. */
  predicate FastEnough(st: Stats) {
    st.expectedRate.Some? && st.expectedRate.value != 0 ==>
      if Duration(st) == 0 || st.packets < 2 then false
      else (st.packets - 1) * MICROS * 100 >= 95 * st.expectedRate.value * Duration(st)
  }

  predicate IsStable(st: Stats) {
    && st.firstWall.Some?
    && st.packets >= RequiredPackets(st.expectedRate)
    && Duration(st) >= MIN_OBSERVATION
    && FastEnough(st)
    && st.gaps == 0 && st.dropped == 0
  }

  // ---------------------------------------------------------------- state

  /** A sample with the number of the start it was heard after. */
  datatype Heard = Heard(start: nat, sample: Sample)

  /** What a gate thread saw when it found every sensor stable. */
  datatype Evidence = Evidence(
    start: nat,
    session: Option<Session>,
    addresses: seq<Address>,
    rates: map<Address, Option<nat>>,
    heard: map<Address, seq<Heard>>)

  datatype Pc =
    | Settling
    | Observing
    | Preparing(evidence: Evidence)
    | Announcing(session: Option<Session>, evidence: Evidence)
    | Done

  datatype Gate = Gate(token: nat, pc: Pc)

  /**
   `rates`, `heard`, `starts` and the evidence in a gate thread are history: the expected rates at the last
   start, the samples counted since, and the session of every start.
   */
  datatype Node = Node(
    phase: Phase,
    token: nat,
    coordinated: bool,
    session: Option<Session>,
    stamp: Option<Stamp>,
    commit: bool,
    outputs: bool,
    addresses: seq<Address>,
    stats: map<Address, Stats>,
    gates: seq<Gate>,
    activations: nat,
    rates: map<Address, Option<nat>>,
    heard: map<Address, seq<Heard>>,
    starts: seq<Option<Session>>)

  function NewNode(): Node {
    Node(Idle, 0, false, None, None, false, false, [], map[], [], 0, map[], map[], [])
  }

  /** What a step sends out of the node. */
  datatype Emission =
    | Nothing
    | Ready(session: Option<Session>, stamp: Option<Stamp>, evidence: Evidence)
    | Persisted(coordinated: bool, session: Option<Session>)

  // ---------------------------------------------------------------- commands and callbacks

  function RateOf(rates: map<Address, Option<nat>>, a: Address): Option<nat> {
    if a in rates then rates[a] else None
  }

  function FreshStats(addresses: seq<Address>, rates: map<Address, Option<nat>>): map<Address, Stats> {
    map a | a in Elements(addresses) :: Fresh(RateOf(rates, a))
  }

  function StartStream(n: Node, coordinated: bool, session: Option<Session>, stamp: Option<Stamp>,
                       addresses: seq<Address>, rates: map<Address, Option<nat>>): Node {
    n.(phase := Starting, token := n.token + 1, coordinated := coordinated, session := session, stamp := stamp,
       commit := false, outputs := false, addresses := addresses, stats := FreshStats(addresses, rates),
       rates := rates, heard := map a | a in Elements(addresses) :: [], starts := n.starts + [session])
  }

  function StreamStarted(n: Node): Node {
    if n.addresses == [] then n else n.(phase := WarmingUp, gates := n.gates + [Gate(n.token, Settling)])
  }

  function StreamStopped(n: Node): Node {
    if n.phase.StartupFailed? || n.phase.OfficialStreaming? then n else n.(phase := Idle)
  }

  function StopBegin(n: Node, othersActive: bool): Node {
    if othersActive then n
    else n.(token := n.token + 1, phase := if n.phase.Idle? || n.phase.StartupFailed? then n.phase else Stopping)
  }

  /** The end of a stop or a Reset when nothing streams any more. */
  function Clear(n: Node): Node {
    n.(token := n.token + 1, phase := Idle, addresses := [], stats := map[], coordinated := false, session := None,
       commit := false, outputs := false, rates := map[], heard := map[])
  }

  predicate Counts(n: Node, s: Sample) {
    s.address in n.stats && (n.phase.Starting? || n.phase.WarmingUp?) && s.rate.Some?
  }

  predicate Official(n: Node) {
    n.phase.OfficialStreaming? && n.outputs && (!n.coordinated || n.commit)
  }

  function OnData(n: Node, s: Sample): Node {
    if !Counts(n, s) then n
    else
      n.(stats := n.stats[s.address := Record(n.stats[s.address], s)],
         heard := if s.address in n.heard then n.heard[s.address := n.heard[s.address] + [Heard(|n.starts|, s)]] else n.heard)
  }

  predicate CommitMatches(n: Node, session: Option<Session>, stamp: Option<Stamp>) {
    && n.coordinated && session.Some? && session == n.session
    && (stamp.Some? ==> stamp == n.stamp)
  }

  /** The first section of the commit; every other phase and every mismatch leaves the node as it is. */
  function AcceptCommit(n: Node, session: Option<Session>, stamp: Option<Stamp>): Node {
    if CommitMatches(n, session, stamp) && n.phase.ReadyForOfficial?
    then n.(commit := true, phase := ActivatingOfficial, activations := n.activations + 1)
    else n
  }

  /** The last section of the commit, which does not look at the phase again. */
  function FinishActivation(n: Node, succeeded: bool): Node {
    if n.activations == 0 then n
    else if succeeded then n.(phase := OfficialStreaming, outputs := true, activations := n.activations - 1)
    else n.(commit := false, outputs := false, phase := StartupFailed, activations := n.activations - 1)
  }

  // ---------------------------------------------------------------- the gate thread

  predicate AllStable(n: Node) {
    n.addresses != [] && forall i :: 0 <= i < |n.addresses| && n.addresses[i] in n.stats ==> IsStable(n.stats[n.addresses[i]])
  }

  function EvidenceOf(n: Node): Evidence {
    Evidence(|n.starts|, n.session, n.addresses, n.rates, n.heard)
  }

  datatype Section =
    | SettleCheck
    | SettleOver
    | Observe(activates: bool)
    | TimeOut
    | Prepare(succeeds: bool)
    | Announce

  function At(n: Node, i: nat, pc: Pc): Node
    requires i < |n.gates|
  {
    n.(gates := n.gates[i := n.gates[i].(pc := pc)])
  }

  /** The thread's token is the current one, and the phase is the one it waits in. */
  predicate InCharge(n: Node, i: nat, phase: Phase)
    requires i < |n.gates|
  {
    n.gates[i].token == n.token && n.phase == phase
  }

  function ObserveSection(n: Node, i: nat, activates: bool): Node
    requires i < |n.gates|
  {
    if !InCharge(n, i, WarmingUp) then At(n, i, Done)
    else if !AllStable(n) then n
    else PassGate(n, i, activates)
  }

  /** Every sensor is stable: prepare for the commit, or go official at once when the start is a local one. */
  function PassGate(n: Node, i: nat, activates: bool): Node
    requires i < |n.gates|
  {
    if n.coordinated then At(n.(phase := PreparingOfficial), i, Preparing(EvidenceOf(n)))
    else if activates then At(n.(phase := OfficialStreaming, outputs := true), i, Done)
    else At(n.(phase := ActivatingOfficial), i, Done)
  }

  function PrepareSection(n: Node, i: nat, succeeds: bool): Node
    requires i < |n.gates| && n.gates[i].pc.Preparing?
  {
    if !InCharge(n, i, PreparingOfficial) then At(n, i, Done)
    else if !succeeds then At(n.(phase := StartupFailed), i, Done)
    else At(n.(phase := ReadyForOfficial), i, Announcing(n.session, n.gates[i].pc.evidence))
  }

  /** One section of gate thread `i`; a section that its program counter does not allow does nothing. */
  function GateStep(n: Node, i: nat, section: Section): (t: Node)
    requires i < |n.gates|
    ensures |t.gates| == |n.gates|
  {
    var pc := n.gates[i].pc;
    match section
    case SettleCheck => if pc.Settling? && !InCharge(n, i, WarmingUp) then At(n, i, Done) else n
    case SettleOver => if pc.Settling? then At(n, i, Observing) else n
    case Observe(activates) => if pc.Observing? then ObserveSection(n, i, activates) else n
    case TimeOut => if pc.Observing? then TimeOutSection(n, i) else n
    case Prepare(succeeds) => if pc.Preparing? then PrepareSection(n, i, succeeds) else n
    case Announce => if pc.Announcing? then At(n, i, Done) else n
  }

  function TimeOutSection(n: Node, i: nat): Node
    requires i < |n.gates|
  {
    At(if InCharge(n, i, WarmingUp) then n.(phase := StartupFailed) else n, i, Done)
  }

  /** Only the announcement sends anything: the session noted when the phase became ready, and the stamp of now. */
  function GateEmission(n: Node, i: nat, section: Section): Emission
    requires i < |n.gates|
  {
    if n.gates[i].pc.Announcing? && section.Announce?
    then Ready(n.gates[i].pc.session, n.stamp, n.gates[i].pc.evidence) else Nothing
  }

  // ---------------------------------------------------------------- runs of one node

  datatype Step =
    | Start(coordinated: bool, session: Option<Session>, stamp: Option<Stamp>, addresses: seq<Address>,
            rates: map<Address, Option<nat>>)
    | Started
    | Stopped
    | BeginStop(othersActive: bool)
    | EndStop
    | Data(sample: Sample, taken: bool)
    | Commit(commitSession: Option<Session>, commitStamp: Option<Stamp>)
    | Activated(succeeded: bool)
    | InGate(i: nat, section: Section)

  /** In a `Data` step, `taken` says whether the subject of the sample is streaming and not being stopped. */
  function Next(n: Node, step: Step): Node {
    match step
    case Start(coordinated, session, stamp, addresses, rates) =>
      StartStream(n, coordinated, session, stamp, addresses, rates)
    case Started => StreamStarted(n)
    case Stopped => StreamStopped(n)
    case BeginStop(othersActive) => StopBegin(n, othersActive)
    case EndStop => Clear(n)
    case Data(sample, _) => OnData(n, sample)
    case Commit(session, stamp) => AcceptCommit(n, session, stamp)
    case Activated(succeeded) => FinishActivation(n, succeeded)
    case InGate(i, section) => if i < |n.gates| then GateStep(n, i, section) else n
  }

  /** What the step sends: a sample goes on to its subject only in official streaming. */
  function Emitted(n: Node, step: Step): Emission {
    match step
    case Data(_, taken) => if Official(n) && taken then Persisted(n.coordinated, n.session) else Nothing
    case InGate(i, section) => if i < |n.gates| then GateEmission(n, i, section) else Nothing
    case _ => Nothing
  }

  function Run(steps: seq<Step>): Node {
    if steps == [] then NewNode() else Next(Run(steps[..|steps| - 1]), steps[|steps| - 1])
  }

  // ---------------------------------------------------------------- what every run keeps

  function Samples(heard: seq<Heard>): seq<Sample> {
    seq(|heard|, i requires 0 <= i < |heard| => heard[i].sample)
  }

  /** The samples heard for one address, all after start number `start`, make these statistics. */
  ghost predicate Replays(st: Stats, rate: Option<nat>, heard: seq<Heard>, start: nat) {
    st == RecordAll(Fresh(rate), Samples(heard)) && forall k :: 0 <= k < |heard| ==> heard[k].start == start
  }

  ghost predicate StatsOk(n: Node) {
    && n.stats.Keys == n.heard.Keys == Elements(n.addresses)
    && (forall a :: a in n.stats ==> Replays(n.stats[a], RateOf(n.rates, a), n.heard[a], |n.starts|))
    && (n.addresses != [] ==> n.starts != [] && n.session == n.starts[|n.starts| - 1])
  }

  /** The evidence is about its own start: that session, and samples heard after that start, all stable. */
  ghost predicate GoodEvidence(ev: Evidence, starts: seq<Option<Session>>) {
    && 0 < ev.start <= |starts| && starts[ev.start - 1] == ev.session
    && ev.addresses != [] && Elements(ev.addresses) <= ev.heard.Keys
    && forall a :: a in ev.addresses ==> StableEvidence(ev, a)
  }

  ghost predicate StableEvidence(ev: Evidence, a: Address) {
    && a in ev.heard
    && IsStable(RecordAll(Fresh(RateOf(ev.rates, a)), Samples(ev.heard[a])))
    && forall k :: 0 <= k < |ev.heard[a]| ==> ev.heard[a][k].start == ev.start
  }

  ghost predicate GateOk(g: Gate, token: nat, starts: seq<Option<Session>>, session: Option<Session>) {
    && g.token <= token
    && (g.pc.Preparing? ==>
          && GoodEvidence(g.pc.evidence, starts)
          && (g.token == token ==> g.pc.evidence.session == session && g.pc.evidence.start == |starts|))
    && (g.pc.Announcing? ==> GoodEvidence(g.pc.evidence, starts) && g.pc.session == g.pc.evidence.session)
  }

  ghost predicate GatesOk(n: Node) {
    forall i :: 0 <= i < |n.gates| ==> GateOk(n.gates[i], n.token, n.starts, n.session)
  }

  ghost predicate Inv(n: Node) {
    StatsOk(n) && GatesOk(n)
  }

  lemma EvidenceLasts(ev: Evidence, starts: seq<Option<Session>>, more: seq<Option<Session>>)
    requires GoodEvidence(ev, starts)
    ensures GoodEvidence(ev, starts + more)
  {
  }

  /** A bump of the token disowns every gate thread there is. */
  lemma BumpKeepsGates(n: Node, token: nat, session: Option<Session>, more: seq<Option<Session>>)
    requires GatesOk(n) && token > n.token
    ensures forall i :: 0 <= i < |n.gates| ==> GateOk(n.gates[i], token, n.starts + more, session)
  {
    forall i | 0 <= i < |n.gates| ensures GateOk(n.gates[i], token, n.starts + more, session) {
      var g := n.gates[i];
      assert GateOk(g, n.token, n.starts, n.session);
      if g.pc.Preparing? || g.pc.Announcing? {
        EvidenceLasts(g.pc.evidence, n.starts, more);
      }
    }
  }

  lemma StartKeeps(n: Node, coordinated: bool, session: Option<Session>, stamp: Option<Stamp>,
                   addresses: seq<Address>, rates: map<Address, Option<nat>>)
    requires Inv(n)
    ensures Inv(StartStream(n, coordinated, session, stamp, addresses, rates))
  {
    BumpKeepsGates(n, n.token + 1, session, [session]);
  }

  lemma BumpsKeep(n: Node, othersActive: bool)
    requires Inv(n)
    ensures Inv(StopBegin(n, othersActive)) && Inv(Clear(n))
  {
    assert n.starts + [] == n.starts;
    BumpKeepsGates(n, n.token + 1, n.session, []);
    BumpKeepsGates(n, n.token + 1, None, []);
  }

  lemma SamplesExtend(heard: seq<Heard>, h: Heard)
    ensures Samples(heard + [h]) == Samples(heard) + [h.sample]
  {
  }

  lemma RecordExtends(st: Stats, samples: seq<Sample>, s: Sample)
    ensures RecordAll(st, samples + [s]) == Record(RecordAll(st, samples), s)
  {
    assert (samples + [s])[..|samples|] == samples;
  }

  lemma ReplaysExtend(st: Stats, rate: Option<nat>, heard: seq<Heard>, start: nat, s: Sample)
    requires Replays(st, rate, heard, start)
    ensures Replays(Record(st, s), rate, heard + [Heard(start, s)], start)
  {
    SamplesExtend(heard, Heard(start, s));
    RecordExtends(Fresh(rate), Samples(heard), s);
  }

  lemma DataKeeps(n: Node, s: Sample)
    requires Inv(n)
    ensures Inv(OnData(n, s))
  {
    if Counts(n, s) {
      var t := OnData(n, s);
      ReplaysExtend(n.stats[s.address], RateOf(n.rates, s.address), n.heard[s.address], |n.starts|, s);
      forall a | a in t.stats ensures Replays(t.stats[a], RateOf(t.rates, a), t.heard[a], |t.starts|) {
        if a != s.address {
          assert Replays(n.stats[a], RateOf(n.rates, a), n.heard[a], |n.starts|);
        }
      }
    }
  }

  lemma StableIsEvidence(n: Node)
    requires Inv(n) && AllStable(n)
    ensures GoodEvidence(EvidenceOf(n), n.starts)
  {
    var ev := EvidenceOf(n);
    forall a | a in ev.addresses ensures StableEvidence(ev, a) {
      var i :| 0 <= i < |n.addresses| && n.addresses[i] == a;
      assert n.addresses[i] in n.stats;
      assert Replays(n.stats[a], RateOf(n.rates, a), n.heard[a], |n.starts|);
    }
  }

  lemma AtKeeps(n: Node, i: nat, pc: Pc)
    requires Inv(n) && i < |n.gates| && GateOk(n.gates[i].(pc := pc), n.token, n.starts, n.session)
    ensures Inv(At(n, i, pc))
  {
    var t := At(n, i, pc);
    forall j | 0 <= j < |t.gates| ensures GateOk(t.gates[j], t.token, t.starts, t.session) {
      assert GateOk(n.gates[j], n.token, n.starts, n.session);
    }
  }

  lemma PhaseKeeps(n: Node, phase: Phase, outputs: bool)
    requires Inv(n)
    ensures Inv(n.(phase := phase)) && Inv(n.(phase := phase, outputs := outputs))
  {
  }

  /** A gate thread that ends or starts observing carries no evidence. */
  lemma PlainKeeps(n: Node, i: nat, pc: Pc)
    requires Inv(n) && i < |n.gates| && !pc.Preparing? && !pc.Announcing?
    ensures Inv(At(n, i, pc))
  {
    assert GateOk(n.gates[i], n.token, n.starts, n.session);
    AtKeeps(n, i, pc);
  }

  lemma ObserveKeeps(n: Node, i: nat, activates: bool)
    requires Inv(n) && i < |n.gates| && n.gates[i].pc.Observing?
    ensures Inv(ObserveSection(n, i, activates))
  {
    var g := n.gates[i];
    assert GateOk(g, n.token, n.starts, n.session);
    PlainKeeps(n, i, Done);
    if g.token == n.token && n.phase.WarmingUp? && AllStable(n) {
      if n.coordinated {
        StableIsEvidence(n);
        var t := n.(phase := PreparingOfficial);
        PhaseKeeps(n, PreparingOfficial, n.outputs);
        AtKeeps(t, i, Preparing(EvidenceOf(n)));
      } else {
        PhaseKeeps(n, OfficialStreaming, true);
        PlainKeeps(n.(phase := OfficialStreaming, outputs := true), i, Done);
        PhaseKeeps(n, ActivatingOfficial, n.outputs);
        PlainKeeps(n.(phase := ActivatingOfficial), i, Done);
      }
    }
  }

  lemma PrepareKeeps(n: Node, i: nat, succeeds: bool)
    requires Inv(n) && i < |n.gates| && n.gates[i].pc.Preparing?
    ensures Inv(PrepareSection(n, i, succeeds))
  {
    var g := n.gates[i];
    assert GateOk(g, n.token, n.starts, n.session);
    PlainKeeps(n, i, Done);
    PhaseKeeps(n, StartupFailed, n.outputs);
    PlainKeeps(n.(phase := StartupFailed), i, Done);
    if g.token == n.token {
      PhaseKeeps(n, ReadyForOfficial, n.outputs);
      AtKeeps(n.(phase := ReadyForOfficial), i, Announcing(n.session, g.pc.evidence));
    }
  }

  lemma GateKeeps(n: Node, i: nat, section: Section)
    requires Inv(n) && i < |n.gates|
    ensures Inv(GateStep(n, i, section))
  {
    match section
    case SettleOver => PlainKeeps(n, i, Observing);
    case Observe(activates) => if n.gates[i].pc.Observing? { ObserveKeeps(n, i, activates); }
    case TimeOut =>
      PhaseKeeps(n, StartupFailed, n.outputs);
      PlainKeeps(if InCharge(n, i, WarmingUp) then n.(phase := StartupFailed) else n, i, Done);
    case Prepare(succeeds) => if n.gates[i].pc.Preparing? { PrepareKeeps(n, i, succeeds); }
    case _ => PlainKeeps(n, i, Done);
  }

  lemma StepKeeps(n: Node, step: Step)
    requires Inv(n)
    ensures Inv(Next(n, step))
  {
    match step
    case Start(coordinated, session, stamp, addresses, rates) =>
      StartKeeps(n, coordinated, session, stamp, addresses, rates);
    case BeginStop(othersActive) => BumpsKeep(n, othersActive);
    case EndStop => BumpsKeep(n, false);
    case Data(sample, _) => DataKeeps(n, sample);
    case InGate(i, section) => if i < |n.gates| { GateKeeps(n, i, section); }
    case Started => CallbacksKeep(n);
    case Stopped => CallbacksKeep(n);
    case Commit(session, stamp) => CommitKeeps(n, session, stamp);
    case Activated(succeeded) => ActivationKeeps(n, succeeded);
  }

  lemma CallbacksKeep(n: Node)
    requires Inv(n)
    ensures Inv(StreamStarted(n)) && Inv(StreamStopped(n))
  {
  }

  lemma CommitKeeps(n: Node, session: Option<Session>, stamp: Option<Stamp>)
    requires Inv(n)
    ensures Inv(AcceptCommit(n, session, stamp))
  {
  }

  lemma ActivationKeeps(n: Node, succeeded: bool)
    requires Inv(n)
    ensures Inv(FinishActivation(n, succeeded))
  {
  }

  lemma {:induction false} RunKeeps(steps: seq<Step>)
    ensures Inv(Run(steps))
  {
    if steps != [] {
      RunKeeps(steps[..|steps| - 1]);
      StepKeeps(Run(steps[..|steps| - 1]), steps[|steps| - 1]);
    }
  }

  // ---------------------------------------------------------------- what follows for every run

  lemma ReadyIsGood(n: Node, step: Step)
    requires Inv(n)
    ensures var e := Emitted(n, step); e.Ready? ==> e.session == e.evidence.session && GoodEvidence(e.evidence, n.starts)
  {
    if step.InGate? && step.i < |n.gates| {
      assert GateOk(n.gates[step.i], n.token, n.starts, n.session);
    }
  }

  /** A ready announcement names the session of the start whose own samples, all heard after that start, were stable. */
  lemma ReadyBelongsToItsStart(steps: seq<Step>, step: Step)
    ensures var n, e := Run(steps), Emitted(Run(steps), step);
            e.Ready? ==> e.session == e.evidence.session && GoodEvidence(e.evidence, n.starts)
  {
    RunKeeps(steps);
    ReadyIsGood(Run(steps), step);
  }

  /**
   A gate thread with an old token changes nothing but itself, and sends nothing unless its announcement
   was already under way when the token changed.
   */
  lemma StaleGateIsInert(n: Node, i: nat, section: Section)
    requires i < |n.gates| && n.gates[i].token != n.token
    ensures var t := GateStep(n, i, section);
            && t == n.(gates := t.gates) && |t.gates| == |n.gates| && t.gates[i].token == n.gates[i].token
            && (forall j :: 0 <= j < |n.gates| && j != i ==> t.gates[j] == n.gates[j])
            && (t.gates[i].pc.Announcing? ==> t.gates[i].pc == n.gates[i].pc)
    ensures GateEmission(n, i, section).Ready? <==> n.gates[i].pc.Announcing? && section.Announce?
  {
    StaleGoesNowhere(n, i, section);
  }

  /** An old token fails every test, so the thread ends, or goes on to its next test. */
  lemma StaleGoesNowhere(n: Node, i: nat, section: Section)
    requires i < |n.gates| && n.gates[i].token != n.token
    ensures GateStep(n, i, section) in [n, At(n, i, Done), At(n, i, Observing)]
  {
    match section
    case Observe(activates) => assert ObserveSection(n, i, activates) == At(n, i, Done);
    case Prepare(succeeds) => if n.gates[i].pc.Preparing? { assert PrepareSection(n, i, succeeds) == At(n, i, Done); }
    case TimeOut => assert TimeOutSection(n, i) == At(n, i, Done);
    case _ =>
  }

  ghost predicate OldAndQuiet(n: Node, i: nat) {
    i < |n.gates| && n.gates[i].token < n.token && !n.gates[i].pc.Announcing?
  }

  lemma StaleStaysStale(n: Node, i: nat, step: Step)
    requires OldAndQuiet(n, i)
    ensures OldAndQuiet(Next(n, step), i)
    ensures step.InGate? && step.i == i ==> Emitted(n, step).Nothing? && Next(n, step).phase == n.phase
  {
    if step.InGate? && step.i < |n.gates| {
      GateLeavesOthers(n, step.i, step.section);
      if step.i == i {
        StaleGateIsInert(n, i, step.section);
      }
    }
  }

  ghost predicate OnlyGate(n: Node, t: Node, j: nat) {
    t.token == n.token && |t.gates| == |n.gates| && forall i :: 0 <= i < |n.gates| && i != j ==> t.gates[i] == n.gates[i]
  }

  lemma ObserveLeavesOthers(n: Node, j: nat, activates: bool)
    requires j < |n.gates|
    ensures OnlyGate(n, ObserveSection(n, j, activates), j)
  {
    var stable := AllStable(n);
  }

  lemma PrepareLeavesOthers(n: Node, j: nat, succeeds: bool)
    requires j < |n.gates| && n.gates[j].pc.Preparing?
    ensures OnlyGate(n, PrepareSection(n, j, succeeds), j)
  {
  }

  lemma GateLeavesOthers(n: Node, j: nat, section: Section)
    requires j < |n.gates|
    ensures OnlyGate(n, GateStep(n, j, section), j)
  {
    match section
    case Observe(activates) => ObserveLeavesOthers(n, j, activates);
    case Prepare(succeeds) => if n.gates[j].pc.Preparing? { PrepareLeavesOthers(n, j, succeeds); }
    case _ =>
  }

  /** Once its token is old, a gate thread that is not announcing yet never changes the phase and never announces. */
  lemma {:induction false} OldGateStaysQuiet(steps: seq<Step>, more: seq<Step>, i: nat, section: Section)
    requires i < |Run(steps).gates| && Run(steps).gates[i].token != Run(steps).token
    requires !Run(steps).gates[i].pc.Announcing?
    ensures var n := Run(steps + more);
            && OldAndQuiet(n, i)
            && Emitted(n, InGate(i, section)).Nothing? && Next(n, InGate(i, section)).phase == n.phase
  {
    if more == [] {
      assert steps + more == steps;
      RunKeeps(steps);
      assert GateOk(Run(steps).gates[i], Run(steps).token, Run(steps).starts, Run(steps).session);
    } else {
      var k := |more| - 1;
      OldGateStaysQuiet(steps, more[..k], i, section);
      assert (steps + more)[..|steps + more| - 1] == steps + more[..k];
      StaleStaysStale(Run(steps + more[..k]), i, more[k]);
    }
    StaleStaysStale(Run(steps + more), i, InGate(i, section));
  }

  // ---------------------------------------------------------------- which samples are stable

  /** No two neighbouring timestamps are a gap apart. */
  ghost predicate NoGaps(rate: nat, samples: seq<Sample>)
    requires rate > 0
  {
    forall k :: 0 < k < |samples| ==> NoGapAt(rate, samples, k)
  }

  ghost predicate NoGapAt(rate: nat, samples: seq<Sample>, k: nat)
    requires rate > 0 && 0 < k < |samples|
  {
    samples[k - 1].timestamp.Some? && samples[k].timestamp.Some? ==>
      !BatchGap(samples[k].timestamp.value - samples[k - 1].timestamp.value, rate)
  }

  /** The statistics in terms of the samples themselves. */
  lemma {:induction false} StatsAre(expected: Option<nat>, samples: seq<Sample>, rate: nat)
    requires samples != [] && rate > 0 && GateRate(expected, samples[0], rate)
    ensures var st := RecordAll(Fresh(expected), samples);
            && st.expectedRate == Some(rate) && st.packets == |samples|
            && st.firstWall == Some(samples[0].wall) && st.lastWall == Some(samples[|samples| - 1].wall)
            && st.lastTimestamp == samples[|samples| - 1].timestamp
            && (st.gaps == 0 <==> NoGaps(rate, samples)) && (st.gaps == 0 ==> st.dropped == 0)
  {
    var n := |samples| - 1;
    var front := samples[..n];
    if n == 0 {
      assert RecordAll(Fresh(expected), front) == Fresh(expected);
    } else {
      StatsAre(expected, front, rate);
      NoGapsExtends(rate, samples);
      if samples[n - 1].timestamp.Some? && samples[n].timestamp.Some? {
        var observed := samples[n].timestamp.value - samples[n - 1].timestamp.value;
        SameGapTest(observed, rate);
        if GateGap(observed, rate) {
          GapDropsAPacket(observed, rate);
        }
      }
    }
  }

  lemma NoGapsExtends(rate: nat, samples: seq<Sample>)
    requires rate > 0 && |samples| > 1
    ensures var n := |samples| - 1;
            NoGaps(rate, samples) <==> NoGaps(rate, samples[..n]) && NoGapAt(rate, samples, n)
  {
    var front := samples[..|samples| - 1];
    forall k | 0 < k < |front| ensures NoGapAt(rate, front, k) == NoGapAt(rate, samples, k) {
    }
  }

  /**
   Which recordings pass the gate: enough packets, heard over two seconds at 95% of the rate or more, and
   no two neighbouring timestamps a gap apart.
   */
  lemma StableExactlyWhen(expected: Option<nat>, samples: seq<Sample>, rate: nat)
    requires samples != [] && rate > 0 && GateRate(expected, samples[0], rate)
    ensures var n := |samples|;
            var span := samples[n - 1].wall - samples[0].wall;
            IsStable(RecordAll(Fresh(expected), samples)) <==>
              && n >= RequiredPackets(Some(rate)) && span >= MIN_OBSERVATION
              && (n - 1) * MICROS * 100 >= 95 * rate * span && NoGaps(rate, samples)
  {
    StatsAre(expected, samples, rate);
  }

  // ---------------------------------------------------------------- a regular stream

  /** The time of sample `k` at this rate, on a clock of whole microseconds. */
  function TimeAt(rate: nat, k: nat): (t: nat)
    requires rate > 0
    ensures t * rate <= k * MICROS < (t + 1) * rate
  {
    var t := k * MICROS / rate;
    assert k * MICROS == t * rate + k * MICROS % rate;
    t
  }

  function RegularStream(rate: nat, n: nat): seq<Sample>
    requires rate > 0
  {
    seq(n, k requires 0 <= k < n => Sample("", Some(TimeAt(rate, k)), Some(rate), TimeAt(rate, k)))
  }

  lemma NotAfter(x: int, y: int, rate: nat)
    requires rate > 0
    ensures (x - 1) * rate < y * rate ==> x <= y
  {
    if x > y {
      assert (x - 1) * rate == y * rate + (x - 1 - y) * rate;
    }
  }

  /** When the largest interval that is no gap covers a period, no interval of the clock is a gap. */
  lemma ClockShowsNoGap(rate: nat, k: nat)
    requires rate > 0 && k > 0 && 1_500_000 / rate * rate >= MICROS
    ensures !BatchGap(TimeAt(rate, k) - TimeAt(rate, k - 1), rate)
  {
    var c, step := 1_500_000 / rate, TimeAt(rate, k) - TimeAt(rate, k - 1);
    assert (step - 1) * rate == TimeAt(rate, k) * rate - (TimeAt(rate, k - 1) + 1) * rate;
    assert k * MICROS - (k - 1) * MICROS == MICROS;
    NotAfter(step, c, rate);
    DivisionThreshold(step, 1_500_000, rate);
  }

  /** When it does not, the intervals up to the first second cannot all be that short. */
  lemma {:induction false} TimeIsBounded(rate: nat, n: nat, k: nat)
    requires rate > 0 && k < n && NoGaps(rate, RegularStream(rate, n))
    ensures TimeAt(rate, k) <= k * (1_500_000 / rate)
  {
    if k > 0 {
      TimeIsBounded(rate, n, k - 1);
      var samples := RegularStream(rate, n);
      var step := samples[k].timestamp.value - samples[k - 1].timestamp.value;
      assert NoGapAt(rate, samples, k);
      DivisionThreshold(step, 1_500_000, rate);
    } else {
      TimeZero(rate);
    }
  }

  lemma TimeZero(rate: nat)
    requires rate > 0
    ensures TimeAt(rate, 0) == 0 && TimeAt(rate, rate) == MICROS
  {
    assert rate * MICROS / rate == MICROS by {
      NotAfter(TimeAt(rate, rate), MICROS, rate);
      NotAfter(MICROS, TimeAt(rate, rate), rate);
    }
  }

  lemma ClockShowsNoGapExactlyWhen(rate: nat, n: nat)
    requires rate > 0 && n > rate
    ensures NoGaps(rate, RegularStream(rate, n)) <==> 1_500_000 / rate * rate >= MICROS
  {
    var samples := RegularStream(rate, n);
    if 1_500_000 / rate * rate >= MICROS {
      forall k | 0 < k < |samples| ensures NoGapAt(rate, samples, k) {
        ClockShowsNoGap(rate, k);
      }
    }
    if NoGaps(rate, samples) {
      TimeIsBounded(rate, n, rate);
      TimeZero(rate);
      assert MICROS <= rate * (1_500_000 / rate);
    }
  }

  /** The first packet past two seconds is number `2 * rate`. */
  lemma TwoSeconds(rate: nat, k: nat)
    requires rate > 0
    ensures TimeAt(rate, k) >= MIN_OBSERVATION <==> k >= 2 * rate
    ensures k * MICROS * 100 >= 95 * rate * TimeAt(rate, k)
  {
    var t := TimeAt(rate, k);
    assert MIN_OBSERVATION * rate == 2 * rate * MICROS;
    if k >= 2 * rate {
      assert k * MICROS >= MIN_OBSERVATION * rate;
      NotAfter(MIN_OBSERVATION, t, rate);
    } else {
      assert k * MICROS < MIN_OBSERVATION * rate;
      NotAfter(t + 1, MIN_OBSERVATION, rate);
    }
    assert 95 * rate * t == 95 * (t * rate);
  }

  /**
   A stream that keeps its rate, on a clock of whole microseconds, passes the gate exactly from the packet
   at two seconds on, provided that whole periods fit into the gap threshold. At the rates for which they
   do not, the clock itself shows gaps.
   */
  lemma RegularStreamIsStable(rate: nat, n: nat)
    requires rate > 0 && n > 0
    ensures IsStable(RecordAll(Fresh(Some(rate)), RegularStream(rate, n))) <==>
            n > 2 * rate && 1_500_000 / rate * rate >= MICROS
  {
    StableExactlyWhen(Some(rate), RegularStream(rate, n), rate);
    TimeZero(rate);
    TwoSeconds(rate, n - 1);
    if n > 2 * rate {
      ClockShowsNoGapExactlyWhen(rate, n);
    }
  }

  // ---------------------------------------------------------------- facts for the barrier

  ghost predicate SameSession(n: Node, t: Node) {
    t.coordinated == n.coordinated && t.session == n.session && t.commit == n.commit && t.starts == n.starts
  }

  lemma ObserveKeepsSession(n: Node, i: nat, activates: bool)
    requires i < |n.gates|
    ensures SameSession(n, ObserveSection(n, i, activates))
  {
    var stable := AllStable(n);
  }

  lemma PrepareKeepsSession(n: Node, i: nat, succeeds: bool)
    requires i < |n.gates| && n.gates[i].pc.Preparing?
    ensures SameSession(n, PrepareSection(n, i, succeeds))
  {
  }

  lemma GateKeepsSession(n: Node, i: nat, section: Section)
    requires i < |n.gates|
    ensures SameSession(n, GateStep(n, i, section))
  {
    match section
    case Observe(activates) => ObserveKeepsSession(n, i, activates);
    case Prepare(succeeds) => if n.gates[i].pc.Preparing? { PrepareKeepsSession(n, i, succeeds); }
    case TimeOut => assert SameSession(n, TimeOutSection(n, i));
    case _ =>
  }

  /** Only a commit makes a node committed, and a committed node keeps its session. */
  lemma OnlyCommitCommits(n: Node, step: Step)
    ensures var t := Next(n, step);
            t.coordinated && t.commit ==>
              && t.session == n.session
              && ((n.coordinated && n.commit) || (step.Commit? && CommitMatches(n, step.commitSession, step.commitStamp)))
  {
    if step.InGate? && step.i < |n.gates| {
      GateKeepsSession(n, step.i, step.section);
    }
  }

  lemma StartsGrow(n: Node, step: Step)
    ensures var t := Next(n, step); n.starts <= t.starts
  {
    if step.InGate? && step.i < |n.gates| {
      GateKeepsSession(n, step.i, step.section);
    }
  }

  // ---------------------------------------------------------------- which samples are passed on

  /** A sample goes on exactly in official streaming with the outputs on, for a coordinated start only after its commit. */
  lemma PassesExactly(n: Node, s: Sample, taken: bool)
    ensures var e := Emitted(n, Data(s, taken));
            if taken && n.phase == OfficialStreaming && n.outputs && (n.coordinated ==> n.commit)
            then e == Persisted(n.coordinated, n.session) else e == Nothing
  {
  }

  /** A sample is counted exactly while the node starts or warms up, for an address of the start, when it has a rate. */
  lemma CountsExactly(n: Node, s: Sample, taken: bool, a: Address)
    requires a in n.stats
    ensures var t := Next(n, Data(s, taken));
            && a in t.stats && t.phase == n.phase && t.outputs == n.outputs
            && t.stats[a].packets == n.stats[a].packets
                 + (if a == s.address && (n.phase == Starting || n.phase == WarmingUp) && s.rate.Some? then 1 else 0)
  {
  }

  /** All sensors of the start are stable, and there is one. */
  ghost predicate EverySensorStable(n: Node) {
    n.addresses != [] && forall a :: a in n.addresses && a in n.stats ==> IsStable(n.stats[a])
  }

  /** The outputs are switched on exactly by the gate of a local start, in charge of stable sensors, or by a finished activation. */
  lemma SwitchedOnExactly(n: Node, step: Step)
    requires !n.outputs
    ensures Next(n, step).outputs <==>
            || (step == Activated(true) && n.activations > 0)
            || (&& step.InGate? && step.i < |n.gates| && step.section == Observe(true) && n.gates[step.i].pc == Observing
                && n.gates[step.i].token == n.token && n.phase == WarmingUp && EverySensorStable(n) && !n.coordinated)
  {
    assert EverySensorStable(n) <==> AllStable(n) by {
      if AllStable(n) {
        forall a | a in n.addresses && a in n.stats ensures IsStable(n.stats[a]) {
          var i :| 0 <= i < |n.addresses| && n.addresses[i] == a;
        }
      }
      if EverySensorStable(n) {
        forall i | 0 <= i < |n.addresses| && n.addresses[i] in n.stats ensures IsStable(n.stats[n.addresses[i]]) {
          assert n.addresses[i] in n.addresses;
        }
      }
    }
    if step.InGate? && step.i < |n.gates| {
      GateSwitchesOn(n, step.i, step.section);
    }
  }

  lemma GateSwitchesOn(n: Node, i: nat, section: Section)
    requires i < |n.gates| && !n.outputs
    ensures GateStep(n, i, section).outputs <==>
            section == Observe(true) && n.gates[i].pc == Observing && InCharge(n, i, WarmingUp) && AllStable(n) && !n.coordinated
  {
    match section
    case Observe(activates) => ObserveSwitchesOn(n, i, activates);
    case _ =>
  }

  lemma ObserveSwitchesOn(n: Node, i: nat, activates: bool)
    requires i < |n.gates| && !n.outputs
    ensures ObserveSection(n, i, activates).outputs <==> activates && InCharge(n, i, WarmingUp) && AllStable(n) && !n.coordinated
  {
    var stable := AllStable(n);
  }

  /** Each section of a gate thread in charge, exactly; a local gate that passes streams at once. */
  lemma GateExactly(n: Node, i: nat)
    requires i < |n.gates| && n.gates[i].token == n.token
    ensures n.gates[i].pc == Observing && n.phase == WarmingUp && !AllStable(n) ==> GateStep(n, i, Observe(true)) == n
    ensures n.gates[i].pc == Observing && n.phase == WarmingUp && AllStable(n) && n.coordinated ==>
              var t := GateStep(n, i, Observe(true)); t.phase == PreparingOfficial && t.gates[i].pc.Preparing?
    ensures n.gates[i].pc == Observing && n.phase == WarmingUp && AllStable(n) && !n.coordinated ==>
              var t := GateStep(n, i, Observe(true)); t.phase == OfficialStreaming && t.outputs && t.gates[i].pc == Done
    ensures n.gates[i].pc == Observing && n.phase == WarmingUp ==>
              GateStep(n, i, TimeOut).phase == StartupFailed && GateStep(n, i, TimeOut).gates[i].pc == Done
    ensures n.gates[i].pc.Preparing? && n.phase == PreparingOfficial ==>
              && GateStep(n, i, Prepare(true)).phase == ReadyForOfficial && GateStep(n, i, Prepare(true)).gates[i].pc.Announcing?
              && GateStep(n, i, Prepare(true)).gates[i].pc.session == n.session
              && GateStep(n, i, Prepare(false)).phase == StartupFailed && GateStep(n, i, Prepare(false)).gates[i].pc == Done
  {
  }

  /** From the ready phase, a matching commit and its activation let the next taken sample through. */
  lemma CommitOpens(n: Node, stamp: Option<Stamp>, s: Sample)
    requires n.phase == ReadyForOfficial && n.coordinated && n.session.Some? && (stamp.Some? ==> stamp == n.stamp)
    ensures var t := Next(Next(n, Commit(n.session, stamp)), Activated(true));
            Emitted(t, Data(s, true)) == Persisted(true, n.session)
  {
  }

  /** An activation that ends goes official or fails, whatever the phase is by then, and a failure shuts the outputs. */
  lemma ActivationEnds(n: Node)
    requires n.activations > 0
    ensures var t := Next(n, Activated(true));
            t.phase == OfficialStreaming && t.outputs && t.commit == n.commit && t.activations == n.activations - 1
    ensures var t := Next(n, Activated(false));
            t.phase == StartupFailed && !t.outputs && !t.commit && t.activations == n.activations - 1
    ensures forall succeeded ::
              var t := Next(n, Activated(succeeded));
              t.token == n.token && t.session == n.session && t.stamp == n.stamp && t.addresses == n.addresses && t.gates == n.gates
  {
  }

  /** Any other commit changes nothing. */
  lemma OtherCommitsAreIgnored(n: Node, session: Option<Session>, stamp: Option<Stamp>)
    requires n.phase != ReadyForOfficial || !n.coordinated || session.None? || session != n.session || (stamp.Some? && stamp != n.stamp)
    ensures Next(n, Commit(session, stamp)) == n
  {
  }

  /** The callbacks of a start and of a stop. */
  lemma CallbacksExactly(n: Node)
    ensures var t := Next(n, Started);
            if n.addresses == [] then t == n
            else t.phase == WarmingUp && t.token == n.token && t.gates == n.gates + [Gate(n.token, Settling)]
    ensures Next(n, Stopped).phase == if n.phase == StartupFailed || n.phase == OfficialStreaming then n.phase else Idle
  {
  }

  /** A stop disowns the gate threads unless other subjects stream; its end, or a Reset, forgets the start. */
  lemma StopsExactly(n: Node, othersActive: bool)
    ensures var t := Next(n, BeginStop(othersActive));
            if othersActive then t == n
            else t.token == n.token + 1 && (t.phase == Stopping || ((n.phase == Idle || n.phase == StartupFailed) && t.phase == n.phase))
  {
  }

  lemma ClearsExactly(n: Node)
    ensures var t := Next(n, EndStop); t.token == n.token + 1 && t.phase == Idle && !t.outputs && !t.commit && t.session.None? && t.addresses == []
  {
  }

  /** A start replaces everything about the one before: nothing of it is counted, committed or passed on any more. */
  lemma StartsExactly(n: Node, coordinated: bool, session: Option<Session>, stamp: Option<Stamp>,
                      addresses: seq<Address>, rates: map<Address, Option<nat>>, a: Address)
    ensures var t := Next(n, Start(coordinated, session, stamp, addresses, rates));
            && t.phase == Starting && t.token == n.token + 1 && t.session == session && t.stamp == stamp && t.coordinated == coordinated
            && !t.commit && !t.outputs && t.addresses == addresses && t.gates == n.gates
            && (a in t.stats <==> a in addresses)
            && (a in addresses ==> t.stats[a] == Stats(if a in rates then rates[a] else None, None, None, None, 0, 0, 0))
  {
  }

  // ---------------------------------------------------------------- an announcement can be late

  const OneHertz: map<Address, Option<nat>> := map["A" := Some(1)]

  function Tick(k: nat): Sample {
    Sample("A", None, Some(1), k * MICROS)
  }

  function StartOf(session: Session, stamp: Stamp): Step {
    Start(true, Some(session), Some(stamp), ["A"], OneHertz)
  }

  /** Three samples at one hertz pass the gate; the next start comes between the decision and the announcement. */
  function LateRun(): seq<Step> {
    [StartOf("first", "noon"), Started, Data(Tick(0), false), Data(Tick(1), false), Data(Tick(2), false),
     InGate(0, SettleOver), InGate(0, Observe(true)), InGate(0, Prepare(true)), StartOf("second", "one")]
  }

  lemma RunStep(steps: seq<Step>, step: Step)
    ensures Run(steps + [step]) == Next(Run(steps), step)
  {
    assert (steps + [step])[..|steps|] == steps;
  }

  lemma ThreeTicksAreStable()
    ensures var st := Record(Record(Record(Fresh(Some(1)), Tick(0)), Tick(1)), Tick(2));
            IsStable(st)
  {
  }

  /** The node after its samples were counted: warming up, one gate thread settling. */
  lemma TicksCounted() returns (n: Node)
    ensures n == Run(LateRun()[..5])
    ensures n.phase == WarmingUp && n.coordinated && n.session == Some("first") && n.addresses == ["A"] && AllStable(n)
            && n.gates == [Gate(n.token, Settling)]
  {
    var steps := LateRun();
    var n1 := StartStream(NewNode(), true, Some("first"), Some("noon"), ["A"], OneHertz);
    assert n1.stats == map["A" := Fresh(Some(1))];
    assert steps[..1] == [] + [steps[0]] && steps[..2] == steps[..1] + [steps[1]] && steps[..3] == steps[..2] + [steps[2]]
           && steps[..4] == steps[..3] + [steps[3]] && steps[..5] == steps[..4] + [steps[4]];
    RunStep([], steps[0]);
    RunStep(steps[..1], steps[1]);
    var n2 := Run(steps[..2]);
    assert n2 == StreamStarted(n1);
    RunStep(steps[..2], steps[2]);
    RunStep(steps[..3], steps[3]);
    RunStep(steps[..4], steps[4]);
    n := OnData(OnData(OnData(n2, Tick(0)), Tick(1)), Tick(2));
    ThreeTicksAreStable();
    assert n.stats["A"] == Record(Record(Record(Fresh(Some(1)), Tick(0)), Tick(1)), Tick(2));
  }

  /** A gate thread in charge of stable sensors decides that the node is ready. */
  lemma GateDecides(n: Node) returns (t: Node)
    requires n.phase == WarmingUp && n.coordinated && AllStable(n) && n.gates == [Gate(n.token, Settling)]
    ensures t == GateStep(GateStep(GateStep(n, 0, SettleOver), 0, Observe(true)), 0, Prepare(true))
    ensures t.token == n.token && t.gates == [Gate(n.token, Announcing(n.session, EvidenceOf(n)))]
  {
    var n1 := GateStep(n, 0, SettleOver);
    assert n1 == n.(gates := [Gate(n.token, Observing)]) && AllStable(n1);
    var n2 := GateStep(n1, 0, Observe(true));
    assert n2 == n1.(phase := PreparingOfficial, gates := [Gate(n.token, Preparing(EvidenceOf(n)))]);
    t := GateStep(n2, 0, Prepare(true));
  }

  lemma LateStarts(steps: seq<Step>, n: Node) returns (t: Node)
    requires steps == LateRun() && n == Run(steps[..5])
    requires n.gates == [Gate(n.token, Settling)]
    ensures t == GateStep(GateStep(GateStep(n, 0, SettleOver), 0, Observe(true)), 0, Prepare(true))
    ensures Run(steps) == StartStream(t, true, Some("second"), Some("one"), ["A"], OneHertz)
  {
    assert steps[..6] == steps[..5] + [steps[5]] && steps[..7] == steps[..6] + [steps[6]]
           && steps[..8] == steps[..7] + [steps[7]] && steps == steps[..8] + [steps[8]];
    RunStep(steps[..5], steps[5]);
    RunStep(steps[..6], steps[6]);
    RunStep(steps[..7], steps[7]);
    RunStep(steps[..8], steps[8]);
    GateLeavesOthers(n, 0, SettleOver);
    var n1 := GateStep(n, 0, SettleOver);
    GateLeavesOthers(n1, 0, Observe(true));
    t := GateStep(GateStep(n1, 0, Observe(true)), 0, Prepare(true));
  }

  /**
   The announcement leaves outside the lock, so a gate thread can announce after its token became old; it
   still names its own session, next to the time stamp of the newer start.
   */
  lemma AnnouncementCanBeLate()
    ensures var n := Run(LateRun());
            && |n.gates| == 1 && n.gates[0].token != n.token && n.session == Some("second")
            && var e := Emitted(n, InGate(0, Announce));
               e.Ready? && e.session == Some("first") && e.stamp == Some("one")
  {
    var steps := LateRun();
    var n := TicksCounted();
    var t := LateStarts(steps, n);
    var u := GateDecides(n);
  }
}
