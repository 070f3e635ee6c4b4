/**
 Ordered Connect All: subjects are discovered and connected one at a time.

 Addresses are the normalized ones (stripped and upper-cased); an absent address is "". Tokens and
 sequence ids are numbered in the order they are made, so each is fresh.
 */
module ConnectionSequence {
  import opened Wrappers

  type NodeId = string
  type SubjectId = string
  type Address = string
  type Location = string

  datatype Subject = Subject(id: SubjectId, node: NodeId, locations: seq<Location>)

  datatype Operation = Discovering | Connecting

  datatype Pending = Pending(token: nat, subject: Subject, op: Operation)

  /** What leaves the sequence: commands to nodes, and the progress events that matter here. */
  datatype Output =
    | Command(node: NodeId, subject: SubjectId, op: Operation, token: nat, excluded: set<Address>, chosen: seq<Address>)
    | Identify(node: NodeId, subject: SubjectId)
    | Failed
    | Refused
    | Finished

  /**
   `confirmed`, `issued` and `disturbed` are history: the pairing each subject was confirmed with, the
   steps issued since the last start, and whether an out-of-sequence report hit a subject behind the cursor.
   */
  datatype State = State(
    subjects: seq<Subject>,
    selected: map<SubjectId, seq<Address>>,
    completed: set<SubjectId>,
    discovered: set<SubjectId>,
    active: bool,
    pending: Option<Pending>,
    timer: Option<nat>,
    sequence: Option<nat>,
    index: nat,
    nextToken: nat,
    out: seq<Output>,
    confirmed: map<SubjectId, multiset<(Address, Location)>>,
    issued: seq<(nat, Operation)>,
    disturbed: bool)

  // ---------------------------------------------------------------- events

  datatype Sensor = Sensor(address: Address, location: Location, connected: bool, setUp: bool)

  datatype SubjectResult = SubjectResult(subject: SubjectId, discovered: seq<Address>, connected: seq<Sensor>)

  datatype Kind = SensorsDiscovered | SensorConnected | Error

  datatype Event =
    | CleanupStarted
    | CleanupComplete(node: NodeId, recover: bool, ready: bool)
    | SensorDisconnected(lost: set<Address>)
    | Reply(kind: Kind, token: Option<nat>, sequence: Option<nat>, node: NodeId, selected: seq<Address>,
            complete: bool, results: seq<SubjectResult>)

  // ---------------------------------------------------------------- specification

  predicate Busy(s: State) {
    s.active || s.pending.Some?
  }

  predicate HasId(subjects: seq<Subject>, id: SubjectId) {
    exists i :: 0 <= i < |subjects| && subjects[i].id == id
  }

  function AddressesOfOthers(selected: map<SubjectId, seq<Address>>, id: SubjectId): set<Address> {
    set k, a | k in selected && k != id && a in selected[k] :: a
  }

  function Configure(s: State, subjects: seq<Subject>): State {
    s.(subjects := subjects, selected := map[], completed := {}, discovered := {}, active := false,
       pending := None, timer := None, sequence := None, issued := [])
  }

  function Fail(s: State): State {
    s.(active := false, timer := None, out := s.out + [Failed])
  }

  /** A discovery names the addresses to leave alone, a connection the addresses to use. */
  function CommandFor(s: State, subject: Subject, op: Operation): Output {
    match op
    case Discovering =>
      Command(subject.node, subject.id, op, s.nextToken, AddressesOfOthers(s.selected, subject.id), [])
    case Connecting =>
      Command(subject.node, subject.id, op, s.nextToken, {},
              if subject.id in s.selected then s.selected[subject.id] else [])
  }

  function Issued(s: State, subject: Subject, op: Operation): State {
    s.(pending := Some(Pending(s.nextToken, subject, op)), timer := Some(s.nextToken),
       nextToken := s.nextToken + 1, issued := s.issued + [(s.index, op)],
       out := s.out + [CommandFor(s, subject, op)])
  }

  /** Issues one step; a dispatch that raises ends the sequence. */
  function Issue(s: State, subject: Subject, op: Operation, dispatched: bool): State {
    var t := Issued(s, subject, op);
    if dispatched then t else Fail(t).(pending := None)
  }

  function NextSubject(s: State, dispatched: bool): State
    decreases |s.subjects| - s.index
  {
    if s.index >= |s.subjects| then s.(active := false, out := s.out + [Finished])
    else if s.subjects[s.index].id in s.completed then NextSubject(s.(index := s.index + 1), dispatched)
    else Issue(s, s.subjects[s.index],
               if s.subjects[s.index].id in s.discovered then Connecting else Discovering, dispatched)
  }

  function Start(s: State, dispatched: bool): State {
    if Busy(s) then s.(out := s.out + [Refused])
    else if s.subjects == [] then s
    else NextSubject(Begun(s), dispatched)
  }

  function Begun(s: State): State {
    s.(sequence := Some(s.nextToken), nextToken := s.nextToken + 1, active := true, index := 0,
       issued := [], disturbed := false)
  }

  function Expire(s: State, token: nat): State {
    if s.pending.Some? && s.pending.value.token == token && s.active then Fail(s) else s
  }

  function SubjectsOn(subjects: seq<Subject>, node: NodeId): set<SubjectId> {
    set i | 0 <= i < |subjects| && subjects[i].node == node :: subjects[i].id
  }

  function Forgotten(s: State, node: NodeId): State {
    var gone := SubjectsOn(s.subjects, node);
    s.(selected := s.selected - gone, completed := s.completed - gone, discovered := s.discovered - gone,
       disturbed := s.disturbed || (s.active && BehindIn(s, gone)))
  }

  /** A Reset retires the configuration of a node. */
  function Retire(s: State, node: NodeId): State {
    var t := Forgotten(s, node);
    if t.pending.Some? && t.pending.value.subject.node == node then
      GiveUp(t)
    else t
  }

  /** Some subject behind the cursor is among `ids`. */
  predicate BehindIn(s: State, ids: set<SubjectId>) {
    exists j :: 0 <= j < s.index && j < |s.subjects| && s.subjects[j].id in ids
  }

  /** The subjects that a loss of sensors hits. */
  function HurtIn(selected: map<SubjectId, seq<Address>>, lost: set<Address>): set<SubjectId> {
    set id | id in selected && (exists a :: a in selected[id] && a in lost)
  }

  function Lose(s: State, lost: set<Address>): State {
    var hurt := HurtIn(s.selected, lost);
    var t := s.(completed := s.completed - hurt);
    if s.active && s.completed * hurt != {} then Fail(t) else t
  }

  /** Discovery outside a sequence rewrites the selection and drops what was known of the subject. */
  function Rediscover(s: State, results: seq<SubjectResult>): State {
    if results == [] then s
    else
      var t := Rediscover(s, results[..|results| - 1]);
      var r := results[|results| - 1];
      if !HasId(t.subjects, r.subject) then t
      else Reselected(t, r)
  }

  function Reselected(s: State, r: SubjectResult): State {
    s.(completed := s.completed - {r.subject}, discovered := s.discovered - {r.subject},
       selected := s.selected[r.subject := r.discovered],
       disturbed := s.disturbed || (s.active && BehindIn(s, {r.subject})))
  }

  function ResultsFor(results: seq<SubjectResult>, id: SubjectId): seq<SubjectResult> {
    if results == [] then []
    else ResultsFor(results[..|results| - 1], id)
         + (if results[|results| - 1].subject == id then [results[|results| - 1]] else [])
  }

  predicate Distinct<T(==)>(s: seq<T>) {
    forall i, j :: 0 <= i < j < |s| ==> s[i] != s[j]
  }

  predicate GoodDiscovery(subject: Subject, addresses: seq<Address>, others: set<Address>) {
    && |addresses| == |subject.locations| && Distinct(addresses)
    && forall i :: 0 <= i < |addresses| ==> addresses[i] != "" && addresses[i] !in others
  }

  /** Addresses with the locations they are meant for, as far as both go. */
  function Pairing(addresses: seq<Address>, locations: seq<Location>): multiset<(Address, Location)> {
    var n := if |addresses| < |locations| then |addresses| else |locations|;
    multiset(seq(n, i requires 0 <= i < n => (addresses[i], locations[i])))
  }

  function Reported(sensors: seq<Sensor>): multiset<(Address, Location)> {
    multiset(seq(|sensors|, i requires 0 <= i < |sensors| => (sensors[i].address, sensors[i].location)))
  }

  function SensorAddresses(sensors: seq<Sensor>): seq<Address> {
    seq(|sensors|, i requires 0 <= i < |sensors| => sensors[i].address)
  }

  predicate GoodConnection(subject: Subject, selected: seq<Address>, sensors: seq<Sensor>) {
    var addresses := SensorAddresses(sensors);
    && |addresses| == |subject.locations| && Distinct(addresses)
    && Elements(addresses) == Elements(selected)
    && Reported(sensors) == Pairing(selected, subject.locations)
    && forall i :: 0 <= i < |sensors| ==> sensors[i].connected && sensors[i].setUp
  }

  /** The reply answers the outstanding step. */
  predicate Answers(s: State, e: Event)
    requires e.Reply?
  {
    && s.pending.Some? && e.token == Some(s.pending.value.token) && e.sequence == s.sequence
    && e.node == s.pending.value.subject.node
    && (e.kind.Error? || (e.kind.SensorsDiscovered? <==> s.pending.value.op.Discovering?))
  }

  /** The step ends without success; a sequence in progress stops. */
  function GiveUp(s: State): State {
    (if s.active then Fail(s) else s).(pending := None)
  }

  function OnDiscovered(s: State, subject: Subject, addresses: seq<Address>, valid: bool, dispatched: bool): State {
    if !valid || !GoodDiscovery(subject, addresses, AddressesOfOthers(s.selected, subject.id)) then GiveUp(s)
    else AcceptAddresses(s, subject, addresses, dispatched)
  }

  function AcceptAddresses(s: State, subject: Subject, addresses: seq<Address>, dispatched: bool): State {
    var t := s.(selected := s.selected[subject.id := addresses], discovered := s.discovered + {subject.id},
                pending := None);
    if t.active then Issue(t, subject, Connecting, dispatched) else t
  }

  function CompleteSubject(s: State, subject: Subject, sensors: seq<Sensor>, dispatched: bool): State {
    var t := s.(completed := s.completed + {subject.id}, pending := None,
                confirmed := s.confirmed[subject.id := Reported(sensors)]);
    if !t.active then t
    else NextSubject(t.(out := t.out + [Identify(subject.node, subject.id)], index := t.index + 1), dispatched)
  }

  function OnConnected(s: State, subject: Subject, sensors: seq<Sensor>, valid: bool, dispatched: bool): State {
    var selected := if subject.id in s.selected then s.selected[subject.id] else [];
    if !valid || !GoodConnection(subject, selected, sensors) then GiveUp(s)
    else CompleteSubject(s, subject, sensors, dispatched)
  }

  /** Even a partial selection is kept, for exclusion. */
  function KeepSelection(s: State, e: Event): State
    requires e.Reply? && s.pending.Some?
  {
    var p := s.pending.value;
    s.(timer := None,
       selected := if e.selected != [] && p.op.Discovering? then s.selected[p.subject.id := e.selected] else s.selected)
  }

  function OnAnswer(s: State, e: Event, dispatched: bool): State
    requires e.Reply? && Answers(s, e)
  {
    var p, t := s.pending.value, KeepSelection(s, e);
    var mine := ResultsFor(e.results, p.subject.id);
    var valid := |mine| == 1 && e.complete;
    if e.kind.Error? then GiveUp(t)
    else if p.op.Discovering? then
      OnDiscovered(t, p.subject, if mine != [] then mine[0].discovered else [], valid, dispatched)
    else OnConnected(t, p.subject, if mine != [] then mine[0].connected else [], valid, dispatched)
  }

  function OnEvent(s: State, e: Event, dispatched: bool): State {
    match e
    case CleanupStarted => if s.active then Fail(s) else s
    case CleanupComplete(node, recover, ready) => if recover && ready then Retire(s, node) else s
    case SensorDisconnected(lost) => Lose(s, lost)
    case Reply(kind, _, sequence, _, _, _, results) =>
      var t := if kind.SensorsDiscovered? && sequence.None? then Rediscover(s, results) else s;
      if Answers(t, e) then OnAnswer(t, e, dispatched) else t
  }

  // ---------------------------------------------------------------- runs

  datatype Step =
    | Configured(subjects: seq<Subject>)
    | Started(dispatched: bool)
    | TimerFired(token: nat)
    | Received(e: Event, dispatched: bool)

  predicate UniqueIds(subjects: seq<Subject>) {
    forall i, j :: 0 <= i < j < |subjects| ==> subjects[i].id != subjects[j].id
  }

  /** Configurations come from an initialization, whose subject ids are unique. */
  function Next(s: State, step: Step): State {
    match step
    case Configured(subjects) => if UniqueIds(subjects) then Configure(s, subjects) else s
    case Started(dispatched) => Start(s, dispatched)
    case TimerFired(token) => Expire(s, token)
    case Received(e, dispatched) => OnEvent(s, e, dispatched)
  }

  function Initial(): State {
    State([], map[], {}, {}, false, None, None, None, 0, 0, [], map[], [], false)
  }

  function Run(steps: seq<Step>): State {
    if steps == [] then Initial() else Next(Run(steps[..|steps| - 1]), steps[|steps| - 1])
  }
}
