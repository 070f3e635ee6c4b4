/**
 Physical STOP obligations: which sensors may still be measuring, and what lets them be used again.

 Sensor handles live in a store and are shared by identity between the configuration and the obligations,
 so a handle of an earlier configuration stays reachable through its obligation. What plugins, adapters
 and gateways do is arbitrary and comes with each command. Listener callbacks do not raise.
 */
module StopObligations {
  import opened Wrappers

  type Id = nat
  type Address = string
  type AdapterId = string

  /** Why no STOP is owed by a handle, or that one is. */
  datatype Standing = NeverStarted | Owed | PluginConfirmed | HostReported | OperatorConfirmed

  /** `standing` is history; the other fields are the program's. */
  datatype Handle = Handle(
    adapter: AdapterId,
    address: Option<Address>,
    connected: bool,
    linked: bool,
    pending: bool,
    quarantined: bool,
    standing: Standing)

  datatype State = State(
    handles: map<Id, Handle>,
    sensors: seq<Id>,
    obligations: map<Address, Option<Id>>)

  // ---------------------------------------------------------------- addresses

  function UpperChar(c: char): char {
    if 'a' <= c <= 'z' then c - 'a' + 'A' else c
  }

  function Upper(a: Address): Address {
    seq(|a|, i requires 0 <= i < |a| => UpperChar(a[i]))
  }

  /** The obligation key of a handle; an absent address has the key of the text "None". */
  function Key(h: Handle): Address {
    Upper(if h.address.Some? then h.address.value else "None")
  }

  predicate HasAddress(h: Handle) {
    h.address.Some? && h.address.value != ""
  }

  predicate Known(s: State, ids: seq<Id>) {
    forall i :: 0 <= i < |ids| ==> ids[i] in s.handles
  }

  predicate Different(ids: seq<Id>) {
    forall i, j :: 0 <= i < j < |ids| ==> ids[i] != ids[j]
  }

  /** Every handle that is named exists. */
  predicate WellFormed(s: State) {
    Known(s, s.sensors) && forall a :: a in s.obligations && s.obligations[a].Some? ==> s.obligations[a].value in s.handles
  }

  function Select(handles: map<Id, Handle>, ids: seq<Id>, wanted: Handle -> bool): seq<Id> {
    if ids == [] then []
    else
      var last := ids[|ids| - 1];
      Select(handles, ids[..|ids| - 1], wanted)
      + if last in handles && wanted(handles[last]) then [last] else []
  }

  predicate Requested(requested: Option<set<Address>>, a: Option<Address>) {
    requested.Some? ==> a.Some? && a.value in requested.value
  }

  // ---------------------------------------------------------------- connecting and starting

  /** A command works through its targets in order; once one raises, the rest is left alone. */
  datatype Progress = Progress(handles: map<Id, Handle>, raised: bool)

  predicate Reconciled(s: State, targets: seq<Id>) {
    forall i :: 0 <= i < |targets| && targets[i] in s.handles ==> Key(s.handles[targets[i]]) !in s.obligations
  }

  datatype ConnectOutcome = Refuses | Connects | ConnectsThenRaises | Raises

  function Linked(handles: map<Id, Handle>, id: Id): map<Id, Handle>
    requires id in handles
  {
    handles[id := handles[id].(connected := true, linked := true)]
  }

  function ConnectEach(handles: map<Id, Handle>, targets: seq<Id>, outcome: Id -> ConnectOutcome): Progress {
    if targets == [] then Progress(handles, false)
    else
      var p, id := ConnectEach(handles, targets[..|targets| - 1], outcome), targets[|targets| - 1];
      if p.raised || id !in p.handles then p
      else
        match outcome(id)
        case Refuses => p
        case Raises => Progress(p.handles, true)
        case Connects => Progress(Linked(p.handles, id), false)
        case ConnectsThenRaises => Progress(Linked(p.handles, id), true)
  }

  function Connect(s: State, targets: seq<Id>, outcome: Id -> ConnectOutcome): State {
    if !Reconciled(s, targets) then s else s.(handles := ConnectEach(s.handles, targets, outcome).handles)
  }

  predicate Usable(s: State, h: Handle) {
    h.connected && !h.quarantined && Key(h) !in s.obligations
  }

  function MayStart(s: State, requested: Option<set<Address>>): Handle -> bool {
    (h: Handle) => Usable(s, h) && Requested(requested, h.address)
  }

  /** The connected sensors that may be started. */
  function Startable(s: State, requested: Option<set<Address>>): seq<Id> {
    Select(s.handles, s.sensors, MayStart(s, requested))
  }

  function StartEach(handles: map<Id, Handle>, targets: seq<Id>, raises: Id -> bool): Progress {
    if targets == [] then Progress(handles, false)
    else
      var p, id := StartEach(handles, targets[..|targets| - 1], raises), targets[|targets| - 1];
      if p.raised || id !in p.handles then p
      else if p.handles[id].quarantined then Progress(p.handles, true)
      else Progress(p.handles[id := p.handles[id].(pending := true, standing := Owed)], raises(id))
  }

  function Start(s: State, requested: Option<set<Address>>, raises: Id -> bool): State {
    s.(handles := StartEach(s.handles, Startable(s, requested), raises).handles)
  }

  // ---------------------------------------------------------------- stopping

  datatype StopOutcome = StopOutcome(tooLate: bool, confirmed: bool, isolates: bool)

  function StopOne(h: Handle, o: StopOutcome): (Handle, bool) {
    if h.quarantined || o.tooLate then (h, false)
    else if !h.connected then (h, !h.pending)
    else if o.confirmed then (h.(pending := false, standing := PluginConfirmed), true)
    else (h.(quarantined := h.quarantined || o.isolates), false)
  }

  /** The handles after a command, with a verdict for each target in order. */
  datatype Outcome = Outcome(handles: map<Id, Handle>, good: seq<bool>)

  function StopEach(handles: map<Id, Handle>, targets: seq<Id>, outcome: Id -> StopOutcome): (r: Outcome)
    ensures |r.good| == |targets| && r.handles.Keys == handles.Keys
  {
    if targets == [] then Outcome(handles, [])
    else
      var p, id := StopEach(handles, targets[..|targets| - 1], outcome), targets[|targets| - 1];
      if id !in p.handles then Outcome(p.handles, p.good + [true])
      else
        var (h, ok) := StopOne(p.handles[id], outcome(id));
        Outcome(p.handles[id := h], p.good + [ok])
  }

  /** Routing did not drain: no STOP is attempted and every target is isolated. */
  function IsolateEach(handles: map<Id, Handle>, targets: seq<Id>): (r: Outcome)
    ensures |r.good| == |targets| && r.handles.Keys == handles.Keys
  {
    if targets == [] then Outcome(handles, [])
    else
      var p, id := IsolateEach(handles, targets[..|targets| - 1]), targets[|targets| - 1];
      if id !in p.handles then Outcome(p.handles, p.good + [true])
      else Outcome(p.handles[id := p.handles[id].(quarantined := true)], p.good + [false])
  }

  /** The first configured handle with the same address. */
  function First(handles: map<Id, Handle>, sensors: seq<Id>, a: Option<Address>): Option<Id> {
    if sensors == [] then None
    else if sensors[0] in handles && handles[sensors[0]].address == a then Some(sensors[0])
    else First(handles, sensors[1..], a)
  }

  function Oblige(s: State, id: Id): map<Address, Option<Id>>
    requires id in s.handles
  {
    match First(s.handles, s.sensors, s.handles[id].address)
    case None => s.obligations
    case Some(first) => if first in s.handles then s.obligations[Key(s.handles[first]) := Some(first)] else s.obligations
  }

  /** Every target without a good verdict becomes an obligation. */
  function ObligeEach(s: State, targets: seq<Id>, good: seq<bool>): State
    requires |good| == |targets|
  {
    if targets == [] then s
    else
      var n := |targets| - 1;
      var t := ObligeEach(s, targets[..n], good[..n]);
      if good[n] || targets[n] !in t.handles then t else t.(obligations := Oblige(t, targets[n]))
  }

  function MayStop(requested: Option<set<Address>>): Handle -> bool {
    (h: Handle) => Requested(requested, h.address)
  }

  function StopTargets(s: State, requested: Option<set<Address>>): seq<Id> {
    Select(s.handles, s.sensors, MayStop(requested))
  }

  function StopVerdicts(s: State, targets: seq<Id>, drained: bool, outcome: Id -> StopOutcome): (r: Outcome)
    ensures |r.good| == |targets| && r.handles.Keys == s.handles.Keys
  {
    if drained then StopEach(s.handles, targets, outcome) else IsolateEach(s.handles, targets)
  }

  function Stop(s: State, requested: Option<set<Address>>, drained: bool, outcome: Id -> StopOutcome): State {
    var targets := StopTargets(s, requested);
    var r := StopVerdicts(s, targets, drained, outcome);
    ObligeEach(s.(handles := r.handles), targets, r.good)
  }

  // ---------------------------------------------------------------- operator cleanup

  /**
   What happens during the cleanup of one sensor; `cut` says after which stage an error or a deadline ends
   it, and `isolates` whether that isolates the sensor.
   */
  datatype CleanupOutcome = CleanupOutcome(
    tooLate: bool, cut: nat, isolates: bool, reconnects: bool, confirmed: bool, disconnects: bool)

  function Interrupted(h: Handle, o: CleanupOutcome): (Handle, bool) {
    (h.(quarantined := h.quarantined || o.isolates), false)
  }

  function CleanOne(h: Handle, o: CleanupOutcome): (Handle, bool) {
    if o.tooLate || h.quarantined then (h, false)
    else if o.cut == 0 then Interrupted(h, o)
    else if h.pending && !h.linked && !o.reconnects then (h, false)
    else
      var h1 := if h.pending && !h.linked then h.(connected := true, linked := true) else h;
      if o.cut == 1 then Interrupted(h1, o)
      else
        var h2 := if h1.pending && o.confirmed then h1.(pending := false, standing := PluginConfirmed)
                  else if h1.pending then h1.(quarantined := h1.quarantined || o.isolates) else h1;
        if o.cut == 2 then Interrupted(h2, o)
        else if h2.linked && !o.disconnects then (h2, false)
        else
          var h3 := if h2.linked then h2.(connected := false, linked := false) else h2;
          if o.cut == 3 then Interrupted(h3, o) else (h3, !h3.pending)
  }

  function CleanEach(handles: map<Id, Handle>, targets: seq<Id>, outcome: Id -> CleanupOutcome): (r: Outcome)
    ensures |r.good| == |targets| && r.handles.Keys == handles.Keys
  {
    if targets == [] then Outcome(handles, [])
    else
      var p, id := CleanEach(handles, targets[..|targets| - 1], outcome), targets[|targets| - 1];
      if id !in p.handles then Outcome(p.handles, p.good + [true])
      else
        var (h, ok) := CleanOne(p.handles[id], outcome(id));
        Outcome(p.handles[id := h], p.good + [ok])
  }

  function MayClean(requested: Option<set<Address>>): Handle -> bool {
    (h: Handle) => HasAddress(h) && (requested.Some? ==> Key(h) in requested.value)
  }

  function CleanupTargets(s: State, requested: Option<set<Address>>): seq<Id> {
    Select(s.handles, s.sensors, MayClean(requested))
  }

  function Cleanup(s: State, requested: Option<set<Address>>, outcome: Id -> CleanupOutcome): State {
    var targets := CleanupTargets(s, requested);
    var r := CleanEach(s.handles, targets, outcome);
    ObligeEach(s.(handles := r.handles), targets, r.good)
  }

  // ---------------------------------------------------------------- reconfiguration

  /** The handles that still owe a STOP, or are isolated, are retained before the configuration is replaced. */
  function Retain(handles: map<Id, Handle>, ids: seq<Id>, obligations: map<Address, Option<Id>>): map<Address, Option<Id>> {
    if ids == [] then obligations
    else
      var o, id := Retain(handles, ids[..|ids| - 1], obligations), ids[|ids| - 1];
      if id in handles && HasAddress(handles[id]) && (handles[id].pending || handles[id].quarantined) && Key(handles[id]) !in o
      then o[Key(handles[id]) := Some(id)] else o
  }

  /** A retired handle that is no obligation loses its link; `dropped` says which ones before a failure. */
  function Retired(s: State, dropped: set<Id>): map<Id, Handle> {
    map id | id in s.handles ::
      if id in s.sensors && id in dropped && Key(s.handles[id]) !in s.obligations
      then s.handles[id].(connected := false, linked := false) else s.handles[id]
  }

  function NewHandle(adapter: AdapterId): Handle {
    Handle(adapter, None, false, false, false, false, NeverStarted)
  }

  /** `added` are the handles of the new configuration; a failed replacement keeps the old one. */
  function Reconfigure(s: State, added: map<Id, AdapterId>, order: seq<Id>, dropped: set<Id>, succeeds: bool): State {
    var t := s.(obligations := Retain(s.handles, s.sensors, s.obligations));
    var u := t.(handles := Retired(t, dropped));
    if !succeeds then u
    else u.(handles := u.handles + map id | id in added :: NewHandle(added[id]), sensors := order)
  }

  // ---------------------------------------------------------------- recovery

  datatype Inventory = Inventory(resetConfirmed: Option<bool>, ready: bool, linked: set<Address>)

  /** What an adapter answers: it may have no gateway, be out of reach, or report, and report again after a reset. */
  datatype Gateway = NoGateway | OutOfReach | Reports(first: Inventory, afterReset: Option<Inventory>)

  datatype RecoveryOutcome = RecoveryOutcome(
    tooLate: bool, prepares: bool, hostReportsStop: bool, polls: bool, reconnects: bool, confirmed: bool,
    disconnects: bool, finishes: bool)

  datatype Request = Request(
    requested: Option<set<Address>>,
    active: set<Address>,
    allowReset: bool,
    operator: set<Address>,
    gateways: map<AdapterId, Gateway>,
    outcome: Id -> RecoveryOutcome,
    order: seq<Id>)

  predicate NeedsReset(r: Request, first: Inventory) {
    first.resetConfirmed == Some(false) || r.operator != {}
  }

  /** The inventory that counts: the one after the reset when a reset was needed, allowed and confirmed. */
  function FinalInventory(r: Request, g: Gateway): Option<Inventory> {
    if !g.Reports? then None
    else if NeedsReset(r, g.first) && r.allowReset && g.afterReset.Some? then g.afterReset
    else Some(g.first)
  }

  /** The gateway keeps its sensors from being reconciled. */
  predicate GatewayFails(r: Request, g: Gateway) {
    || g.OutOfReach?
    || (g.Reports? && NeedsReset(r, g.first) && (!r.allowReset || g.afterReset.None?))
    || (g.Reports? && !FinalInventory(r, g).value.ready)
  }

  function GatewayOf(r: Request, h: Handle): Gateway {
    if h.adapter in r.gateways then r.gateways[h.adapter] else NoGateway
  }

  /** The operator's word counts only after a confirmed controlled reset that left the sensor without a link. */
  predicate ResetConfirmed(r: Request, h: Handle) {
    var g := GatewayOf(r, h);
    r.allowReset && g.Reports? && Key(h) !in FinalInventory(r, g).value.linked
  }

  function Isolated(h: Handle): (Handle, bool) {
    (h.(quarantined := true), false)
  }

  function RetireAfterExternalStop(h: Handle, o: RecoveryOutcome): (Handle, bool) {
    if !o.finishes then Isolated(h)
    else (h.(pending := false, quarantined := false, connected := false, linked := false, standing := OperatorConfirmed), true)
  }

  /** Plugin STOP while one is pending, over a new link when the old one is down; then the link goes down. */
  function ReconcileSensor(h: Handle, o: RecoveryOutcome): (Handle, bool) {
    if !o.prepares then Isolated(h)
    else
      var h1 := if h.pending && o.hostReportsStop then h.(quarantined := false, pending := false, standing := HostReported)
                else h.(quarantined := false);
      if !o.polls || (h1.pending && !h1.linked && !o.reconnects) then Isolated(h1)
      else
        var h2 := if h1.pending then h1.(linked := true, connected := true) else h1;
        if h2.pending && !o.confirmed then Isolated(h2)
        else
          var h3 := if h2.pending then h2.(pending := false, standing := PluginConfirmed) else h2;
          if (h3.linked && !o.disconnects) || !o.finishes then Isolated(h3)
          else (h3.(connected := false, linked := false, quarantined := false), true)
  }

  function RecoverOne(r: Request, h: Handle, o: RecoveryOutcome): (Handle, bool) {
    if Key(h) in r.active || GatewayFails(r, GatewayOf(r, h)) || o.tooLate then (h, false)
    else if Key(h) !in r.operator then ReconcileSensor(h, o)
    else if ResetConfirmed(r, h) then RetireAfterExternalStop(h, o)
    else Isolated(h)
  }

  function RecoverEach(handles: map<Id, Handle>, targets: seq<Id>, r: Request): (e: Outcome)
    ensures |e.good| == |targets| && e.handles.Keys == handles.Keys
  {
    if targets == [] then Outcome(handles, [])
    else
      var p, id := RecoverEach(handles, targets[..|targets| - 1], r), targets[|targets| - 1];
      if id !in p.handles then Outcome(p.handles, p.good + [false])
      else
        var (h, ok) := RecoverOne(r, p.handles[id], r.outcome(id));
        Outcome(p.handles[id := h], p.good + [ok])
  }

  /** What is to be recovered, by key: the configured sensors, overruled by the obligations. */
  function Targets(s: State, r: Request): map<Address, Option<Id>> {
    ConfiguredTargets(s.handles, s.sensors, r)
    + map a | a in s.obligations && Requested(r.requested, Some(a)) :: s.obligations[a]
  }

  function ConfiguredTargets(handles: map<Id, Handle>, ids: seq<Id>, r: Request): map<Address, Option<Id>> {
    if ids == [] then map[]
    else
      var t, id := ConfiguredTargets(handles, ids[..|ids| - 1], r), ids[|ids| - 1];
      if id in handles && HasAddress(handles[id]) && Requested(r.requested, Some(Key(handles[id])))
      then t[Key(handles[id]) := Some(id)] else t
  }

  /** The handles to reconcile; `order` is the order in which the adapters take them. */
  predicate InOrder(s: State, r: Request) {
    && (forall id :: id in r.order ==> Some(id) in Targets(s, r).Values)
    && (forall v :: v in Targets(s, r).Values && v.Some? ==> v.value in r.order)
  }

  /** Results in order: a recovered address is released, any other becomes an obligation again. */
  datatype Settling = Settling(obligations: map<Address, Option<Id>>, raised: bool)

  function SettleEach(handles: map<Id, Handle>, o: map<Address, Option<Id>>, targets: map<Address, Option<Id>>,
                      order: seq<Id>, good: seq<bool>): Settling
    requires |good| == |order|
  {
    if order == [] then Settling(o, false)
    else
      var n := |order| - 1;
      var p := SettleEach(handles, o, targets, order[..n], good[..n]);
      if p.raised || order[n] !in handles then p
      else
        var key := Key(handles[order[n]]);
        if key !in targets then Settling(if good[n] then p.obligations - {key} else p.obligations, true)
        else Settling(if good[n] then p.obligations - {key} else p.obligations[key := targets[key]], false)
  }

  /** Links that no handle accounts for become obligations without a handle. */
  function UnknownLinks(r: Request, targets: map<Address, Option<Id>>): set<Address> {
    set g, a | g in r.gateways && FinalInventory(r, r.gateways[g]).Some?
               && a in FinalInventory(r, r.gateways[g]).value.linked && a !in targets && a !in r.active :: a
  }

  predicate VerifiedReset(r: Request) {
    r.allowReset && exists g :: g in r.gateways && r.gateways[g].Reports? && EmptyAndConfirmed(FinalInventory(r, r.gateways[g]))
  }

  predicate EmptyAndConfirmed(i: Option<Inventory>) {
    i.Some? && i.value.resetConfirmed == Some(true) && i.value.linked == {}
  }

  /** An obligation without a handle goes only by the operator's word and a reset that left no link at all. */
  function ReleaseOrphans(o: map<Address, Option<Id>>, r: Request): map<Address, Option<Id>> {
    map a | a in o && !(o[a].None? && Requested(r.requested, Some(a)) && a in r.operator && VerifiedReset(r)) :: o[a]
  }

  function AddOrphans(o: map<Address, Option<Id>>, unknown: set<Address>): map<Address, Option<Id>> {
    o + map a | a in unknown && a !in o :: None
  }

  function Recover(s: State, r: Request): State {
    var targets := Targets(s, r);
    var e := RecoverEach(s.handles, r.order, r);
    var settled := SettleEach(e.handles, s.obligations, targets, r.order, e.good);
    if settled.raised then State(e.handles, s.sensors, settled.obligations)
    else State(e.handles, s.sensors, ReleaseOrphans(AddOrphans(settled.obligations, UnknownLinks(r, targets)), r))
  }

  // ---------------------------------------------------------------- runs

  datatype Step =
    | Discovered(id: Id, address: Address)
    | LinkLost(id: Id)
    | Quarantine(id: Id)
    | DoConnect(targets: seq<Id>, connecting: Id -> ConnectOutcome)
    | DoStart(requested: Option<set<Address>>, raises: Id -> bool)
    | DoStop(requested: Option<set<Address>>, drained: bool, stopping: Id -> StopOutcome)
    | DoCleanup(requested: Option<set<Address>>, cleaning: Id -> CleanupOutcome)
    | DoReconfigure(added: map<Id, AdapterId>, order: seq<Id>, dropped: set<Id>, succeeds: bool)
    | DoRecover(request: Request)

  /** Discovery binds a configured sensor that is not connected, whatever address it had before. */
  function Bind(s: State, id: Id, address: Address): State {
    if id in s.handles && id in s.sensors && !s.handles[id].connected
    then s.(handles := s.handles[id := s.handles[id].(address := Some(address), linked := false)]) else s
  }

  function LoseLink(s: State, id: Id): State {
    if id in s.handles then s.(handles := s.handles[id := s.handles[id].(connected := false, linked := false)]) else s
  }

  function Isolate(s: State, id: Id): State {
    if id in s.handles then s.(handles := s.handles[id := s.handles[id].(quarantined := true)]) else s
  }

  /** A route joins two different sensors, so routing can fail to drain only when there are two. */
  predicate Allowed(s: State, step: Step) {
    match step
    case DoConnect(targets, _) => forall id :: id in targets ==> id in s.sensors
    case DoStop(_, drained, _) => drained || |s.sensors| >= 2
    case DoReconfigure(added, order, _, _) =>
      added.Keys !! s.handles.Keys && Elements(order) == added.Keys && Different(order)
    case DoRecover(request) => InOrder(s, request)
    case _ => true
  }

  function Next(s: State, step: Step): State {
    if !Allowed(s, step) then s
    else
      match step
      case Discovered(id, address) => Bind(s, id, address)
      case LinkLost(id) => LoseLink(s, id)
      case Quarantine(id) => Isolate(s, id)
      case DoConnect(targets, connecting) => Connect(s, targets, connecting)
      case DoStart(requested, raises) => Start(s, requested, raises)
      case DoStop(requested, drained, stopping) => Stop(s, requested, drained, stopping)
      case DoCleanup(requested, cleaning) => Cleanup(s, requested, cleaning)
      case DoReconfigure(added, order, dropped, succeeds) => Reconfigure(s, added, order, dropped, succeeds)
      case DoRecover(request) => Recover(s, request)
  }

  function RunFrom(s: State, steps: seq<Step>): State {
    if steps == [] then s else Next(RunFrom(s, steps[..|steps| - 1]), steps[|steps| - 1])
  }

  function Initial(): State {
    State(map[], [], map[])
  }
}
