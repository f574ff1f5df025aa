/**
  The live engine state of one room (glLive): websocket events, slow status replies, source
  restarts, one-shot transfer credits and start leases race on it. Each event of the model is one
  critical section of its mutex. HTTP happens between events.
 */
module LiveModel {
  import Runs

  datatype Option<+T> = None | Some(value: T)

  /** An alias binding; 0 stands for an empty text. */
  datatype Binding = Binding(incarnation: nat, registry: nat, room: nat, ready: bool)

  predicate ValidBinding(b: Option<Binding>) {
    b.Some? && b.value.ready && b.value.incarnation != 0 && b.value.registry != 0 && b.value.room != 0
  }

  datatype Transport = Transport(active: bool, paused: bool, stopped: bool)

  datatype Volume = Volume(hasVol: bool, percent: int)

  datatype Alias = Alias(selected: int, binding: Option<Binding>)

  /** glStatus, by the three groups that are published together. */
  datatype Status = Status(transport: Transport, volume: Volume, alias: Alias)

  /** The revision counters of the wire input, and the stamps of the published values, per group. */
  datatype Groups = Groups(transport: nat, volume: nat, alias: nat)

  datatype Source = Source(run: nat, phase: nat, stop: nat)

  datatype Request = Request(source: Source, sequence: nat, wire: Groups, startedAt: nat)

  datatype Intent = Intent(run: nat, phase: nat, aliasRevision: nat, transportRevision: nat, alias: int)

  /** What transportSnapshot returned, with what it showed at that moment. */
  datatype Snapshot = Snapshot(intent: Intent, status: Status)

  datatype CreditId = CreditId(incarnation: nat, ordinal: nat)

  datatype Credit = Credit(
    loadOrdinal: nat,
    resumeOrdinal: nat,
    awaitResume: bool,
    awaitInitial: bool,
    initialPaused: bool,
    transport: Option<Intent>,
    run: nat,
    phase: nat,
    aliasRevision: nat,
    alias: int,
    binding: Binding,
    acceptedAt: int,
    until: int)

  datatype Lease = Lease(id: nat, snapshot: Snapshot, expires: int, committed: bool)

  /** One commitStartRequest in flight. */
  datatype Commit = Claiming(snapshot: Snapshot) | Claimed(snapshot: Snapshot, status: Status)

  /** The engine state proper, the request bookkeeping, and the history of what was published when. */
  datatype Engine = Engine(
    st: Status,
    aliasRevision: nat,
    transportRevision: nat,
    sourceStop: nat,
    sourceRetired: bool,
    runEpoch: nat,
    phaseEpoch: nat,
    nextRequest: nat,
    acceptedRequest: nat,
    wire: Groups,
    closed: set<nat>,
    tick: nat,
    stamp: Groups,
    requests: set<Request>)

  datatype CreditEntry =
    | Accepted(credit: CreditId, at: int)
    | Consumed(credit: CreditId, at: int, intent: Intent)
    | Cleared(credit: CreditId, at: int, intent: Intent)

  /** The live credit, the fence it left, and the credits that threads have consumed and still hold. */
  datatype Custody = Custody(
    recovery: Option<CreditId>,
    fence: Option<CreditId>,
    seen: map<nat, nat>,
    credits: map<CreditId, Credit>,
    held: set<CreditId>,
    marker: bool,
    log: seq<CreditEntry>)

  datatype Admission =
    | TransportAdmitted(intent: Intent, status: Status)
    | RouteAdmitted(alias: int, revision: nat, status: Status)
    | LeaseCommitted(lease: nat, snapshot: Snapshot, status: Status)

  /**
    The decisions prepared outside the mutex, and the ones admitted; `leases` holds every lease's snapshot as
    issued.
   */
  datatype Claims = Claims(
    snapshots: set<Snapshot>,
    lease: Option<Lease>,
    committing: map<nat, Commit>,
    leases: map<nat, Snapshot>,
    routeDispatchSeq: nat,
    log: seq<Admission>)

  datatype State = State(engine: Engine, custody: Custody, claims: Claims, now: int)

  const RECOVERY_WINDOW := 5_000_000_000
  const LEASE_WINDOW := 5_000_000_000
  const MAX_ORDINAL := 9007199254740991
  const MAX_SEEN := 32

  function Init(): State {
    var none := Status(Transport(false, false, false), Volume(false, 0), Alias(0, None));
    State(Engine(none, 0, 0, 0, false, 0, 0, 0, 0, Groups(0, 0, 0), {}, 1, Groups(0, 0, 0), {}),
          Custody(None, None, map[], map[], {}, false, []),
          Claims({}, None, map[], map[], 0, []),
          0)
  }

  function IntentOf(g: Engine): Intent {
    Intent(g.runEpoch, g.phaseEpoch, g.aliasRevision, g.transportRevision, g.st.alias.selected)
  }

  // ----- sources -----

  predicate Stopped(g: Engine, stop: nat) {
    stop in g.closed
  }

  /** observeStopLocked */
  function ObserveStop(g: Engine): Engine {
    if !g.sourceRetired && Stopped(g, g.sourceStop)
    then g.(sourceRetired := true, runEpoch := g.runEpoch + 1, phaseEpoch := g.phaseEpoch + 1,
            acceptedRequest := 0, aliasRevision := g.aliasRevision + 1)
    else g
  }

  predicate SourceCurrent(g: Engine, source: Source) {
    source.run == g.runEpoch && source.phase == g.phaseEpoch && !Stopped(g, source.stop)
  }

  function BeginRun(g: Engine, stop: nat): Engine {
    g.(runEpoch := g.runEpoch + 1, phaseEpoch := g.phaseEpoch + 1, acceptedRequest := 0,
       aliasRevision := g.aliasRevision + 1, sourceStop := stop, sourceRetired := false)
  }

  function BeginPhase(g: Engine, run: Source): Engine {
    if run.run != g.runEpoch || Stopped(g, run.stop) then g
    else g.(phaseEpoch := g.phaseEpoch + 1, aliasRevision := g.aliasRevision + 1, acceptedRequest := 0,
      sourceRetired := false)
  }

  function RetirePhase(g: Engine, source: Source): Engine {
    if source.run == g.runEpoch && source.phase == g.phaseEpoch
    then g.(sourceRetired := true, aliasRevision := g.aliasRevision + 1, phaseEpoch := g.phaseEpoch + 1,
      acceptedRequest := 0)
    else g
  }

  function RetireRun(g: Engine, run: Source): Engine {
    if run.run == g.runEpoch
    then g.(sourceRetired := true, aliasRevision := g.aliasRevision + 1, runEpoch := g.runEpoch + 1,
            phaseEpoch := g.phaseEpoch + 1, acceptedRequest := 0)
    else g
  }

  // ----- status replies -----

  function BeginStatus(g: Engine, source: Source): Engine {
    if !SourceCurrent(g, source) then g
    else g.(nextRequest := g.nextRequest + 1,
            requests := g.requests + {Request(source, g.nextRequest + 1, g.wire, g.tick)})
  }

  function AcceptTransport(g: Engine, r: Request, t: Transport): Engine {
    if r.wire.transport != g.wire.transport then g
    else g.(st := g.st.(transport := t), stamp := g.stamp.(transport := r.startedAt), acceptedRequest := r.sequence,
            transportRevision := if t != g.st.transport then g.transportRevision + 1 else g.transportRevision)
  }

  function AcceptVolume(g: Engine, r: Request, v: Volume): Engine {
    if r.wire.volume != g.wire.volume then g
    else g.(st := g.st.(volume := v), stamp := g.stamp.(volume := r.startedAt), acceptedRequest := r.sequence)
  }

  /** A status without a binding cannot drop a known one: it only makes it not ready. */
  function MergedAlias(known: Alias, reported: Alias): Alias {
    if known.binding.Some? && reported.binding.None?
    then Alias(known.selected, Some(known.binding.value.(ready := false)))
    else reported
  }

  function AcceptAlias(g: Engine, r: Request, a: Alias): Engine {
    if r.wire.alias != g.wire.alias then g
    else
      var merged := MergedAlias(g.st.alias, a);
      g.(st := g.st.(alias := merged), stamp := g.stamp.(alias := r.startedAt), acceptedRequest := r.sequence,
         aliasRevision := if merged != g.st.alias then g.aliasRevision + 1 else g.aliasRevision)
  }

  function AcceptStatus(g: Engine, r: Request, st: Status): Engine {
    if r !in g.requests || !SourceCurrent(g, r.source) || r.sequence <= g.acceptedRequest then g
    else AcceptAlias(AcceptVolume(AcceptTransport(g, r, st.transport), r, st.volume), r, st.alias)
  }

  // ----- wire events -----

  /** A field of a JSON event: missing, present but not a positive integer, or a number. */
  datatype Field = Absent | Bad | Num(n: nat)

  predicate GoodOrdinal(f: Field) {
    f.Num? && 1 <= f.n <= MAX_ORDINAL
  }

  datatype BindingField = NoBinding | BadBinding | Given(binding: Binding)

  datatype WireEvent =
    | Playing(load: Field, resume: Field, resumed: bool)
    | Paused(load: Field, resume: Field)
    | StoppedEvent | NotPlaying | Active | Inactive
    | VolumeEvent(percent: Option<int>)
    | VolumeAction
    | SelectedAlias(id: Option<int>, whole: bool, alias: BindingField)
    | OtherEvent

  predicate IsTransport(e: WireEvent) {
    e.Playing? || e.Paused? || e.StoppedEvent? || e.NotPlaying? || e.Active? || e.Inactive?
  }

  /** What the live credit makes of a playing/paused event. */
  datatype Verdict = Ignore | Cancel | Observe(credit: Credit, initial: bool)

  function Judge(c: Credit, e: WireEvent): Verdict
    requires e.Playing? || e.Paused?
  {
    if c.resumeOrdinal != 0 then
      if e.load.Num? && 1 <= e.load.n <= c.loadOrdinal && e.resume.Absent? then Ignore
      else if !e.load.Absent? then Cancel
      else if e.resume.Absent? then Observe(c, false)
      else if !GoodOrdinal(e.resume) then Cancel
      else if e.resume.n < c.resumeOrdinal then Ignore
      else if e.resume.n == c.resumeOrdinal && e.Playing? && e.resumed then
        if !c.awaitResume then Ignore else Observe(c.(awaitResume := false), false)
      else Cancel
    else if c.loadOrdinal != 0 then
      if e.load.Absent? then Observe(c, false)
      else if !GoodOrdinal(e.load) then Cancel
      else if e.load.n < c.loadOrdinal then Ignore
      else if e.load.n == c.loadOrdinal && e.Paused? == c.initialPaused then
        if !c.awaitInitial then Ignore else Observe(c.(awaitInitial := false), true)
      else Cancel
    else Observe(c, false)
  }

  function TransportAfter(t: Transport, e: WireEvent): Transport {
    match e
    case Playing(_, _, _) => Transport(true, false, false)
    case Paused(_, _) => t.(paused := true)
    case StoppedEvent => t.(stopped := true)
    case NotPlaying => t.(paused := false)
    case Active => t.(active := true)
    case Inactive => t.(active := false)
    case _ => t
  }

  function ClampPct(v: int): int {
    if v < 0 then 0 else if v > 100 then 100 else v
  }

  function PublishTransport(g: Engine, t: Transport): Engine {
    g.(st := g.st.(transport := t), wire := g.wire.(transport := g.wire.transport + 1),
       transportRevision := g.transportRevision + 1, stamp := g.stamp.(transport := g.tick))
  }

  function PublishAlias(g: Engine, a: Alias): Engine {
    g.(st := g.st.(alias := a), wire := g.wire.(alias := g.wire.alias + 1),
       aliasRevision := g.aliasRevision + 1, stamp := g.stamp.(alias := g.tick))
  }

  function Unready(b: Option<Binding>): Option<Binding> {
    if b.None? then Some(Binding(0, 0, 0, false)) else Some(b.value.(ready := false))
  }

  /** An event cannot mint a new player identity; at most it vetoes the binding it contradicts. */
  function SelectAlias(g: Engine, id: Option<int>, whole: bool, alias: BindingField): Engine {
    var current := g.st.alias.binding;
    if (current.Some? || !alias.NoBinding?) && (id.None? || !whole || id.value < 1 || id.value > 0xFFFF_FFFF) then g
    else if alias.NoBinding? && current.None? then
      if id.None? then g else PublishAlias(g, Alias(id.value, None))
    else if alias.Given? && ValidBinding(current) && ValidBinding(Some(alias.binding))
            && current.value.incarnation == alias.binding.incarnation
              && current.value.registry == alias.binding.registry
    then PublishAlias(g, Alias(id.value, Some(alias.binding)))
    else PublishAlias(g, g.st.alias.(binding := Unready(current)))
  }

  /** applyEventLocked on the engine, once the credit has let the event through. */
  function ApplyWire(g: Engine, e: WireEvent): Engine {
    if e.VolumeAction? then ObserveStop(g)
    else if e.SelectedAlias? then SelectAlias(g, e.id, e.whole, e.alias)
    else if IsTransport(e) then PublishTransport(g, TransportAfter(g.st.transport, e))
    else if e.VolumeEvent? && e.percent.Some? then
      g.(st := g.st.(volume := Volume(true, ClampPct(e.percent.value))),
         wire := g.wire.(volume := g.wire.volume + 1), stamp := g.stamp.(volume := g.tick))
    else g
  }

  predicate EndsCredit(e: WireEvent, initial: bool) {
    (e.Paused? && !initial) || e.StoppedEvent? || e.Inactive? || e.NotPlaying? || e.SelectedAlias?
  }

  predicate Judges(k: Custody, e: WireEvent) {
    k.recovery.Some? && k.recovery.value in k.credits && (e.Playing? || e.Paused?)
  }

  /** The live credit hides this event from the engine. */
  predicate Hidden(k: Custody, e: WireEvent) {
    Judges(k, e) && Judge(k.credits[k.recovery.value], e).Ignore?
  }

  /** applyEventLocked on the live credit. */
  function ApplyToCredit(k: Custody, e: WireEvent): Custody {
    if Judges(k, e) then
      match Judge(k.credits[k.recovery.value], e)
      case Ignore => k
      case Cancel => k.(recovery := None)
      case Observe(credit, initial) =>
        k.(credits := k.credits[k.recovery.value := credit], recovery := if EndsCredit(e, initial) then None
          else k.recovery)
    else if EndsCredit(e, false) then k.(recovery := None)
    else k
  }

  // ----- transfer credits -----

  datatype TransferKind = Plain | LoadKind(load: nat, paused: bool) | ResumeKind(primaryLoad: nat)

  predicate GoodKind(kind: TransferKind) {
    match kind
    case Plain => true
    case LoadKind(load, _) => 1 <= load <= MAX_ORDINAL
    case ResumeKind(primaryLoad) => 1 <= primaryLoad <= MAX_ORDINAL
  }

  predicate TransferAcceptable(g: Engine, k: Custody, id: int, ordinal: nat, binding: Binding, kind: TransferKind) {
    var high := if binding.incarnation in k.seen then k.seen[binding.incarnation] else 0;
    && 1 <= id && 1 <= ordinal <= MAX_ORDINAL && GoodKind(kind)
    && ValidBinding(Some(binding)) && g.st.alias == Alias(id, Some(binding))
    && ordinal > high && !(high == 0 && |k.seen| >= MAX_SEEN)
  }

  /** The credit acceptConnectRecoveryLocked makes; a resume repeats its ordinal, so the kind does not carry it. */
  function NewCredit(g: Engine, id: int, ordinal: nat, binding: Binding, kind: TransferKind, now: int): Credit {
    Credit(if kind.LoadKind? then kind.load else if kind.ResumeKind? then kind.primaryLoad else 0,
           if kind.ResumeKind? then ordinal else 0, kind.ResumeKind?, kind.LoadKind?, kind.LoadKind? && kind.paused,
           None, g.runEpoch, g.phaseEpoch, g.aliasRevision, id, binding, now, now + RECOVERY_WINDOW)
  }

  /** acceptConnectRecoveryLocked: the new credit is live, and it is the fence for what follows. */
  function AcceptCredit(k: Custody, c: Credit, ordinal: nat, now: int): Custody {
    var id := CreditId(c.binding.incarnation, ordinal);
    k.(seen := k.seen[c.binding.incarnation := ordinal], credits := k.credits[id := c],
       recovery := Some(id), fence := Some(id), log := k.log + [Accepted(id, now)])
  }

  /** A load or a resume also says at once whether playback is paused. */
  function AcceptedTransport(g: Engine, kind: TransferKind): Engine {
    match kind
    case Plain => g
    case LoadKind(_, paused) => PublishTransport(g, g.st.transport.(paused := paused))
    case ResumeKind(_) => PublishTransport(g, g.st.transport.(paused := false))
  }

  predicate IsPlaying(g: Engine) {
    g.st.transport.active && !g.st.transport.paused && !g.st.transport.stopped
  }

  predicate CreditCurrent(g: Engine, c: Credit, now: int) {
    && !g.sourceRetired && c.run == g.runEpoch && c.phase == g.phaseEpoch && c.aliasRevision == g.aliasRevision
    && c.alias == g.st.alias.selected && g.st.alias.binding == Some(c.binding) && now < c.until
  }

  /** consumeConnectRecovery, after observing the stop. */
  function Consume(g: Engine, k: Custody, now: int): Custody {
    if k.recovery.None? || k.recovery.value !in k.credits then k
    else
      var id := k.recovery.value;
      var c := k.credits[id];
      if !CreditCurrent(g, c, now) then k.(recovery := None)
      else if c.awaitInitial || c.awaitResume || !IsPlaying(g) then k
      else if c.transport.Some? && c.transport.value.run != 0 && c.transport.value != IntentOf(g)
        then k.(recovery := None)
      else k.(credits := k.credits[id := c.(transport := Some(IntentOf(g)))], recovery := None, held := k.held + {id},
              log := k.log + [Consumed(id, now, IntentOf(g))])
  }

  /** retainConnectRecovery by the thread that consumed `id`; the thread then returns. */
  function Retain(g: Engine, k: Custody, id: CreditId, now: int): Custody {
    if id !in k.held || id !in k.credits then k
    else
      var c := k.credits[id];
      var r := k.(held := k.held - {id});
      if k.recovery.Some? || c.transport != Some(IntentOf(g)) || !CreditCurrent(g, c, now)
         || id.incarnation !in k.seen || k.seen[id.incarnation] != id.ordinal || !IsPlaying(g) then r
      else r.(recovery := Some(id))
  }

  /**
    commitConnectRecoveryReceipt after the attention check; `released` is the marker the thread had
    read, `removed` whether the file system let it go.
   */
  function Clear(g: Engine, k: Custody, id: CreditId, released: bool, removed: bool, now: int): Custody {
    if id !in k.held || id !in k.credits then k
    else
      var c := k.credits[id];
      var r := k.(held := k.held - {id});
      if g.sourceRetired || k.fence != Some(id) || c.transport != Some(IntentOf(g)) || now >= c.until
         || g.st.alias.binding != Some(c.binding) || !IsPlaying(g) || k.marker != released || !removed then r
      else r.(marker := false, fence := None, log := r.log + [Cleared(id, now, IntentOf(g))])
  }

  // ----- decisions taken outside the mutex -----

  /** transportSnapshot, after observing the stop. */
  function TakeSnapshot(g: Engine, d: Claims): Claims {
    d.(snapshots := d.snapshots + {Snapshot(IntentOf(g), g.st)})
  }

  predicate IntentCurrent(g: Engine, intent: Intent) {
    !g.sourceRetired && intent == IntentOf(g)
  }

  predicate BindingUsable(g: Engine) {
    g.st.alias.binding.Some? ==> ValidBinding(g.st.alias.binding)
  }

  /** admitTransport; `bound` is nativeBoundTransportSupportedLocked, which only suppresses. */
  function AdmitTransport(g: Engine, d: Claims, intent: Intent, bound: bool): Claims {
    if !IntentCurrent(g, intent) || !BindingUsable(g) || bound then d
    else d.(log := d.log + [TransportAdmitted(intent, g.st)])
  }

  function AdmitRoute(g: Engine, d: Claims, alias: int, revision: nat): Claims {
    if g.sourceRetired || g.st.alias.selected != alias || g.aliasRevision != revision || !BindingUsable(g) then d
    else d.(routeDispatchSeq := d.routeDispatchSeq + 1, log := d.log + [RouteAdmitted(alias, revision, g.st)])
  }

  /** The end of startRequest: a new offer, under a fresh identity, replaces any earlier one. */
  function IssueLease(d: Claims, id: nat, snapshot: Snapshot, now: int): Claims {
    if id in d.leases || snapshot !in d.snapshots || !ValidBinding(snapshot.status.alias.binding)
      || snapshot.intent.run == 0 then d
    else d.(lease := Some(Lease(id, snapshot, now + LEASE_WINDOW, false)), leases := d.leases[id := snapshot])
  }

  /** commitStartRequest spends the one use of the lease before it reads the claim again... */
  function SpendLease(d: Claims, id: nat, now: int): Claims {
    if d.lease.None? || d.lease.value.id != id || d.lease.value.committed || now >= d.lease.value.expires then d
    else d.(lease := Some(d.lease.value.(committed := true)),
      committing := d.committing[id := Claiming(d.lease.value.snapshot)])
  }

  /** ...the fresh claim must carry the leased intent... */
  function ReclaimLease(g: Engine, d: Claims, id: nat): Claims {
    if id !in d.committing || !d.committing[id].Claiming? then d
    else
      var leased := d.committing[id].snapshot;
      if !IntentCurrent(g, leased.intent) || !ValidBinding(g.st.alias.binding)
        then d.(committing := d.committing - {id})
      else d.(committing := d.committing[id := Claimed(leased, g.st)])
  }

  /** ...and the lease must still be the current offer. */
  function CommitLease(d: Claims, id: nat, now: int): Claims {
    if id !in d.committing || !d.committing[id].Claimed? then d
    else
      var c := d.committing[id];
      var r := d.(committing := d.committing - {id});
      if d.lease.None? || d.lease.value.id != id || now >= d.lease.value.expires then r
      else r.(log := r.log + [LeaseCommitted(id, c.snapshot, c.status)])
  }

  // ----- steps -----

  /** The bridge may also remove the marker by itself: EvMarkReclaimed, whatever the engine shows by then. */
  datatype Event =
    | CloseStop(stop: nat)
    | EvBeginRun(stop: nat)
    | EvBeginPhase(source: Source)
    | EvRetirePhase(source: Source)
    | EvRetireRun(source: Source)
    | EvBeginStatus(source: Source)
    | EvAcceptStatus(request: Request, st: Status)
    | EvWire(source: Source, wire: WireEvent)
    | EvTransfer(source: Source, id: int, ordinal: nat, binding: Binding, kind: TransferKind)
    | EvConsume
    | EvRetain(credit: CreditId)
    | EvClear(credit: CreditId, blocked: bool, released: bool, removed: bool)
    | EvDrop(credit: CreditId)
    | EvMarkReleased
    | EvMarkReclaimed
    | EvSnapshot
    | EvAdmitTransport(intent: Intent, bound: bool)
    | EvAdmitRoute(alias: int, revision: nat)
    | EvIssueLease(lease: nat, snapshot: Snapshot)
    | EvSpendLease(lease: nat)
    | EvReclaimLease(lease: nat)
    | EvCommitLease(lease: nat)
    | EvPass(elapsed: nat)

  /** A reader has its source from BeginRun, so no transfer is read under run 0. */
  predicate Wired(g: Engine, source: Source) {
    source.run != 0 && SourceCurrent(g, source)
  }

  /** What an event does to the engine, given the credit custody it meets. */
  function EngineAct(g: Engine, k: Custody, e: Event): Engine {
    match e
    case CloseStop(stop) => if stop == 0 then g else g.(closed := g.closed + {stop})
    case EvBeginRun(stop) => BeginRun(g, stop)
    case EvBeginPhase(source) => BeginPhase(g, source)
    case EvRetirePhase(source) => RetirePhase(g, source)
    case EvRetireRun(source) => RetireRun(g, source)
    case EvBeginStatus(source) => BeginStatus(g, source)
    case EvAcceptStatus(request, st) => AcceptStatus(g, request, st)
    case EvWire(source, wire) => if SourceCurrent(g, source) && !Hidden(k, wire) then ApplyWire(g, wire) else g
    case EvTransfer(source, id, ordinal, binding, kind) =>
      if Wired(g, source) && TransferAcceptable(g, k, id, ordinal, binding, kind)
        then AcceptedTransport(g, kind) else g
    case EvClear(_, blocked, _, _) => if blocked then g else ObserveStop(g)
    case EvConsume => ObserveStop(g)
    case EvRetain(_) => ObserveStop(g)
    case EvSnapshot => ObserveStop(g)
    case EvAdmitTransport(_, _) => ObserveStop(g)
    case EvAdmitRoute(_, _) => ObserveStop(g)
    case EvReclaimLease(_) => ObserveStop(g)
    case _ => g
  }

  /** What an event does to the credits; `g` is the engine before it and `h` the engine after it. */
  function CustodyAct(g: Engine, h: Engine, k: Custody, e: Event, now: int): Custody {
    match e
    case EvWire(source, wire) => if SourceCurrent(g, source) then ApplyToCredit(k, wire) else k
    case EvTransfer(source, id, ordinal, binding, kind) =>
      if Wired(g, source) && TransferAcceptable(g, k, id, ordinal, binding, kind)
      then AcceptCredit(k, NewCredit(g, id, ordinal, binding, kind, now), ordinal, now) else k
    case EvConsume => Consume(h, k, now)
    case EvRetain(credit) => Retain(h, k, credit, now)
    case EvClear(credit, blocked, released, removed) =>
      if blocked then k.(held := k.held - {credit}) else Clear(h, k, credit, released, removed, now)
    case EvDrop(credit) => k.(held := k.held - {credit})
    case EvMarkReleased => k.(marker := true)
    case EvMarkReclaimed => k.(marker := false)
    case _ => k
  }

  function ClaimsAct(h: Engine, d: Claims, e: Event, now: int): Claims {
    match e
    case EvSnapshot => TakeSnapshot(h, d)
    case EvAdmitTransport(intent, bound) => AdmitTransport(h, d, intent, bound)
    case EvAdmitRoute(alias, revision) => AdmitRoute(h, d, alias, revision)
    case EvIssueLease(lease, snapshot) => IssueLease(d, lease, snapshot, now)
    case EvSpendLease(lease) => SpendLease(d, lease, now)
    case EvReclaimLease(lease) => ReclaimLease(h, d, lease)
    case EvCommitLease(lease) => CommitLease(d, lease, now)
    case _ => d
  }

  /** Every event takes one tick of the arrival order. */
  function Step(s: State, e: Event): State {
    var h := EngineAct(s.engine, s.custody, e);
    State(h.(tick := h.tick + 1),
          CustodyAct(s.engine, h, s.custody, e, s.now),
          ClaimsAct(h, s.claims, e, s.now),
          if e.EvPass? then s.now + e.elapsed else s.now)
  }

  function Run(es: seq<Event>): State {
    Runs.Run(Step, Init(), es)
  }
}
