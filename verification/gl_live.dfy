/**
  glLive as the manager runs it: one object updated under its mutex. Every method is one critical
  section and is proved to be the matching step of LiveModel, on which LiveFence, LiveFreshness
  and LiveCredits build.
 */
module GlLiveObject {
  import opened LiveModel

  class GlLive {
    var st: Status
    var aliasRevision: nat
    var transportRevision: nat
    var routeDispatchSeq: nat
    var sourceStop: nat
    var sourceRetired: bool
    var runEpoch: nat
    var phaseEpoch: nat
    var nextRequest: nat
    var acceptedRequest: nat
    var wireRevision: Groups
    var closed: set<nat>
    var connectRecovery: Option<CreditId>
    var connectRecoveryFence: Option<CreditId>
    var connectRecoverySeen: map<nat, nat>
    var credits: map<CreditId, Credit>
    var tick: nat // arrival order, for the history only
    ghost var stamp: Groups
    ghost var requests: set<Request>
    ghost var held: set<CreditId>
    ghost var marker: bool
    ghost var log: seq<CreditEntry>

    ghost function View(): Engine
      reads this`st, this`aliasRevision, this`transportRevision, this`sourceStop, this`sourceRetired, this`runEpoch
      reads this`phaseEpoch, this`nextRequest, this`acceptedRequest, this`wireRevision, this`closed
      reads this`tick, this`stamp, this`requests
    {
      Engine(st, aliasRevision, transportRevision, sourceStop, sourceRetired, runEpoch, phaseEpoch, nextRequest,
             acceptedRequest, wireRevision, closed, tick, stamp, requests)
    }

    ghost function Credits(): Custody
      reads this`connectRecovery, this`connectRecoveryFence, this`connectRecoverySeen, this`credits
      reads this`held, this`marker, this`log
    {
      Custody(connectRecovery, connectRecoveryFence, connectRecoverySeen, credits, held, marker, log)
    }

    constructor ()
      ensures View() == Init().engine && Credits() == Init().custody && routeDispatchSeq == 0
    {
      st := Status(Transport(false, false, false), Volume(false, 0), Alias(0, None));
      aliasRevision, transportRevision, routeDispatchSeq, sourceStop, sourceRetired := 0, 0, 0, 0, false;
      runEpoch, phaseEpoch, nextRequest, acceptedRequest := 0, 0, 0, 0;
      wireRevision, closed := Groups(0, 0, 0), {};
      connectRecovery, connectRecoveryFence, connectRecoverySeen, credits := None, None, map[], map[];
      tick, stamp, requests, held, marker, log := 1, Groups(0, 0, 0), {}, {}, false, [];
    }

    /** Nothing claimed or requested under the old run or phase survives this. */
    method RenewPhaseLocked()
      modifies this`phaseEpoch, this`acceptedRequest, this`aliasRevision
      ensures View() == old(View()).(phaseEpoch := old(phaseEpoch) + 1, acceptedRequest := 0,
        aliasRevision := old(aliasRevision) + 1)
    {
      phaseEpoch := phaseEpoch + 1;
      acceptedRequest := 0;
      aliasRevision := aliasRevision + 1;
    }

    method ObserveStopLocked()
      modifies this`sourceRetired, this`runEpoch, this`phaseEpoch, this`acceptedRequest, this`aliasRevision
      ensures View() == ObserveStop(old(View()))
    {
      if !sourceRetired && sourceStop in closed {
        sourceRetired := true;
        runEpoch := runEpoch + 1;
        RenewPhaseLocked();
      }
    }

    method CurrentIntent() returns (intent: Intent)
      ensures intent == IntentOf(View())
    {
      intent := Intent(runEpoch, phaseEpoch, aliasRevision, transportRevision, st.alias.selected);
    }

    method TransportSnapshot() returns (snapshot: Snapshot)
      modifies this`sourceRetired, this`runEpoch, this`phaseEpoch, this`acceptedRequest, this`aliasRevision, this`tick
      ensures View() == ObserveStop(old(View())).(tick := old(tick) + 1)
      ensures snapshot == Snapshot(IntentOf(View()), View().st)
    {
      ObserveStopLocked();
      var intent := CurrentIntent();
      snapshot := Snapshot(intent, st);
      tick := tick + 1;
    }

    method AdmitTransport(intent: Intent, bound: bool) returns (admitted: bool)
      modifies this`sourceRetired, this`runEpoch, this`phaseEpoch, this`acceptedRequest, this`aliasRevision, this`tick
      ensures View() == ObserveStop(old(View())).(tick := old(tick) + 1)
      ensures admitted <==> IntentCurrent(View(), intent) && BindingUsable(View()) && !bound
    {
      ObserveStopLocked();
      tick := tick + 1;
      if sourceRetired || intent.run != runEpoch || intent.phase != phaseEpoch || intent.aliasRevision != aliasRevision
         || intent.transportRevision != transportRevision || intent.alias != st.alias.selected
         || (st.alias.binding.Some? && !ValidBinding(st.alias.binding)) {
        return false;
      }
      return !bound;
    }

    method AdmitRoute(alias: int, revision: nat) returns (admitted: bool)
      modifies this`sourceRetired, this`runEpoch, this`phaseEpoch, this`acceptedRequest, this`aliasRevision, this`tick,
        this`routeDispatchSeq
      ensures View() == ObserveStop(old(View())).(tick := old(tick) + 1)
      ensures admitted <==>
        !View().sourceRetired && View().st.alias.selected == alias && View().aliasRevision == revision
        && BindingUsable(View())
      ensures routeDispatchSeq == old(routeDispatchSeq) + (if admitted then 1 else 0)
    {
      ObserveStopLocked();
      tick := tick + 1;
      if sourceRetired || st.alias.selected != alias || aliasRevision != revision
         || (st.alias.binding.Some? && !ValidBinding(st.alias.binding)) {
        return false;
      }
      routeDispatchSeq := routeDispatchSeq + 1;
      return true;
    }

    method BeginRun(stop: nat) returns (source: Source)
      modifies this`sourceRetired, this`runEpoch, this`phaseEpoch, this`acceptedRequest, this`aliasRevision, this`tick,
        this`sourceStop
      ensures View() == LiveModel.BeginRun(old(View()), stop).(tick := old(tick) + 1)
      ensures source.run == runEpoch && source.stop == stop
    {
      runEpoch := runEpoch + 1;
      RenewPhaseLocked();
      sourceStop := stop;
      sourceRetired := false;
      tick := tick + 1;
      source := Source(runEpoch, 0, stop);
    }

    method BeginPhase(run: Source) returns (source: Option<Source>)
      modifies this`sourceRetired, this`phaseEpoch, this`acceptedRequest, this`aliasRevision, this`tick
      ensures View() == LiveModel.BeginPhase(old(View()), run).(tick := old(tick) + 1)
      ensures source.Some? ==> SourceCurrent(View(), source.value)
    {
      tick := tick + 1;
      if run.run != runEpoch || run.stop in closed { return None; }
      RenewPhaseLocked();
      sourceRetired := false;
      return Some(Source(run.run, phaseEpoch, run.stop));
    }

    method RetirePhase(source: Source)
      modifies this`sourceRetired, this`phaseEpoch, this`acceptedRequest, this`aliasRevision, this`tick
      ensures View() == LiveModel.RetirePhase(old(View()), source).(tick := old(tick) + 1)
    {
      if source.run == runEpoch && source.phase == phaseEpoch {
        sourceRetired := true;
        RenewPhaseLocked();
      }
      tick := tick + 1;
    }

    method RetireRun(run: Source)
      modifies this`sourceRetired, this`runEpoch, this`phaseEpoch, this`acceptedRequest, this`aliasRevision, this`tick
      ensures View() == LiveModel.RetireRun(old(View()), run).(tick := old(tick) + 1)
    {
      if run.run == runEpoch {
        sourceRetired := true;
        runEpoch := runEpoch + 1;
        RenewPhaseLocked();
      }
      tick := tick + 1;
    }

    method BeginStatus(source: Source) returns (request: Option<Request>)
      modifies this`nextRequest, this`requests, this`tick
      ensures View() == LiveModel.BeginStatus(old(View()), source).(tick := old(tick) + 1)
      ensures request.Some? ==> request.value in View().requests && request.value.wire == View().wire
    {
      request := None;
      if source.run == runEpoch && source.phase == phaseEpoch && source.stop !in closed {
        nextRequest := nextRequest + 1;
        request := Some(Request(source, nextRequest, wireRevision, tick));
        requests := requests + {request.value};
      }
      tick := tick + 1;
    }

    method AcceptTransportLocked(request: Request, reply: Transport)
      modifies this`st, this`transportRevision, this`stamp, this`acceptedRequest
      ensures View() == AcceptTransport(old(View()), request, reply)
    {
      if request.wire.transport == wireRevision.transport {
        if reply != st.transport { transportRevision := transportRevision + 1; }
        st := st.(transport := reply);
        stamp := stamp.(transport := request.startedAt);
        acceptedRequest := request.sequence;
      }
    }

    method AcceptVolumeLocked(request: Request, reply: Volume)
      modifies this`st, this`stamp, this`acceptedRequest
      ensures View() == AcceptVolume(old(View()), request, reply)
    {
      if request.wire.volume == wireRevision.volume {
        st := st.(volume := reply);
        stamp := stamp.(volume := request.startedAt);
        acceptedRequest := request.sequence;
      }
    }

    method AcceptAliasLocked(request: Request, reply: Alias)
      modifies this`st, this`aliasRevision, this`stamp, this`acceptedRequest
      ensures View() == AcceptAlias(old(View()), request, reply)
    {
      if request.wire.alias == wireRevision.alias {
        var next := reply;
        if st.alias.binding.Some? && next.binding.None? {
          next := Alias(st.alias.selected, Some(st.alias.binding.value.(ready := false)));
        }
        if next != st.alias { aliasRevision := aliasRevision + 1; }
        st := st.(alias := next);
        stamp := stamp.(alias := request.startedAt);
        acceptedRequest := request.sequence;
      }
    }

    /** acceptStatus: the three groups are judged one after the other. */
    method AcceptStatus(request: Request, reply: Status)
      requires request in View().requests
      modifies this`st, this`transportRevision, this`aliasRevision, this`stamp, this`acceptedRequest, this`tick
      ensures View() == LiveModel.AcceptStatus(old(View()), request, reply).(tick := old(tick) + 1)
    {
      if request.source.run == runEpoch && request.source.phase == phaseEpoch && request.source.stop !in closed
         && request.sequence > acceptedRequest {
        AcceptTransportLocked(request, reply.transport);
        AcceptVolumeLocked(request, reply.volume);
        AcceptAliasLocked(request, reply.alias);
      }
      tick := tick + 1;
    }

    /** The transport half of applyEventLocked. */
    method PublishTransportLocked(t: Transport)
      modifies this`st, this`wireRevision, this`transportRevision, this`stamp
      ensures View() == PublishTransport(old(View()), t)
    {
      st := st.(transport := t);
      wireRevision := wireRevision.(transport := wireRevision.transport + 1);
      transportRevision := transportRevision + 1;
      stamp := stamp.(transport := tick);
    }

    method PublishAliasLocked(a: Alias)
      modifies this`st, this`wireRevision, this`aliasRevision, this`stamp
      ensures View() == PublishAlias(old(View()), a)
    {
      st := st.(alias := a);
      wireRevision := wireRevision.(alias := wireRevision.alias + 1);
      aliasRevision := aliasRevision + 1;
      stamp := stamp.(alias := tick);
    }

    method SelectAliasLocked(id: Option<int>, whole: bool, alias: BindingField)
      modifies this`st, this`wireRevision, this`aliasRevision, this`stamp
      ensures View() == SelectAlias(old(View()), id, whole, alias)
    {
      var current := st.alias.binding;
      if current.Some? || !alias.NoBinding? {
        if id.None? || !whole || id.value < 1 || id.value > 0xFFFF_FFFF { return; }
      }
      if !alias.NoBinding? {
        if alias.BadBinding? || !ValidBinding(current) || !ValidBinding(Some(alias.binding))
           || current.value.incarnation != alias.binding.incarnation
             || current.value.registry != alias.binding.registry {
          PublishAliasLocked(st.alias.(binding := Unready(current)));
          return;
        }
        PublishAliasLocked(Alias(id.value, Some(alias.binding)));
      } else if current.Some? {
        PublishAliasLocked(st.alias.(binding := Unready(current)));
      } else if id.Some? {
        PublishAliasLocked(Alias(id.value, None));
      }
    }

    /** applyEventLocked's judgement of the live credit; `hidden` stops the event there. */
    method JudgeCreditLocked(event: WireEvent) returns (hidden: bool)
      modifies this`connectRecovery, this`credits
      ensures hidden == Hidden(old(Credits()), event)
      ensures Credits() == ApplyToCredit(old(Credits()), event)
    {
      hidden := false;
      var initial := false;
      if connectRecovery.Some? && connectRecovery.value in credits && (event.Playing? || event.Paused?) {
        match Judge(credits[connectRecovery.value], event)
        case Ignore => return true;
        case Cancel => connectRecovery := None;
        case Observe(credit, isInitial) =>
          credits := credits[connectRecovery.value := credit];
          initial := isInitial;
      }
      if (event.Paused? && !initial) || event.StoppedEvent? || event.Inactive? || event.NotPlaying?
        || event.SelectedAlias? {
        connectRecovery := None;
      }
    }

    /** The rest of applyEventLocked. */
    method ApplyWireLocked(event: WireEvent)
      modifies this`st, this`wireRevision, this`aliasRevision, this`transportRevision, this`stamp
      modifies this`sourceRetired, this`runEpoch, this`phaseEpoch, this`acceptedRequest
      ensures View() == ApplyWire(old(View()), event)
    {
      match event
      case VolumeAction => ObserveStopLocked();
      case SelectedAlias(id, whole, alias) => SelectAliasLocked(id, whole, alias);
      case VolumeEvent(percent) =>
        if percent.Some? {
          st := st.(volume := Volume(true, ClampPct(percent.value)));
          wireRevision := wireRevision.(volume := wireRevision.volume + 1);
          stamp := stamp.(volume := tick);
        }
      case OtherEvent =>
      case _ => PublishTransportLocked(TransportAfter(st.transport, event));
    }

    /** applyEventLocked; `hidden` tells that the live credit kept the event from the engine. */
    method ApplyEventLocked(event: WireEvent) returns (hidden: bool)
      modifies this`st, this`wireRevision, this`aliasRevision, this`transportRevision, this`stamp
      modifies this`sourceRetired, this`runEpoch, this`phaseEpoch, this`acceptedRequest
      modifies this`connectRecovery, this`credits
      ensures hidden == Hidden(old(Credits()), event)
      ensures Credits() == ApplyToCredit(old(Credits()), event)
      ensures View() == if hidden then old(View()) else ApplyWire(old(View()), event)
    {
      hidden := JudgeCreditLocked(event);
      if !hidden { ApplyWireLocked(event); }
    }

    method ApplySourceEvent(source: Source, event: WireEvent) returns (current: bool, hidden: bool)
      modifies this`st, this`wireRevision, this`aliasRevision, this`transportRevision, this`stamp
      modifies this`sourceRetired, this`runEpoch, this`phaseEpoch, this`acceptedRequest, this`tick
      modifies this`connectRecovery, this`credits
      ensures current == SourceCurrent(old(View()), source)
      ensures hidden == (current && Hidden(old(Credits()), event))
      ensures View() == (if current && !hidden then ApplyWire(old(View()), event)
        else old(View())).(tick := old(tick) + 1)
      ensures Credits() == if current then ApplyToCredit(old(Credits()), event) else old(Credits())
    {
      current, hidden := source.run == runEpoch && source.phase == phaseEpoch && source.stop !in closed, false;
      if current { hidden := ApplyEventLocked(event); }
      tick := tick + 1;
    }

    /** The checks of acceptConnectRecoveryLocked. */
    method TransferAcceptableLocked(id: int, ordinal: nat, binding: Binding, kind: TransferKind) returns (ok: bool)
      ensures ok == TransferAcceptable(View(), Credits(), id, ordinal, binding, kind)
    {
      if id < 1 || ordinal < 1 || ordinal > MAX_ORDINAL || !GoodKind(kind) || st.alias.selected != id
         || !ValidBinding(Some(binding)) || st.alias.binding != Some(binding) {
        return false;
      }
      var high := if binding.incarnation in connectRecoverySeen then connectRecoverySeen[binding.incarnation] else 0;
      return ordinal > high && !(high == 0 && |connectRecoverySeen| >= MAX_SEEN);
    }

    method AcceptConnectRecoveryLocked(id: int, ordinal: nat, binding: Binding, kind: TransferKind, now: int)
      modifies this`st, this`wireRevision, this`transportRevision, this`stamp, this`log
      modifies this`connectRecovery, this`connectRecoveryFence, this`connectRecoverySeen, this`credits
      ensures View() == if TransferAcceptable(old(View()), old(Credits()), id, ordinal, binding, kind)
                        then AcceptedTransport(old(View()), kind) else old(View())
      ensures Credits() == if TransferAcceptable(old(View()), old(Credits()), id, ordinal, binding, kind)
                           then AcceptCredit(old(Credits()), NewCredit(old(View()), id, ordinal, binding, kind, now),
                             ordinal, now)
                           else old(Credits())
    {
      var acceptable := TransferAcceptableLocked(id, ordinal, binding, kind);
      if !acceptable { return; }
      var credit := Credit(0, 0, false, false, false, None, runEpoch, phaseEpoch, aliasRevision, id, binding, now,
        now + RECOVERY_WINDOW);
      match kind {
        case Plain =>
        case ResumeKind(primaryLoad) =>
          credit := credit.(loadOrdinal := primaryLoad, resumeOrdinal := ordinal, awaitResume := true);
          PublishTransportLocked(st.transport.(paused := false));
        case LoadKind(load, paused) =>
          credit := credit.(loadOrdinal := load, awaitInitial := true, initialPaused := paused);
          PublishTransportLocked(st.transport.(paused := paused));
      }
      RecordCreditLocked(credit, ordinal, now);
    }

    /** The accepted transfer is the live credit, and owns what follows it as the fence. */
    method RecordCreditLocked(credit: Credit, ordinal: nat, now: int)
      modifies this`log, this`connectRecovery, this`connectRecoveryFence, this`connectRecoverySeen, this`credits
      ensures Credits() == AcceptCredit(old(Credits()), credit, ordinal, now)
    {
      var name := CreditId(credit.binding.incarnation, ordinal);
      connectRecoverySeen := connectRecoverySeen[credit.binding.incarnation := ordinal];
      credits := credits[name := credit];
      connectRecovery := Some(name);
      connectRecoveryFence := connectRecovery;
      log := log + [Accepted(name, now)];
    }

    method AcceptConnectRecovery(source: Source, id: int, ordinal: nat, binding: Binding, kind: TransferKind, now: int)
      modifies this`st, this`wireRevision, this`transportRevision, this`stamp, this`log, this`tick
      modifies this`connectRecovery, this`connectRecoveryFence, this`connectRecoverySeen, this`credits
      ensures var ok := SourceCurrent(old(View()), source)
        && TransferAcceptable(old(View()), old(Credits()), id, ordinal, binding, kind);
        && View() == (if ok then AcceptedTransport(old(View()), kind) else old(View())).(tick := old(tick) + 1)
        && Credits() == (if ok then AcceptCredit(old(Credits()),
          NewCredit(old(View()), id, ordinal, binding, kind, now), ordinal, now)
                         else old(Credits()))
    {
      if source.run == runEpoch && source.phase == phaseEpoch && source.stop !in closed {
        AcceptConnectRecoveryLocked(id, ordinal, binding, kind, now);
      }
      tick := tick + 1;
    }

    /** The credit still names the current source and alias, and is in time. */
    predicate CurrentLocked(c: Credit, now: int)
      reads this
      ensures CurrentLocked(c, now) == CreditCurrent(View(), c, now)
    {
      && !sourceRetired && c.run == runEpoch && c.phase == phaseEpoch && c.aliasRevision == aliasRevision
      && c.alias == st.alias.selected && st.alias.binding == Some(c.binding) && now < c.until
    }

    predicate PlayingLocked()
      reads this
      ensures PlayingLocked() == IsPlaying(View())
    {
      st.transport.active && !st.transport.paused && !st.transport.stopped
    }

    /** The calling thread takes the credit. */
    method TakeLocked(id: CreditId, intent: Intent, now: int)
      requires id in credits
      modifies this`connectRecovery, this`credits, this`held, this`log
      ensures var k := old(Credits());
        Credits() == k.(credits := k.credits[id := k.credits[id].(transport := Some(intent))], recovery := None,
                        held := k.held + {id}, log := k.log + [Consumed(id, now, intent)])
    {
      connectRecovery := None;
      credits := credits[id := credits[id].(transport := Some(intent))];
      held := held + {id};
      log := log + [Consumed(id, now, intent)];
    }

    method ConsumeLocked(now: int) returns (credit: Option<CreditId>)
      modifies this`connectRecovery, this`credits, this`held, this`log
      ensures Credits() == Consume(View(), old(Credits()), now)
      ensures credit.Some? ==> credit == old(connectRecovery) && connectRecovery.None?
    {
      credit := None;
      if connectRecovery.None? || connectRecovery.value !in credits { return; }
      var id := connectRecovery.value;
      var c := credits[id];
      if !CurrentLocked(c, now) { connectRecovery := None; return; }
      if c.awaitInitial || c.awaitResume || !PlayingLocked() { return; }
      var current := CurrentIntent();
      if c.transport.Some? && c.transport.value.run != 0 && c.transport.value != current {
        connectRecovery := None;
        return;
      }
      TakeLocked(id, current, now);
      credit := Some(id);
    }

    method ConsumeConnectRecovery(now: int) returns (credit: Option<CreditId>)
      modifies this`sourceRetired, this`runEpoch, this`phaseEpoch, this`acceptedRequest, this`aliasRevision, this`tick
      modifies this`connectRecovery, this`credits, this`held, this`log
      ensures View() == ObserveStop(old(View())).(tick := old(tick) + 1)
      ensures Credits() == Consume(View(), old(Credits()), now)
      ensures credit.Some? ==> credit == old(connectRecovery) && connectRecovery.None?
    {
      ObserveStopLocked();
      tick := tick + 1;
      credit := ConsumeLocked(now);
    }

    method RetainLocked(id: CreditId, now: int) returns (retained: bool)
      requires id in Credits().held && id in credits
      modifies this`connectRecovery, this`held
      ensures Credits() == Retain(View(), old(Credits()), id, now)
      ensures retained ==> old(connectRecovery).None? && connectRecovery == Some(id)
    {
      held := held - {id};
      var c := credits[id];
      var current := CurrentIntent();
      if connectRecovery.Some? || c.transport != Some(current) || !CurrentLocked(c, now)
         || id.incarnation !in connectRecoverySeen || connectRecoverySeen[id.incarnation] != id.ordinal
           || !PlayingLocked() {
        return false;
      }
      connectRecovery := Some(id);
      return true;
    }

    method RetainConnectRecovery(id: CreditId, now: int) returns (retained: bool)
      requires id in Credits().held && id in credits
      modifies this`sourceRetired, this`runEpoch, this`phaseEpoch, this`acceptedRequest, this`aliasRevision, this`tick
      modifies this`connectRecovery, this`held
      ensures View() == ObserveStop(old(View())).(tick := old(tick) + 1)
      ensures Credits() == Retain(View(), old(Credits()), id, now)
      ensures retained ==> old(connectRecovery).None? && connectRecovery == Some(id)
    {
      ObserveStopLocked();
      tick := tick + 1;
      retained := RetainLocked(id, now);
    }

    method ClearMarker(id: CreditId, intent: Intent, now: int)
      modifies this`connectRecoveryFence, this`marker, this`log
      ensures Credits() == old(Credits()).(marker := false, fence := None, log := old(log) + [Cleared(id, now, intent)])
    {
      marker := false;
      connectRecoveryFence := None;
      log := log + [Cleared(id, now, intent)];
    }

    method CommitLocked(id: CreditId, released: bool, release: bool, removed: bool, now: int) returns (committed: bool)
      requires id in Credits().held && id in credits && release == Credits().marker
      modifies this`connectRecoveryFence, this`held, this`marker, this`log
      ensures Credits() == Clear(View(), old(Credits()), id, released, removed, now)
      ensures committed ==> old(connectRecoveryFence) == Some(id) && connectRecoveryFence.None?
    {
      held := held - {id};
      var c := credits[id];
      var current := CurrentIntent();
      if sourceRetired || connectRecoveryFence != Some(id) || c.transport != Some(current) || now >= c.until
         || st.alias.binding != Some(c.binding) || !PlayingLocked() || release != released || !removed {
        return false;
      }
      ClearMarker(id, current, now);
      return true;
    }

    /** commitConnectRecoveryReceipt past the attention check; `release` is the marker file now. */
    method CommitConnectRecoveryReceipt(id: CreditId, released: bool, release: bool, removed: bool,
      now: int) returns (committed: bool)
      requires id in Credits().held && id in credits && release == Credits().marker
      modifies this`sourceRetired, this`runEpoch, this`phaseEpoch, this`acceptedRequest, this`aliasRevision, this`tick
      modifies this`connectRecoveryFence, this`held, this`marker, this`log
      ensures View() == ObserveStop(old(View())).(tick := old(tick) + 1)
      ensures Credits() == Clear(View(), old(Credits()), id, released, removed, now)
      ensures committed ==> old(connectRecoveryFence) == Some(id) && connectRecoveryFence.None?
    {
      ObserveStopLocked();
      tick := tick + 1;
      committed := CommitLocked(id, released, release, removed, now);
    }
  }

  /** The global offer of music_start.go, behind its own mutex, and the requests that are committing one. */
  class StartLeases {
    var current: Option<Lease>
    var committing: map<nat, Commit>
    ghost var snapshots: set<Snapshot>
    ghost var leases: map<nat, Snapshot>
    ghost var routeDispatchSeq: nat
    ghost var log: seq<Admission>

    ghost function View(): Claims
      reads this
    {
      Claims(snapshots, current, committing, leases, routeDispatchSeq, log)
    }

    constructor ()
      ensures View() == Init().claims
    {
      current, committing, snapshots, leases, routeDispatchSeq, log := None, map[], {}, map[], 0, [];
    }

    /** The end of startRequest; `id` is fresh from the random source. */
    method Offer(id: nat, snapshot: Snapshot, now: int)
      requires id !in View().leases && snapshot in View().snapshots
      modifies this
      ensures View() == IssueLease(old(View()), id, snapshot, now)
    {
      if !ValidBinding(snapshot.status.alias.binding) || snapshot.intent.run == 0 { return; }
      current := Some(Lease(id, snapshot, now + LEASE_WINDOW, false));
      leases := leases[id := snapshot];
    }

    method Spend(id: nat, now: int) returns (spent: bool)
      modifies this
      ensures View() == SpendLease(old(View()), id, now)
      ensures spent ==> current.Some? && current.value.id == id && current.value.committed
    {
      if current.None? || current.value.id != id || current.value.committed || now >= current.value.expires {
        return false;
      }
      committing := committing[id := Claiming(current.value.snapshot)];
      current := Some(current.value.(committed := true));
      return true;
    }

    method Reclaim(id: nat, live: GlLive)
      modifies this
      ensures View() == ReclaimLease(live.View(), old(View()), id)
    {
      if id !in committing || !committing[id].Claiming? { return; }
      var leased := committing[id].snapshot;
      var intent := live.CurrentIntent();
      if live.sourceRetired || leased.intent != intent || !ValidBinding(live.st.alias.binding) {
        committing := committing - {id};
      } else {
        committing := committing[id := Claimed(leased, live.st)];
      }
    }

    method Commit(id: nat, now: int) returns (committed: bool)
      modifies this
      ensures View() == CommitLease(old(View()), id, now)
    {
      if id !in committing || !committing[id].Claimed? { return false; }
      var claim := committing[id];
      committing := committing - {id};
      if current.None? || current.value.id != id || now >= current.value.expires { return false; }
      log := log + [LeaseCommitted(id, claim.snapshot, claim.status)];
      return true;
    }
  }
}
