/**
  The built-in radio producer: a write-ahead journal of operation records. Every event is one
  critical section of its mutex, the issue of one port call, or one port reply together with the
  section it leads into. A record write either succeeds, on disk and in memory, or changes nothing;
  a restart keeps the records and loses everything else.
 */
module RadioProducerModel {
  import Runs

  datatype Option<+T> = None | Some(value: T)

  datatype Stage =
    | PreflightAttempted | PreflightPrepared | PreflightRejected | PreflightReconciled
    | NativeReserveAttempted | SenderReserveAttempted | ReservedStage | CandidateCancelAttempted | NoEffectsRejected
    | StopAttempted | StoppedStage | PauseAttempted | Suspended | StartAttempted | Started
    | VolumeAttempted | VolumeObserved | FinishAttempted | Finished
    | RejectionObserved | RejectedReconciled | Reconciled
    | PreemptDrainAttempted | PreemptedStage

  datatype Outcome = Unset | Committed | Rejected | Preempted | OtherOutcome

  datatype Fence = Fence(owner: nat, token: nat, action: nat, generation: nat)

  /** A receiver hold; 0 stands for an empty text. */
  datatype Hold = Hold(process: nat, handoff: nat, generation: nat, target: nat, token: nat, source: nat)

  datatype Prior = Prior(native: Option<Hold>, sender: Option<Hold>, target: nat)

  datatype Record = Record(
    fence: Fence,
    process: nat,
    target: nat,
    native: Option<Hold>,
    sender: Option<Hold>,
    prior: Option<Prior>,
    retained: Option<Prior>,
    stage: Stage,
    preempted: bool,
    preemptAction: nat,
    challenge: nat,
    terminal: bool,
    outcome: Outcome,
    rejection: bool,
    ticket: Option<nat>,
    released: bool)

  /** The port calls with an effect. */
  datatype Kind =
    | SenderPreflight | NativeReserve | SenderReserve
    | PauseSuspend | StartSource | StopDrain | SetVolume | FinishOperation

  datatype Request = Request(process: nat, handoff: nat, generation: nat, target: nat, token: nat, action: nat,
    challenge: nat)

  /** A hold is asked of its port, or an earlier one is kept. */
  datatype Reuse = Ask | Own(hold: Option<Hold>)

  /**
    One call of the producer in flight. `called` tells that its port call has been issued; a stop or
    volume of our own source keeps the holds it has.
   */
  datatype Task =
    | Capturing(generation: nat, action: nat, target: nat)
    | Effecting(kind: Kind, fence: Fence, called: bool, reuse: Reuse)
    | AwaitingNative(fence: Fence, own: Option<Hold>, source: bool)
    | Cancelling(token: nat)
    | Reading(read: Record, recovers: Option<Record>)
    | ReadingRejected(read: Record, recovers: Option<Record>)
    | ReadingSender(read: Record, recovers: Option<Record>)
    | Pending(snapshot: Record)
    | Recovering(snapshot: Record, outcome: Outcome)
    | AskingHold(token: nat, request: Request)
    | Draining(token: nat, request: Request)

  /** An attempted stage that was stored, and a port call that was issued. */
  datatype Entry = Attempted(kind: Kind, token: nat) | Called(kind: Kind, token: nat)

  datatype State = State(
    records: map<nat, Record>,
    ready: bool,
    process: nat,
    active: nat,
    live: set<nat>,
    retained: map<nat, Prior>,
    tasks: map<nat, Task>,
    counter: nat,
    pending: nat,
    issued: map<nat, nat>,
    used: set<nat>,
    log: seq<Entry>)

  const MAX_RECORDS := 4096

  function Init(): State {
    State(map[], false, 0, 0, {}, map[], map[], 0, 0, map[], {}, [])
  }

  // ----- the journal -----

  /** storeLocked succeeds: there is room, and the write did. */
  predicate Stores(s: State, token: nat, write: bool) {
    write && (token in s.records || |s.records| < MAX_RECORDS)
  }

  function Put(s: State, r: Record): State {
    s.(records := s.records[r.fence.token := r])
  }

  function Drop(s: State, tid: nat): State {
    s.(tasks := s.tasks - {tid})
  }

  function Enter(s: State, tid: nat, task: Task): State {
    s.(tasks := s.tasks[tid := task])
  }

  /** Store a record and go on with `task`; a failed write ends the call. */
  function StoreThen(s: State, tid: nat, r: Record, write: bool, task: Task): State {
    if Stores(s, r.fence.token, write) then Enter(Put(s, r), tid, task) else Drop(s, tid)
  }

  function StoreEnd(s: State, tid: nat, r: Record, write: bool): State {
    if Stores(s, r.fence.token, write) then Drop(Put(s, r), tid) else Drop(s, tid)
  }

  function Attempt(s: State, kind: Kind, token: nat): State {
    s.(log := s.log + [Attempted(kind, token)])
  }

  // ----- the generations of the coordinator -----

  /** RadioGenerationFloor, as a bound over the journal. */
  predicate FloorOf(records: map<nat, Record>, floor: nat) {
    && (forall k :: k in records ==> records[k].fence.generation <= floor)
    && (floor == 0 || exists k :: k in records && records[k].fence.generation == floor)
  }

  /** enable: the counter is raised to the floor of the journal. */
  function StepEnable(s: State, process: nat, floor: nat): State {
    if !FloorOf(s.records, floor) || process == 0 then s
    else s.(ready := true, process := process, counter := if floor > s.counter then floor else s.counter)
  }

  /** The coordinator admits one operation at a time, each under a fresh generation. */
  function StepIssue(s: State, action: nat): State {
    if !s.ready || s.pending != 0 || action == 0 || action in s.issued.Values then s
    else s.(counter := s.counter + 1, pending := s.counter + 1, issued := s.issued[s.counter + 1 := action])
  }

  /** A refresh moves the generation, but never under a pending operation. */
  function StepMove(s: State): State {
    if !s.ready || s.pending != 0 then s else s.(counter := s.counter + 1)
  }

  /** The presentation is revoked only after a record was preempted and drained; no operation is pending then. */
  function StepRevoke(s: State, token: nat): State {
    if !s.ready || token !in s.records || !s.records[token].preempted || !s.records[token].terminal then s
    else s.(counter := s.counter + 1, pending := 0)
  }

  /** A call that the operation of this generation waits for. */
  predicate WorksFor(s: State, t: Task, generation: nat) {
    match t
    case Capturing(g, _, _) => g == generation
    case Effecting(_, fence, _, _) => fence.generation == generation
    case AwaitingNative(fence, _, _) => fence.generation == generation
    case Cancelling(token) => token in s.records && s.records[token].fence.generation == generation
    case _ => false
  }

  /** complete: the pending operation ends, when none of its calls is in flight. */
  function StepComplete(s: State): State {
    if exists tid :: tid in s.tasks && WorksFor(s, s.tasks[tid], s.pending) then s else s.(pending := 0)
  }

  function StepCrash(s: State): State {
    State(s.records, false, 0, 0, {}, map[], map[], 0, 0, map[], s.used, s.log)
  }

  // ----- PreflightOperation -----

  predicate AllSettled(records: map<nat, Record>, action: nat) {
    forall k :: k in records ==> records[k].terminal && records[k].fence.action != action
  }

  function StepPreflight(s: State, tid: nat, generation: nat, target: nat): State {
    if tid in s.tasks || generation !in s.issued || !s.ready || target == 0
      || !AllSettled(s.records, s.issued[generation]) then s
    else Enter(s, tid, Capturing(generation, s.issued[generation], target))
  }

  function NewRecord(s: State, token: nat, action: nat, generation: nat, target: nat, stage: Stage): Record {
    Record(Fence(0, token, action, generation), s.process, target, None, None, None, None, stage, false, 0, 0, false,
      Unset, false, None, false)
  }

  /** The intent was captured; the journal is checked again before the record is stored. */
  function StepCaptured(s: State, tid: nat, ok: bool, token: nat, write: bool): State {
    if tid !in s.tasks || !s.tasks[tid].Capturing? || token in s.used || token == 0 then s
    else
      var t := s.tasks[tid];
      if !ok || !AllSettled(s.records, t.action) then Drop(s, tid)
      else if !Stores(s, token, write) then Drop(s, tid).(used := s.used + {token})
      else
        var r := NewRecord(s, token, t.action, t.generation, t.target, PreflightAttempted);
        Attempt(Enter(Put(s, r), tid, Effecting(SenderPreflight, r.fence, false, Ask)), SenderPreflight, token).(
          used := s.used + {token}, live := s.live + {token})
  }

  datatype PeerReply = Prepared | Malformed | Unavailable | PeerFailed

  function StepPrepared(s: State, tid: nat, reply: PeerReply, write: bool): State {
    if tid !in s.tasks || !s.tasks[tid].Effecting? || s.tasks[tid].kind != SenderPreflight || !s.tasks[tid].called
       || s.tasks[tid].fence.token !in s.records
    then s
    else
      var r := s.records[s.tasks[tid].fence.token];
      if r.preempted || r.stage != PreflightAttempted then Drop(s, tid)
      else match reply
           case Unavailable =>
             StoreEnd(s, tid, r.(terminal := true, outcome := Rejected, stage := PreflightRejected), write)
           case Prepared => StoreEnd(s, tid, r.(stage := PreflightPrepared), write)
           case _ => Drop(s, tid)
  }

  // ----- Reserve -----

  predicate IsPrepared(r: Record, action: nat, generation: nat, target: nat) {
    r.fence.action == action && r.fence.generation == generation && r.stage == PreflightPrepared && r.target == target
  }

  /** Every record but the prepared one is settled. */
  predicate OthersSettled(records: map<nat, Record>, action: nat, generation: nat, target: nat) {
    forall k :: k in records && !IsPrepared(records[k], action, generation, target) ==>
      records[k].terminal && records[k].fence.action != action
  }

  function PriorOf(s: State): Option<Prior> {
    if s.active in s.records
    then Some(Prior(s.records[s.active].native, s.records[s.active].sender, s.records[s.active].target))
    else None
  }

  /** The hold retained for the target counts only under the same sender owner, which `keeps` tells. */
  function RetainedFor(s: State, target: nat, keeps: bool): Option<Prior> {
    if target in s.retained && keeps then Some(s.retained[target]) else None
  }

  /** A native hold that is kept is only passively read, never reserved again. */
  function NativeReuse(r: Record, source: bool): Reuse {
    if source && r.prior.Some? then Own(r.prior.value.native)
    else if r.retained.Some? then Own(r.retained.value.native)
    else if r.prior.Some? && r.prior.value.target == r.target then Own(r.prior.value.native)
    else Ask
  }

  function NativeTask(r: Record, source: bool): Task {
    match NativeReuse(r, source)
    case Own(hold) => AwaitingNative(r.fence, hold, source)
    case Ask => Effecting(NativeReserve, r.fence, false, Ask)
  }

  function Reserving(s: State, tid: nat, r0: Record, source: bool, keeps: bool, write: bool): State {
    var r := r0.(prior := PriorOf(s), retained := RetainedFor(s, r0.target, keeps), stage := NativeReserveAttempted);
    if !Stores(s, r.fence.token, write) then s
    else Attempt(Enter(Put(s, r), tid, NativeTask(r, source)), NativeReserve,
      r.fence.token).(live := s.live + {r.fence.token})
  }

  /** An operation goes on with its prepared record `key`. */
  function StepReserve(s: State, tid: nat, generation: nat, key: nat, target: nat, source: bool, keeps: bool,
    write: bool): State {
    if tid in s.tasks || generation !in s.issued || !s.ready || target == 0 || key !in s.records
       || !IsPrepared(s.records[key], s.issued[generation], generation, target)
       || !OthersSettled(s.records, s.issued[generation], generation, target)
    then s
    else Reserving(s, tid, s.records[key], source, keeps, write)
  }

  /** A stop or volume has no preflight: its record is new, under the active one. */
  function StepReserveSource(s: State, tid: nat, generation: nat, target: nat, token: nat, keeps: bool,
    write: bool): State {
    if tid in s.tasks || generation !in s.issued || !s.ready || token in s.used || token == 0 || s.active !in s.records
       || s.records[s.active].target != target || !AllSettled(s.records, s.issued[generation])
    then s
    else
      var t := s.(used := s.used + {token});
      Reserving(t, tid, NewRecord(t, token, s.issued[generation], generation, target, NativeReserveAttempted), true,
        keeps, write)
  }

  datatype NativeReply = Granted(hold: Hold) | OperationRejected | NativeFailed

  predicate AwaitsNative(s: State, tid: nat) {
    && tid in s.tasks && (s.tasks[tid].AwaitingNative?
      || (s.tasks[tid].Effecting? && s.tasks[tid].kind == NativeReserve && s.tasks[tid].called))
    && s.tasks[tid].fence.token in s.records
  }

  /** The first section of rejectCandidate: the rejection is durable before the candidate is cancelled. */
  function RejectCandidate(s: State, tid: nat, write: bool): State
    requires AwaitsNative(s, tid)
  {
    var token := s.tasks[tid].fence.token;
    var r := s.records[token];
    if s.tasks[tid].AwaitingNative? || r.preempted || r.stage != NativeReserveAttempted then Drop(s, tid)
    else StoreThen(s, tid, r.(rejection := true, stage := CandidateCancelAttempted), write, Cancelling(token))
  }

  function SenderTask(r: Record, t: Task): Task
    requires t.AwaitingNative? || t.Effecting?
  {
    Effecting(SenderReserve, t.fence, false, if t.AwaitingNative? && t.source && r.prior.Some?
      then Own(r.prior.value.sender) else Ask)
  }

  /** The native hold is known, from the port or kept. Only a preemption stops the late reply here. */
  function GrantNative(s: State, tid: nat, hold: Hold, write: bool): State
    requires AwaitsNative(s, tid)
  {
    var t := s.tasks[tid];
    var r := s.records[t.fence.token];
    if (t.AwaitingNative? && t.own != Some(hold)) || r.preempted || !Stores(s, t.fence.token, write) then Drop(s, tid)
    else
      Attempt(Enter(Put(s, r.(native := Some(hold), stage := SenderReserveAttempted)), tid, SenderTask(r, t)),
        SenderReserve, t.fence.token)
  }

  function StepNative(s: State, tid: nat, reply: NativeReply, write: bool): State {
    if !AwaitsNative(s, tid) then s
    else match reply
         case OperationRejected => RejectCandidate(s, tid, write)
         case NativeFailed => Drop(s, tid)
         case Granted(hold) => GrantNative(s, tid, hold, write)
  }

  /** The sender hold is known, from the port or kept. Again only a preemption stops the late reply. */
  function StepSender(s: State, tid: nat, hold: Option<Hold>, write: bool): State {
    if tid !in s.tasks || !s.tasks[tid].Effecting? || s.tasks[tid].kind != SenderReserve
      || s.tasks[tid].fence.token !in s.records
       || !(s.tasks[tid].called || s.tasks[tid].reuse.Own?)
    then s
    else
      var t := s.tasks[tid];
      var r := s.records[t.fence.token];
      if hold.None? || (t.reuse.Own? && hold != t.reuse.hold) || r.preempted || !Stores(s, t.fence.token, write)
        then Drop(s, tid)
      else
        var q := r.(sender := hold, fence := r.fence.(owner := hold.value.source), stage := ReservedStage);
        Drop(Put(s, q), tid).(retained := s.retained[r.target := Prior(r.native, hold, r.target)])
  }

  function StepCancelled(s: State, tid: nat, ok: bool, write: bool): State {
    if tid !in s.tasks || !s.tasks[tid].Cancelling? || s.tasks[tid].token !in s.records then s
    else
      var r := s.records[s.tasks[tid].token];
      if !ok || r.preempted || r.stage != CandidateCancelAttempted then Drop(s, tid)
      else StoreEnd(s, tid, r.(terminal := true, outcome := Rejected, stage := NoEffectsRejected), write)
  }

  // ----- effects under a fence -----

  function AttemptedStage(kind: Kind): Stage {
    match kind
    case SenderPreflight => PreflightAttempted
    case NativeReserve => NativeReserveAttempted
    case SenderReserve => SenderReserveAttempted
    case PauseSuspend => PauseAttempted
    case StartSource => StartAttempted
    case StopDrain => StopAttempted
    case SetVolume => VolumeAttempted
    case FinishOperation => FinishAttempted
  }

  predicate Fenced(kind: Kind) {
    kind.PauseSuspend? || kind.StartSource? || kind.StopDrain? || kind.SetVolume? || kind.FinishOperation?
  }

  /** The stages from which `admit` lets each effect begin. */
  predicate Permitted(kind: Kind, stage: Stage) {
    match kind
    case PauseSuspend => stage == ReservedStage || stage == StoppedStage
    case StartSource => stage == Suspended
    case StopDrain => stage == ReservedStage
    case SetVolume => stage == ReservedStage
    case FinishOperation => stage == Started || stage == StoppedStage || stage == VolumeObserved
    case _ => false
  }

  /** admit; `proceeds` is what is checked of the arguments once the stage is stored. */
  function StepAdmit(s: State, tid: nat, kind: Kind, fence: Fence, proceeds: bool, write: bool): State {
    if tid in s.tasks || !Fenced(kind) || fence.token !in s.records then s
    else
      var r := s.records[fence.token];
      if r.fence != fence || r.preempted || r.terminal || !Permitted(kind, r.stage) || !Stores(s, fence.token, write)
        then s
      else
        var t := Attempt(Put(s, r.(stage := AttemptedStage(kind))), kind, fence.token);
        if proceeds then Enter(t, tid, Effecting(kind, fence, false, Ask)) else t
  }

  /** A station change keeps the suspended source: it is read, and Spotify is not paused again. */
  predicate KeepsSource(r: Record) {
    r.native.Some?
    && ((r.retained.Some? && r.retained.value.native.Some?
      && r.retained.value.native.value.handoff == r.native.value.handoff)
        || (r.prior.Some? && r.prior.value.target == r.target && r.prior.value.native.Some?
            && r.prior.value.native.value.handoff == r.native.value.handoff))
  }

  /** The one port call of a task leaves. */
  function StepCall(s: State, tid: nat): State {
    if tid !in s.tasks || !s.tasks[tid].Effecting? || s.tasks[tid].called || s.tasks[tid].fence.token !in s.records
       || s.tasks[tid].reuse.Own?
       || (s.tasks[tid].kind == PauseSuspend && KeepsSource(s.records[s.tasks[tid].fence.token]))
    then s
    else
      var t := s.tasks[tid];
      Enter(s, tid, t.(called := true)).(log := s.log + [Called(t.kind, t.fence.token)])
  }

  function AdvancedStage(kind: Kind): Stage {
    match kind
    case PauseSuspend => Suspended
    case StartSource => Started
    case StopDrain => StoppedStage
    case SetVolume => VolumeObserved
    case _ => Finished
  }

  predicate Replied(s: State, tid: nat, kind: Kind) {
    && tid in s.tasks && s.tasks[tid].Effecting? && s.tasks[tid].kind == kind && s.tasks[tid].fence.token in s.records
    && (s.tasks[tid].called || (kind == PauseSuspend && KeepsSource(s.records[s.tasks[tid].fence.token])))
  }

  /** advance after pause, start or volume */
  function StepAdvance(s: State, tid: nat, kind: Kind, ok: bool, write: bool): State {
    if !(kind.PauseSuspend? || kind.StartSource? || kind.SetVolume?) || !Replied(s, tid, kind) then s
    else
      var f := s.tasks[tid].fence;
      var r := s.records[f.token];
      if !ok || r.fence != f || r.preempted || r.stage != AttemptedStage(kind) then Drop(s, tid)
      else StoreEnd(s, tid, r.(stage := AdvancedStage(kind)), write)
  }

  /** The record a stop drained: the source that the record was reserved over. */
  function DrainedKey(r: Record): nat {
    if r.prior.Some? && r.prior.value.sender.Some? then r.prior.value.sender.value.handoff else 0
  }

  /** The stop's ticket also goes to the prior record it drained, in a write of its own. */
  function StoreStopped(s: State, tid: nat, r: Record, ticket: Option<nat>, writePrior: bool, write: bool): State {
    var prior := DrainedKey(r);
    var after := r.(ticket := ticket, stage := StoppedStage);
    if r.prior.None? || prior !in s.records then StoreEnd(s, tid, after, write)
    else if !Stores(s, prior, writePrior) then Drop(s, tid)
    else StoreEnd(s.(records := s.records[prior := s.records[prior].(ticket := ticket)]), tid, after, write)
  }

  function StepStopped(s: State, tid: nat, ticket: Option<nat>, writePrior: bool, write: bool): State {
    if !Replied(s, tid, StopDrain) then s
    else
      var f := s.tasks[tid].fence;
      var r := s.records[f.token];
      if ticket.None? || r.preempted || r.fence != f || r.stage != StopAttempted then Drop(s, tid)
      else StoreStopped(s, tid, r, ticket, writePrior, write)
  }

  /** Finish looks at nothing but the preemption before it settles the record. */
  function StepFinished(s: State, tid: nat, committed: bool, playing: bool, write: bool): State {
    if !Replied(s, tid, FinishOperation) then s
    else
      var token := s.tasks[tid].fence.token;
      var r := s.records[token];
      if !committed || r.preempted || !Stores(s, token, write) then Drop(s, tid)
      else Drop(Put(s, r.(terminal := true, outcome := Committed, stage := Finished)), tid).(active := if playing
        then token else 0)
  }

  // ----- passive reads -----

  predicate IsPreflightStage(stage: Stage) {
    stage == PreflightAttempted || stage == PreflightPrepared || stage == PreflightRejected
      || stage == PreflightReconciled
  }

  /** Where Reconcile goes on: a known rejection is read from the sender, anything else from native first. */
  function ReconcileTask(r: Record, recovers: Option<Record>): Task {
    if r.rejection || (r.native.None? && IsPreflightStage(r.stage)) then ReadingRejected(r, recovers)
      else Reading(r, recovers)
  }

  function StepReconcile(s: State, tid: nat, token: nat): State {
    if tid in s.tasks || token !in s.records then s else Enter(s, tid, ReconcileTask(s.records[token], None))
  }

  datatype NativeResult = ResultRejected | ResultUnknown | ResultTerminal(outcome: Outcome, ticket: Option<nat>)

  /** A finished read: a plain reconcile returns it, a recovery looks at the record once more. */
  function Resolved(s: State, tid: nat, recovers: Option<Record>, outcome: Outcome): State {
    if recovers.None? then Drop(s, tid) else Enter(s, tid, Recovering(recovers.value, outcome))
  }

  function StepNativeResult(s: State, tid: nat, reply: NativeResult, write: bool): State {
    if tid !in s.tasks || !s.tasks[tid].Reading? || s.tasks[tid].read.fence.token !in s.records then s
    else
      var r, recovers := s.tasks[tid].read, s.tasks[tid].recovers;
      var current := s.records[r.fence.token];
      match reply
      case ResultRejected =>
        if current.fence != r.fence || current.preempted then Drop(s, tid)
        else
          var q := current.(rejection := true, stage := RejectionObserved);
          StoreThen(s, tid, q, write, ReadingRejected(q, recovers))
      case ResultUnknown => Drop(s, tid)
      case ResultTerminal(outcome, ticket) =>
        if r.preempted then
          if outcome != Preempted || r.ticket.None? || ticket != r.ticket then Drop(s, tid)
            else Resolved(s, tid, recovers, Preempted)
        else Enter(s, tid, ReadingSender(r, recovers))
  }

  /** The sender's own terminal result settles the record, unless it was preempted meanwhile. */
  function StepSenderResult(s: State, tid: nat, outcome: Outcome, playing: bool, matches: bool, current: bool,
    write: bool): State {
    if tid !in s.tasks || !s.tasks[tid].ReadingSender? || s.tasks[tid].read.fence.token !in s.records then s
    else
      var r, recovers := s.tasks[tid].read, s.tasks[tid].recovers;
      var token := r.fence.token;
      var c := s.records[token];
      if !matches || outcome !in {Committed, Rejected, Preempted} then Drop(s, tid)
      else if token !in s.live || c.preempted || c.fence != r.fence || !current then Resolved(s, tid, recovers, outcome)
      else if !Stores(s, token, write) then Drop(s, tid)
      else
        var priorActive := r.prior.Some? && r.prior.value.sender.Some?
          && s.active == r.prior.value.sender.value.handoff;
        Resolved(Put(s, c.(terminal := true, outcome := outcome, stage := Reconciled)), tid, recovers, outcome).(
          active := if outcome == Committed && playing then token else if s.active == token || priorActive then 0
            else s.active)
  }

  /** reconcileRejected */
  function StepRejectedResult(s: State, tid: nat, ok: bool, write: bool): State {
    if tid !in s.tasks || !s.tasks[tid].ReadingRejected? || s.tasks[tid].read.fence.token !in s.records then s
    else
      var r, recovers := s.tasks[tid].read, s.tasks[tid].recovers;
      var c := s.records[r.fence.token];
      if !ok || c.fence != r.fence || c.preempted || !Stores(s, r.fence.token, write) then Drop(s, tid)
      else
        var stage := if r.native.None? && IsPreflightStage(r.stage) then PreflightReconciled else RejectedReconciled;
        Resolved(Put(s, c.(terminal := true, outcome := Rejected, stage := stage)), tid, recovers, Rejected)
  }

  /** recoverPassive remembers an unsettled record... */
  function StepPending(s: State, tid: nat, token: nat): State {
    if tid in s.tasks || token !in s.records || s.records[token].terminal then s
      else Enter(s, tid, Pending(s.records[token]))
  }

  /** ...reads its terminal result from the sender if it only ever was a candidate... */
  function StepRecoverCandidate(s: State, tid: nat, rejected: bool, write: bool): State {
    if tid !in s.tasks || !s.tasks[tid].Pending? || s.tasks[tid].snapshot.fence.token !in s.records
       || !(s.tasks[tid].snapshot.stage == PreflightAttempted || s.tasks[tid].snapshot.stage == PreflightPrepared)
    then s
    else
      var r := s.tasks[tid].snapshot;
      var c := s.records[r.fence.token];
      if !rejected || c.stage != r.stage || c.terminal then Drop(s, tid)
      else StoreEnd(s, tid, c.(terminal := true, outcome := Rejected, stage := PreflightReconciled), write)
  }

  /** ...or reconciles it... */
  function StepRecoverReconcile(s: State, tid: nat): State {
    if tid !in s.tasks || !s.tasks[tid].Pending? || s.tasks[tid].snapshot.fence.token !in s.records
       || s.tasks[tid].snapshot.stage == PreflightAttempted || s.tasks[tid].snapshot.stage == PreflightPrepared
    then s
    else
      var r := s.tasks[tid].snapshot;
      var c := s.records[r.fence.token];
      if c.fence.action != r.fence.action || c.fence.generation != r.fence.generation then Drop(s, tid)
      else Enter(s, tid, ReconcileTask(c, Some(r)))
  }

  /** ...and settles it if nothing has touched it since. */
  function StepRecovered(s: State, tid: nat, write: bool): State {
    if tid !in s.tasks || !s.tasks[tid].Recovering? || s.tasks[tid].snapshot.fence.token !in s.records then s
    else
      var r := s.tasks[tid].snapshot;
      var c := s.records[r.fence.token];
      if c.terminal || c.fence != r.fence || c.stage != r.stage then Drop(s, tid)
      else StoreEnd(s, tid, c.(terminal := true, outcome := s.tasks[tid].outcome, stage := Reconciled), write)
  }

  // ----- preemption -----

  /** The record's source is the one that the native event names. */
  predicate Names(r: Record, q: Request) {
    && q.token != 0
    && (if r.native.Some? then
          var h := r.native.value;
          && h.handoff == q.handoff && h.process == q.process && h.target == q.target && h.generation == q.generation
          && (h.token == 0 || h.token == q.token)
        else
          && r.fence.token == q.handoff && r.process == q.process && r.target == q.target
          && r.fence.generation == q.generation)
  }

  /** The newest record of that source. */
  predicate Newest(records: map<nat, Record>, q: Request, key: nat) {
    && key in records && Names(records[key], q)
    && forall k :: k in records && Names(records[k], q) ==> records[k].fence.generation <= records[key].fence.generation
  }

  /** The out-of-band revocation is durable before anything is drained. */
  function StepPreempt(s: State, tid: nat, q: Request, key: nat, write: bool): State {
    if tid in s.tasks || q.action == 0 || q.challenge == 0 || !Newest(s.records, q, key) || s.records[key].preempted
      then s
    else
      var r := s.records[key].(preempted := true, preemptAction := q.action, challenge := q.challenge,
        terminal := false, stage := PreemptDrainAttempted);
      if !Stores(s, key, write) then s
      else Enter(s.(records := s.records[key := r]), tid, if r.native.None? then AskingHold(key, q)
        else Draining(key, q))
  }

  /** The hold of a reservation whose reply is still under way is read, and kept for the drain. */
  function StepHold(s: State, tid: nat, hold: Option<Hold>, write: bool): State {
    if tid !in s.tasks || !s.tasks[tid].AskingHold? || s.tasks[tid].token !in s.records then s
    else
      var key, q := s.tasks[tid].token, s.tasks[tid].request;
      var c := s.records[key];
      if hold.None? || hold.value.handoff != q.handoff || hold.value.process != q.process
        || hold.value.target != q.target
         || hold.value.generation != q.generation || hold.value.token != q.token
         || !c.preempted || c.preemptAction != q.action || c.stage != PreemptDrainAttempted || !Stores(s, key, write)
      then Drop(s, tid)
      else Enter(s.(records := s.records[key := c.(native := hold)]), tid, Draining(key, q))
  }

  function StepDrained(s: State, tid: nat, ticket: Option<nat>, write: bool): State {
    if tid !in s.tasks || !s.tasks[tid].Draining? || s.tasks[tid].token !in s.records then s
    else
      var key, q := s.tasks[tid].token, s.tasks[tid].request;
      var c := s.records[key];
      if ticket.None? || !c.preempted || c.preemptAction != q.action || c.stage != PreemptDrainAttempted
        || !Stores(s, key, write) then Drop(s, tid)
      else
        var held := q.target in s.retained && s.retained[q.target].native.Some?
          && s.retained[q.target].native.value.handoff == q.handoff;
        Drop(s, tid).(
          records := s.records[key := c.(ticket := ticket, stage := PreemptedStage, terminal := true,
            outcome := Preempted)],
          active := if s.active == key then 0 else s.active,
          retained := if held then s.retained - {q.target} else s.retained)
  }

  /** An authenticated release receipt of a preempted record is kept with it. */
  function StepReleased(s: State, token: nat, ticket: nat, write: bool): State {
    if token !in s.records || !s.records[token].preempted || s.records[token].ticket != Some(ticket)
      || !Stores(s, token, write) then s
    else s.(records := s.records[token := s.records[token].(released := true)])
  }

  // ----- runs -----

  datatype ControlEvent = Enable(process: nat,
    floor: nat) | Issue(action: nat) | Move | Revoke(token: nat) | Complete | Crash

  datatype OpenEvent =
    | Preflight(tid: nat, generation: nat, target: nat)
    | Captured(tid: nat, ok: bool, token: nat, write: bool)
    | PreparedReply(tid: nat, peer: PeerReply, write: bool)
    | Reserve(tid: nat, generation: nat, key: nat, target: nat, source: bool, keeps: bool, write: bool)
    | ReserveSource(tid: nat, generation: nat, target: nat, token: nat, keeps: bool, write: bool)

  datatype HoldEvent =
    | NativeAnswer(tid: nat, native: NativeReply, write: bool)
    | SenderAnswer(tid: nat, hold: Option<Hold>, write: bool)
    | CancelReply(tid: nat, ok: bool, write: bool)

  datatype EffectEvent =
    | Admit(tid: nat, kind: Kind, fence: Fence, proceeds: bool, write: bool)
    | Call(tid: nat)
    | Advance(tid: nat, kind: Kind, ok: bool, write: bool)
    | Stopped(tid: nat, ticket: Option<nat>, writePrior: bool, write: bool)
    | FinishReply(tid: nat, committed: bool, playing: bool, write: bool)

  datatype ReadEvent =
    | Reconcile(tid: nat, token: nat)
    | NativeResultReply(tid: nat, result: NativeResult, write: bool)
    | SenderResultReply(tid: nat, outcome: Outcome, playing: bool, matches: bool, current: bool, write: bool)
    | RejectedResultReply(tid: nat, ok: bool, write: bool)

  datatype RecoverEvent =
    | Remember(tid: nat, token: nat)
    | RecoverCandidate(tid: nat, rejected: bool, write: bool)
    | RecoverReconcile(tid: nat)
    | RecoveredReply(tid: nat, write: bool)

  datatype PreemptEvent =
    | Preempt(tid: nat, request: Request, key: nat, write: bool)
    | HoldReply(tid: nat, hold: Option<Hold>, write: bool)
    | DrainReply(tid: nat, ticket: Option<nat>, write: bool)
    | ReleaseReceipt(token: nat, receipt: nat, write: bool)

  datatype Event =
    | Control(control: ControlEvent)
    | Opening(open: OpenEvent)
    | Holding(hold: HoldEvent)
    | Effect(effect: EffectEvent)
    | Read(read: ReadEvent)
    | Recovery(recover: RecoverEvent)
    | Preemption(preempt: PreemptEvent)

  function StepControl(s: State, e: ControlEvent): State {
    match e
    case Enable(process, floor) => StepEnable(s, process, floor)
    case Issue(action) => StepIssue(s, action)
    case Move => StepMove(s)
    case Revoke(token) => StepRevoke(s, token)
    case Complete => StepComplete(s)
    case Crash => StepCrash(s)
  }

  function StepOpen(s: State, e: OpenEvent): State {
    match e
    case Preflight(tid, generation, target) => StepPreflight(s, tid, generation, target)
    case Captured(tid, ok, token, write) => StepCaptured(s, tid, ok, token, write)
    case PreparedReply(tid, peer, write) => StepPrepared(s, tid, peer, write)
    case Reserve(tid, generation, key, target, source, keeps, write) =>
      StepReserve(s, tid, generation, key, target, source, keeps, write)
    case ReserveSource(tid, generation, target, token, keeps, write) =>
      StepReserveSource(s, tid, generation, target, token, keeps, write)
  }

  function StepHolding(s: State, e: HoldEvent): State {
    match e
    case NativeAnswer(tid, native, write) => StepNative(s, tid, native, write)
    case SenderAnswer(tid, hold, write) => StepSender(s, tid, hold, write)
    case CancelReply(tid, ok, write) => StepCancelled(s, tid, ok, write)
  }

  function StepEffect(s: State, e: EffectEvent): State {
    match e
    case Admit(tid, kind, fence, proceeds, write) => StepAdmit(s, tid, kind, fence, proceeds, write)
    case Call(tid) => StepCall(s, tid)
    case Advance(tid, kind, ok, write) => StepAdvance(s, tid, kind, ok, write)
    case Stopped(tid, ticket, writePrior, write) => StepStopped(s, tid, ticket, writePrior, write)
    case FinishReply(tid, committed, playing, write) => StepFinished(s, tid, committed, playing, write)
  }

  function StepRead(s: State, e: ReadEvent): State {
    match e
    case Reconcile(tid, token) => StepReconcile(s, tid, token)
    case NativeResultReply(tid, result, write) => StepNativeResult(s, tid, result, write)
    case SenderResultReply(tid, outcome, playing, matches, current, write) =>
      StepSenderResult(s, tid, outcome, playing, matches, current, write)
    case RejectedResultReply(tid, ok, write) => StepRejectedResult(s, tid, ok, write)
  }

  function StepRecover(s: State, e: RecoverEvent): State {
    match e
    case Remember(tid, token) => StepPending(s, tid, token)
    case RecoverCandidate(tid, rejected, write) => StepRecoverCandidate(s, tid, rejected, write)
    case RecoverReconcile(tid) => StepRecoverReconcile(s, tid)
    case RecoveredReply(tid, write) => StepRecovered(s, tid, write)
  }

  function StepPreemption(s: State, e: PreemptEvent): State {
    match e
    case Preempt(tid, request, key, write) => StepPreempt(s, tid, request, key, write)
    case HoldReply(tid, hold, write) => StepHold(s, tid, hold, write)
    case DrainReply(tid, ticket, write) => StepDrained(s, tid, ticket, write)
    case ReleaseReceipt(token, receipt, write) => StepReleased(s, token, receipt, write)
  }

  function Step(s: State, e: Event): State {
    match e
    case Control(control) => StepControl(s, control)
    case Opening(open) => StepOpen(s, open)
    case Holding(hold) => StepHolding(s, hold)
    case Effect(effect) => StepEffect(s, effect)
    case Read(read) => StepRead(s, read)
    case Recovery(recover) => StepRecover(s, recover)
    case Preemption(preempt) => StepPreemption(s, preempt)
  }

  function Run(es: seq<Event>): State {
    Runs.Run(Step, Init(), es)
  }
}
