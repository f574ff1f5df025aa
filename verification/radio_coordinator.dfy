/**
  The radio coordinator: one user operation at a time, published only if no preemption moved the
  generation. Each event is one critical section of its mutex, or one backend reply together with
  the section it leads into.
 */
module RadioCoordinatorModel {
  import Runs

  datatype Option<+T> = None | Some(value: T)

  datatype Playback = Playing | StoppedPlayback | Idle | Preparing | UnknownPlayback

  datatype Kind = RadioKind | SpotifyKind | NoneKind | UnknownKind

  datatype Target = Target(id: nat, selectable: bool, available: bool)

  /** The published state; 0 stands for an empty text. */
  datatype Radio = Radio(
    enabled: bool,
    process: nat,
    targets: seq<Target>,
    playback: Playback,
    kind: Kind,
    owner: nat,
    station: nat,
    target: nat,
    observedAt: Option<int>,
    validUntil: Option<int>,
    retrievedAt: Option<int>,
    volume: Option<int>,
    generation: nat,
    revision: nat,
    error: bool)

  datatype Action = Start | Stop | Move | Volume

  datatype Command = Command(
    id: nat,
    action: Action,
    station: nat,
    target: nat,
    volume: Option<int>,
    revision: nat,
    process: nat,
    generation: nat,
    owner: nat)

  datatype Fence = Fence(owner: nat, token: nat, action: nat, generation: nat)

  datatype Observation = Observation(
    playback: Playback, station: nat, target: nat, kind: Kind, owner: nat, observedAt: int, validUntil: int,
      volume: Option<int>)

  datatype Outcome = Committed | Rejected | Preempted | OtherOutcome

  datatype Reconciliation = Reconciliation(
    action: nat, generation: nat, token: nat, terminal: bool, outcome: Outcome, observation: Observation)

  datatype Call = CallStop | CallPause | CallStart | CallVolume | CallFinish

  /** Where one execute call stands: which backend call it waits for. */
  datatype Phase = Preflight | Checking | Reserve | Effects(fence: Fence, todo: seq<Call>)

  datatype Thread = Thread(command: Command, before: Radio, generation: nat, phase: Phase)

  /** One refresh call, with what it captured. */
  datatype Refresher = Refresher(generation: nat, unknown: bool, fence: Fence, operation: Option<Command>)

  datatype Entry =
    | Admitted(generation: nat, command: Command, before: Radio)
    | Called(generation: nat, call: Call, action: nat)
    | Reserved(generation: nat, action: nat)
    | Completed(generation: nat, failed: bool, effected: bool, after: Radio)
    | PreemptedAt(generation: nat)
    | Moved(generation: nat)

  datatype State = State(
    radio: Radio,
    pending: bool,
    fence: Fence,
    operation: Option<Command>,
    seen: set<nat>,
    threads: map<nat, Thread>,
    refreshers: map<nat, Refresher>,
    now: int,
    log: seq<Entry>)

  const NO_FENCE := Fence(0, 0, 0, 0)
  const MAX_SEEN := 4096
  const STATIONS := 5

  function Init(): State {
    State(Radio(false, 1, [], Idle, UnknownKind, 0, 0, 0, None, None, None, None, 0, 1, false),
          false, NO_FENCE, None, {}, map[], map[], 0, [])
  }

  predicate ValidStation(station: nat) {
    1 <= station <= STATIONS
  }

  predicate Percent(v: int) {
    0 <= v <= 100
  }

  // ----- observations -----

  /** validRadioObservation */
  predicate ValidObservation(o: Observation, now: int) {
    && 0 < o.observedAt <= now && o.validUntil > now && o.validUntil >= o.observedAt && o.playback != Preparing
    && (o.kind == RadioKind ==> ValidStation(o.station) && o.target != 0)
    && (o.volume.Some? ==> Percent(o.volume.value))
  }

  /** applyRadioObservation */
  function Apply(r: Radio, o: Observation, now: int): Radio {
    r.(playback := o.playback, kind := o.kind, owner := o.owner, station := o.station, target := o.target,
       observedAt := Some(o.observedAt), validUntil := Some(o.validUntil), retrievedAt := Some(now), volume := o.volume)
  }

  /** A committed observation must be what the operation asked for. */
  predicate FitsOperation(o: Observation, q: Command) {
    match q.action
    case Start => o.playback == Playing && o.kind == RadioKind && o.station == q.station && o.target == q.target
    case Move => o.playback == Playing && o.kind == RadioKind && o.station == q.station && o.target == q.target
    case Volume =>
      o.kind == RadioKind && o.station == q.station && o.target == q.target && o.volume.Some? && o.volume == q.volume
    case Stop => o.playback == StoppedPlayback && o.kind == NoneKind
  }

  /** validRadioReconciliation */
  predicate ValidReconciliation(r: Reconciliation, f: Fence, operation: Option<Command>, now: int) {
    && r.terminal && r.action == f.action && r.generation == f.generation && (f.token != 0 ==> r.token == f.token)
    && ValidObservation(r.observation, now) && r.outcome != OtherOutcome
    && r.observation.playback != UnknownPlayback && r.observation.kind != UnknownKind
    && (r.outcome == Committed ==>
          && r.observation.owner != 0 && (f.owner != 0 ==> r.observation.owner == f.owner)
          && operation.Some? && FitsOperation(r.observation, operation.value))
  }

  // ----- offers -----

  predicate Selectable(t: Target) {
    t.selectable && t.available
  }

  predicate AnySelectable(r: Radio) {
    exists t :: t in r.targets && Selectable(t)
  }

  predicate AnyMovable(r: Radio) {
    exists t :: t in r.targets && Selectable(t) && t.id != r.target
  }

  predicate OnRoute(r: Radio) {
    exists t :: t in r.targets && t.id == r.target
  }

  /** A fresh observation of our own radio playing on a known route. */
  predicate Controllable(r: Radio, now: int) {
    && r.playback == Playing && r.kind == RadioKind && OnRoute(r)
    && r.observedAt.Some? && r.validUntil.Some? && r.observedAt.value <= now < r.validUntil.value
  }

  predicate Closed(s: State) {
    !s.radio.enabled || s.pending || s.radio.playback == Preparing || s.radio.playback == UnknownPlayback
  }

  /** actionsLocked */
  function Offers(s: State): set<Action> {
    if Closed(s) then {}
    else
      (if AnySelectable(s.radio) then {Start} else {})
      + (if Controllable(s.radio, s.now) then
           {Stop} + (if AnyMovable(s.radio) then {Move} else {})
           + (if s.radio.volume.Some? && Percent(s.radio.volume.value) then {Volume} else {})
         else {})
  }

  // ----- execute -----

  predicate ValidTarget(r: Radio, id: nat) {
    exists t :: t in r.targets && t.id == id && Selectable(t)
  }

  predicate WellFormed(r: Radio, q: Command) {
    match q.action
    case Start => ValidStation(q.station) && ValidTarget(r, q.target) && q.volume.None?
    case Move =>
      ValidTarget(r, q.target) && r.playback == Playing && r.kind == RadioKind && q.station == 0 && q.volume.None?
    case Stop => q.station == 0 && q.target == 0 && q.volume.None?
    case Volume =>
      r.playback == Playing && r.kind == RadioKind && q.volume.Some? && Percent(q.volume.value) && q.station == 0
        && q.target == 0
  }

  predicate Admissible(s: State, q: Command) {
    && s.radio.enabled && q.id != 0 && q.id !in s.seen && q.revision == s.radio.revision && q.process == s.radio.process
    && q.generation == s.radio.generation && q.owner == s.radio.owner && !s.pending
      && s.radio.playback != UnknownPlayback
    && q.action in Offers(s) && WellFormed(s.radio, q) && |s.seen| < MAX_SEEN
  }

  predicate PlayingRadio(r: Radio) {
    r.playback == Playing && r.kind == RadioKind
  }

  /** A move keeps the station. */
  function Resolved(r: Radio, q: Command): Command {
    if q.action == Move then q.(station := r.station) else q
  }

  /** Already there: nothing is done, though the action identity is spent. */
  predicate Satisfied(r: Radio, q: Command) {
    ((q.action == Start || q.action == Move) && PlayingRadio(r) && r.station == q.station && r.target == q.target)
    || (q.action == Stop && !PlayingRadio(r))
  }

  function AdmittedState(s: State, tid: nat, q: Command): State {
    var g := s.radio.generation + 1;
    s.(operation := Some(if q.action == Volume then q.(station := s.radio.station, target := s.radio.target) else q),
       pending := true,
       radio := s.radio.(generation := g, revision := s.radio.revision + 1, playback := Preparing, error := false),
       threads := s.threads[tid := Thread(q, s.radio, g, if q.action == Start || q.action == Move then Preflight
         else Checking)],
       log := s.log + [Admitted(g, q, s.radio)])
  }

  function StepAdmit(s: State, tid: nat, command: Command): State {
    if tid in s.threads || !Admissible(s, command) then s
    else
      var q := Resolved(s.radio, command);
      var t := s.(seen := s.seen + {q.id});
      if Satisfied(s.radio, q) then t else AdmittedState(t, tid, q)
  }

  /** complete: nothing is published for a generation that is no longer current. */
  function Complete(s: State, tid: nat, r: Radio, f: Fence, failed: bool, effected: bool): State
    requires tid in s.threads
  {
    var g := s.threads[tid].generation;
    var t := s.(threads := s.threads - {tid});
    if s.radio.generation != g then t
    else
      var shown := r.(revision := s.radio.revision + 1, generation := g, error := failed || r.error);
      var after := if failed && effected
        then shown.(playback := UnknownPlayback, kind := UnknownKind, observedAt := None, retrievedAt := None,
          validUntil := None)
        else shown;
      t.(pending := false, radio := after, fence := f, log := s.log + [Completed(g, failed, effected, after)])
  }

  /** The fence an operation has before native custody named one. */
  function BareFence(th: Thread): Fence {
    Fence(0, 0, th.command.id, th.generation)
  }

  function StepPreflight(s: State, tid: nat, ok: bool): State {
    if tid !in s.threads || !s.threads[tid].phase.Preflight? then s
    else
      var th := s.threads[tid];
      if ok then s.(threads := s.threads[tid := th.(phase := Checking)])
      else Complete(s, tid, th.before, BareFence(th), true, false)
  }

  /** Nothing is reserved for an operation that was preempted during its preflight. */
  function StepCheck(s: State, tid: nat): State {
    if tid !in s.threads || !s.threads[tid].phase.Checking? then s
    else
      var th := s.threads[tid];
      if s.radio.generation != th.generation || !s.pending then s.(threads := s.threads - {tid})
      else s.(threads := s.threads[tid := th.(phase := Reserve)],
        log := s.log + [Reserved(s.radio.generation, th.command.id)])
  }

  /** The old source is stopped before a new destination is acquired. */
  function Plan(th: Thread): seq<Call> {
    (if PlayingRadio(th.before) && th.command.action != Volume then [CallStop] else [])
    + (if th.command.action == Start || th.command.action == Move then [CallPause, CallStart] else [])
    + (if th.command.action == Volume then [CallVolume] else [])
    + [CallFinish]
  }

  datatype ReserveReply = NoEffects(fence: Fence) | ReserveFailed | Granted(fence: Fence)

  /** The granted fence is recorded before it is looked at, and whatever the generation is by then. */
  function StepReserve(s: State, tid: nat, reply: ReserveReply): State {
    if tid !in s.threads || !s.threads[tid].phase.Reserve? then s
    else
      var th := s.threads[tid];
      match reply
      case NoEffects(f) => Complete(s, tid, th.before, f, true, false)
      case ReserveFailed => Complete(s, tid, th.before, BareFence(th), true, true)
      case Granted(f) =>
        var t := s.(fence := f);
        if f.token == 0 || f.generation != th.generation || f.action != th.command.id
        then Complete(t, tid, th.before, f, true, true)
        else t.(threads := s.threads[tid := th.(phase := Effects(f, Plan(th)))])
  }

  /** The first call of the plan is made... */
  function StepCall(s: State, tid: nat, ok: bool): State {
    if tid !in s.threads || !s.threads[tid].phase.Effects? || |s.threads[tid].phase.todo| < 2 then s
    else
      var th := s.threads[tid];
      var f, todo := th.phase.fence, th.phase.todo;
      var t := s.(log := s.log + [Called(s.radio.generation, todo[0], th.command.id)]);
      if ok then t.(threads := s.threads[tid := th.(phase := Effects(f, todo[1..]))])
      else Complete(t, tid, th.before, f, true, true)
  }

  predicate Fulfils(o: Observation, th: Thread, f: Fence, now: int) {
    && ValidObservation(o, now) && o.owner == f.owner
    && match th.command.action
       case Start =>
         o.playback == Playing && o.kind == RadioKind && o.station == th.command.station
         && o.target == th.command.target
       case Move =>
         o.playback == Playing && o.kind == RadioKind && o.station == th.command.station
         && o.target == th.command.target
       case Stop => o.playback == StoppedPlayback && o.kind == NoneKind
       case Volume =>
         o.kind == RadioKind && o.target == th.before.target && o.station == th.before.station && o.volume.Some?
         && o.volume == th.command.volume
  }

  /** ...and the last one, Finish, yields the observation to publish. */
  function StepFinish(s: State, tid: nat, reply: Option<Observation>): State {
    if tid !in s.threads || !s.threads[tid].phase.Effects? || |s.threads[tid].phase.todo| != 1 then s
    else
      var th := s.threads[tid];
      var f := th.phase.fence;
      var t := s.(log := s.log + [Called(s.radio.generation, th.phase.todo[0], th.command.id)]);
      if reply.None? || !Fulfils(reply.value, th, f, s.now) then Complete(t, tid, th.before, f, true, true)
      else Complete(t, tid, Apply(th.before, reply.value, s.now), f, false, false)
  }

  // ----- the rest -----

  function StepEnable(s: State, targets: seq<Target>, floor: nat): State {
    if targets == [] || (exists i, j :: 0 <= i < j < |targets| && targets[i].id == targets[j].id)
      || (exists t :: t in targets && t.id == 0) then s
    else
      var g := if floor > s.radio.generation then floor else s.radio.generation;
      s.(radio := s.radio.(generation := g, enabled := true, targets := targets),
         log := if g != s.radio.generation then s.log + [Moved(g)] else s.log)
  }

  /** observeNativePreempt, with the target and generation the Spotify event was bound to */
  function StepPreempt(s: State, target: nat, generation: nat): State {
    if s.radio.target != target || s.radio.generation != generation then s
    else s.(radio := s.radio.(generation := s.radio.generation + 1, revision := s.radio.revision + 1,
      playback := UnknownPlayback,
                              kind := UnknownKind, station := 0, observedAt := None, validUntil := None, retrievedAt :=
                                None,
                              volume := None, error := false),
            pending := false, log := s.log + [PreemptedAt(s.radio.generation + 1)])
  }

  function StepRefresh(s: State, rid: nat): State {
    if rid in s.refreshers || !s.radio.enabled || s.pending then s
    else s.(refreshers := s.refreshers[rid := Refresher(s.radio.generation, s.radio.playback == UnknownPlayback,
      s.fence, s.operation)])
  }

  function StepTargets(s: State, rid: nat, targets: seq<Target>): State {
    if rid !in s.refreshers || s.pending || s.radio.generation != s.refreshers[rid].generation
      || targets == s.radio.targets then s
    else s.(radio := s.radio.(targets := targets, revision := s.radio.revision + 1))
  }

  /** A failed read withdraws the controls of an allegedly playing radio. */
  function StepObserveFailed(s: State, rid: nat): State {
    if rid !in s.refreshers || s.refreshers[rid].unknown then s
    else
      var t := s.(refreshers := s.refreshers - {rid});
      if s.pending || s.radio.generation != s.refreshers[rid].generation || s.radio.kind != RadioKind
        || s.radio.playback == UnknownPlayback then t
      else t.(radio := s.radio.(playback := UnknownPlayback, error := true, observedAt := None, validUntil := None,
        volume := None,
                                generation := s.radio.generation + 1, revision := s.radio.revision + 1),
              log := s.log + [Moved(s.radio.generation + 1)])
  }

  predicate Stale(r: Radio, o: Observation) {
    o.owner < r.owner || (o.owner == r.owner && r.observedAt.Some? && o.observedAt <= r.observedAt.value)
  }

  predicate Same(r: Radio, o: Observation) {
    o.playback == r.playback && o.station == r.station && o.target == r.target && o.owner == r.owner && o.kind == r.kind
  }

  function Published(s: State, o: Observation, unknown: bool): State {
    var moved := unknown || !Same(s.radio, o);
    var r := Apply(s.radio, o, s.now);
    s.(radio := r.(generation := if moved then r.generation + 1
      else r.generation, revision := if moved then r.revision + 1 else r.revision,
                   error := if unknown then false else r.error),
       log := if moved then s.log + [Moved(s.radio.generation + 1)] else s.log)
  }

  /** A refresh of a known state publishes a newer observation... */
  function StepObserved(s: State, rid: nat, o: Observation): State {
    if rid !in s.refreshers || s.refreshers[rid].unknown then s
    else
      var t := s.(refreshers := s.refreshers - {rid});
      if s.pending || s.radio.generation != s.refreshers[rid].generation || Stale(s.radio, o) then t
      else Published(t, o, false)
  }

  /** ...and one of an unknown state publishes only an exact reconciliation of the fence it captured. */
  function StepReconciled(s: State, rid: nat, r: Reconciliation): State {
    if rid !in s.refreshers || !s.refreshers[rid].unknown then s
    else
      var c := s.refreshers[rid];
      var t := s.(refreshers := s.refreshers - {rid});
      if !ValidReconciliation(r, c.fence, c.operation, s.now) || s.pending || s.radio.generation != c.generation then t
      else Published(t, r.observation, true)
  }

  /** result: a passive read answers only for the operation and fence that are still current after it. */
  predicate Answers(before: State, after: State, r: Reconciliation, process: nat, action: nat, generation: nat) {
    && before.radio.enabled && !before.pending && process == before.radio.process && action != 0
    && before.operation.Some? && action == before.operation.value.id && action == before.fence.action
      && generation == before.fence.generation
    && ValidReconciliation(r, before.fence, before.operation, after.now)
    && r.observation.observedAt >= after.now - 30 && r.observation.validUntil <= after.now + 30
    && !after.pending && after.radio.enabled && after.radio.process == process && after.operation == before.operation
      && after.fence == before.fence
  }

  // ----- runs -----

  datatype Event =
    | Admit(tid: nat, command: Command)
    | PreflightReply(tid: nat, ok: bool)
    | Check(tid: nat)
    | ReserveAnswer(tid: nat, reserve: ReserveReply)
    | CallReply(tid: nat, ok: bool)
    | FinishReply(tid: nat, finished: Option<Observation>)
    | Enable(targets: seq<Target>, floor: nat)
    | Preempt(target: nat, generation: nat)
    | Refresh(rid: nat)
    | RefreshTargets(rid: nat, targets: seq<Target>)
    | ObserveFailed(rid: nat)
    | Observed(rid: nat, observation: Observation)
    | Reconciled(rid: nat, reconciliation: Reconciliation)
    | Pass(elapsed: nat)

  function Step(s: State, e: Event): State {
    match e
    case Admit(tid, command) => StepAdmit(s, tid, command)
    case PreflightReply(tid, ok) => StepPreflight(s, tid, ok)
    case Check(tid) => StepCheck(s, tid)
    case ReserveAnswer(tid, reserve) => StepReserve(s, tid, reserve)
    case CallReply(tid, ok) => StepCall(s, tid, ok)
    case FinishReply(tid, finished) => StepFinish(s, tid, finished)
    case Enable(targets, floor) => StepEnable(s, targets, floor)
    case Preempt(target, generation) => StepPreempt(s, target, generation)
    case Refresh(rid) => StepRefresh(s, rid)
    case RefreshTargets(rid, targets) => StepTargets(s, rid, targets)
    case ObserveFailed(rid) => StepObserveFailed(s, rid)
    case Observed(rid, observation) => StepObserved(s, rid, observation)
    case Reconciled(rid, reconciliation) => StepReconciled(s, rid, reconciliation)
    case Pass(elapsed) => s.(now := s.now + elapsed)
  }

  function Run(es: seq<Event>): State {
    Runs.Run(Step, Init(), es)
  }
}
