/**
  Native attention: the manager ducks a HomePod with BEGIN/UPDATE/RELEASE commands and journals each
  BEGIN before it is sent. Every event is one critical section of the attention mutex, one reply of
  the native daemon together with the section it leads into, or a crash. Disk writes have three
  outcomes: saved, failed with the old image kept, failed with the new image in place.
 */
module AttentionModel {
  import Runs
  import opened CustodyJournal

  const U64_MAX := 0xFFFF_FFFF_FFFF_FFFF
  const MS := 1_000_000
  const DEFAULT_TTL := 2_000 * MS
  const MAX_TTL := 15_000 * MS

  function ClampTtl(request: int): (ttl: int)
    ensures 0 < ttl <= MAX_TTL && (0 < request ==> ttl <= request)
  {
    if request <= 0 then DEFAULT_TTL else if request > MAX_TTL then MAX_TTL else request
  }

  function ClampPct(v: int): int {
    if v < 0 then 0 else if v > 100 then 100 else v
  }

  /** A lease on one output. `identity` is what the first receipt of its BEGIN named. */
  datatype Grant = Grant(
    origin: Origin,
    identity: Option<Identity>,
    command: Command,
    result: Option<Result>,
    uncertain: bool,
    submitted: bool,
    revision: nat,
    lastRestore: nat)

  /** Who holds the room; `beat` is when the last heartbeat was accepted. */
  datatype Claim = Claim(
    nonce: nat,
    admission: nat,
    native: nat,
    restore: nat,
    active: bool,
    pendingRelease: bool,
    level: int,
    deadline: int,
    beat: int)

  datatype Gate = Gate(busy: bool, pending: bool, settling: bool, deleting: bool, effects: nat)

  /** The journal in memory, the image on disk, and whether this process may still save. */
  datatype Store = Store(journal: seq<Session>, disk: seq<Session>, fault: bool, imported: bool)

  datatype SaveOutcome = Saved | FailedOld | FailedNew

  /** When a command was minted, and the permission it was minted under. */
  datatype Mint = Mint(at: int, deadline: int, beat: int)

  /** One nativeReconcileWithMode call, with the values it captured. */
  datatype Job = Job(
    base: nat,
    target: nat,
    targetOnly: bool,
    releaseOnly: bool,
    nonce: nat,
    native: nat,
    restore: nat,
    active: bool,
    level: int)

  /** Where the call stands; every phase boundary is a released mutex or an HTTP exchange. */
  datatype Phase =
    | Poll(left: set<nat>)
    | Observe(output: nat, left: set<nat>)
    | Observed(output: nat, left: set<nat>)
    | Detect(output: nat, next: Phase)
    | Target
    | Minted(grant: Grant)
    | Put(output: nat, mint: Mint, next: Phase)
    | PutWait(output: nat, next: Phase)
    | Targeted
    | Restore(left: set<nat>)
    | RestoreGet(output: nat, left: set<nat>)
    | Lapsed(output: nat, left: set<nat>, operation: nat)
    | Released(output: nat, left: set<nat>)
    | Return

  /** One reconcileCustody call, on output `key` of session `k`. */
  datatype CustodyPhase =
    | CNext
    | CPut(k: nat, key: nat)
    | CPutWait(k: nat, key: nat)
    | CRead(k: nat, key: nat)
    | CCheck(k: nat, key: nat)
    | CReturn

  datatype Worker = Idle | Native(job: Job, at: Phase) | Custody(phase: CustodyPhase)

  /** A command sent to the daemon. */
  datatype Sent = Sent(action: Action, request: nat, device: nat, origin: Origin, expected: Identity, ttl: int,
    mint: Mint, imported: bool)

  /** A receipt accepted for a command. */
  datatype Receipt = Receipt(origin: Origin, request: nat, outcome: Outcome, process: nat, incarnation: nat, lease: nat)

  datatype History = History(sent: seq<Sent>, receipts: seq<Receipt>, used: set<nat>)

  datatype State = State(
    process: nat, now: int, claim: Claim, gate: Gate, store: Store, grants: map<nat, Grant>, worker: Worker,
      history: History)

  const NO_CLAIM := Claim(0, 0, 0, 0, false, false, 0, 0, 0)
  const OPEN_GATE := Gate(false, false, false, false, 0)

  /** A manager process that has loaded `disk`. */
  function Booted(process: nat, now: int, disk: seq<Session>, history: History): State {
    State(process, now, NO_CLAIM, OPEN_GATE, Store(disk, disk, !Loadable(disk), Loadable(disk) && Unretired(disk)),
          map[], Idle, history)
  }

  function Init(): State {
    Booted(1, 0, [], History([], [], {1}))
  }

  // ----- the store -----

  function Save(c: Store, outcome: SaveOutcome): Store {
    if c.fault then c
    else match outcome
         case Saved => c.(disk := c.journal)
         case FailedOld => c.(fault := true)
         case FailedNew => c.(disk := c.journal, fault := true)
  }

  predicate Durable(c: Store, outcome: SaveOutcome) {
    !c.fault && outcome.Saved?
  }

  predicate Names(s: Session, process: nat, nonce: nat, revision: nat) {
    s.process == process && s.nonce == nonce && s.revision == revision
  }

  function FindFrom(j: seq<Session>, from: nat, process: nat, nonce: nat, revision: nat): (k: Option<nat>)
    requires from <= |j|
    ensures k.Some? ==> from <= k.value < |j| && Names(j[k.value], process, nonce, revision)
    ensures k.None? ==> forall i :: from <= i < |j| ==> !Names(j[i], process, nonce, revision)
    decreases |j| - from
  {
    if from == |j| then None
    else if Names(j[from], process, nonce, revision) then Some(from)
    else FindFrom(j, from + 1, process, nonce, revision)
  }

  /** custodySessionLocked */
  function Current(s: State): (k: Option<nat>)
    ensures k.Some? ==>
      k.value < |s.store.journal| && Names(s.store.journal[k.value], s.process, s.claim.nonce, s.claim.admission)
  {
    FindFrom(s.store.journal, 0, s.process, s.claim.nonce, s.claim.admission)
  }

  function SetOutput(j: seq<Session>, k: nat, key: nat, o: Output): seq<Session>
    requires k < |j|
  {
    j[k := j[k].(outputs := j[k].outputs[key := o])]
  }

  function SetRetired(j: seq<Session>, k: nat): seq<Session>
    requires k < |j|
  {
    j[k := j[k].(retired := true)]
  }

  predicate Holds(s: State, k: Option<nat>, key: nat) {
    k.Some? && k.value < |s.store.journal| && key in s.store.journal[k.value].outputs
  }

  function OutputOf(s: State, k: Option<nat>, key: nat): Output
    requires Holds(s, k, key)
  {
    s.store.journal[k.value].outputs[key]
  }

  /** The output as custodyRetireLocked leaves it: never submitted, or with the grant's receipt as its release. */
  function WithProof(o: Output, g: Grant): Output {
    if !g.submitted then o.(noSubmission := true) else o.(release := g.result)
  }

  predicate MayRetire(o: Output, g: Grant) {
    g.submitted ==> ValidRelease(WithProof(o, g))
  }

  function Settled(o: Output, g: Grant): Output {
    if MayRetire(o, g) then WithProof(o, g).(retired := true) else WithProof(o, g)
  }

  /** custodyRetireLocked: a release that proves nothing is recorded but neither retires nor saves. */
  function RetireOutput(s: State, g: Grant, outcome: SaveOutcome): Store {
    var k := Current(s);
    if !Holds(s, k, g.origin.request) then s.store.(fault := true)
    else
      var o := OutputOf(s, k, g.origin.request);
      var c := s.store.(journal := SetOutput(s.store.journal, k.value, g.origin.request, Settled(o, g)));
      if MayRetire(o, g) then Save(c, outcome) else c
  }

  predicate Retires(s: State, g: Grant, outcome: SaveOutcome) {
    var k := Current(s);
    Holds(s, k, g.origin.request) && MayRetire(OutputOf(s, k, g.origin.request), g) && Durable(s.store, outcome)
  }

  predicate Blocked(s: State) {
    s.gate.deleting || s.store.fault || s.store.imported
  }

  // ----- the API -----

  function Expire(s: State): State {
    if s.claim.active && s.now > s.claim.deadline then s.(claim := s.claim.(active := false, pendingRelease := true))
      else s
  }

  function Engaged(s: State, level: int, ttl: int): State {
    s.(claim := s.claim.(native := s.claim.native + 1, active := true, pendingRelease := false,
      level := ClampPct(level),
                         deadline := s.now + ClampTtl(ttl), beat := s.now))
  }

  predicate MayEngage(s: State, nonce: nat, process: nat) {
    !Blocked(s) && nonce != 0 && process != 0 && process == s.process && s.claim.native != U64_MAX
  }

  predicate MayBegin(s: State, nonce: nat, revision: nat) {
    && revision == s.claim.admission && !s.claim.active && !s.claim.pendingRelease && !s.gate.pending && !s.gate.busy
    && nonce != s.claim.nonce && s.claim.admission != U64_MAX
  }

  /** The new session is saved before it is engaged. */
  function AdmitSession(s: State, nonce: nat, level: int, ttl: int, save: SaveOutcome): State {
    var c := s.store.(journal := s.store.journal + [Session(s.process, s.claim.admission + 1, nonce, false, map[])]);
    if !Durable(c, save) then s.(store := Save(c, save))
    else Engaged(s.(store := Save(c, save), claim := s.claim.(admission := s.claim.admission + 1, nonce := nonce)),
      level, ttl)
  }

  /** engageOwned with `begin`; a retry of an admitted begin is acknowledged and changes nothing. */
  function StepBeginSession(u: State, nonce: nat, process: nat, revision: nat, level: int, ttl: int,
    save: SaveOutcome): State {
    var s := Expire(u);
    if !MayEngage(s, nonce, process) || (s.claim.active && nonce == s.claim.nonce) || !MayBegin(s, nonce, revision)
      then s
    else AdmitSession(s, nonce, level, ttl, save)
  }

  /** engageOwned without `begin`: a heartbeat of the admitted session. */
  function StepHeartbeat(u: State, nonce: nat, process: nat, revision: nat, level: int, ttl: int): State {
    var s := Expire(u);
    if !MayEngage(s, nonce, process) || !s.claim.active || nonce != s.claim.nonce || revision != s.claim.admission
      then s
    else Engaged(s, level, ttl)
  }

  /** releaseOwned */
  function StepRelease(s: State, nonce: nat, process: nat, revision: nat): State {
    if nonce == 0 || nonce != s.claim.nonce || process != s.process || revision != s.claim.admission
       || (s.gate.settling && !s.claim.active && s.claim.pendingRelease)
       || s.claim.native == U64_MAX || s.claim.restore == U64_MAX
    then s
    else s.(claim := s.claim.(restore := s.claim.restore + 1, native := s.claim.native + 1, active := false,
      pendingRelease := true))
  }

  /** custodyMutationAdmission */
  function StepMutate(s: State): State {
    if Blocked(s) || s.gate.settling then s else s.(gate := s.gate.(effects := s.gate.effects + 1))
  }

  /** The end of an admitted mutation; the last effect of a deletion is its own. */
  function StepMutated(s: State): State {
    if s.gate.effects <= (if s.gate.deleting then 1 else 0) then s
    else s.(gate := s.gate.(effects := s.gate.effects - 1))
  }

  /** custodyDeleteAdmission */
  function StepDelete(s: State): State {
    if Blocked(s) || s.gate.busy || Unretired(s.store.journal) then s
    else s.(gate := s.gate.(deleting := true, effects := s.gate.effects + 1))
  }

  function StepDeleted(s: State): State {
    if !s.gate.deleting || s.gate.effects == 0 then s
    else s.(gate := s.gate.(deleting := false, effects := s.gate.effects - 1))
  }

  /** A crash or a daemon replacement; `process` is the fresh identity of the next manager. */
  function StepCrash(s: State, process: nat): State {
    if process in s.history.used then s
    else Booted(process, s.now, s.store.disk, s.history.(used := s.history.used + {process}))
  }

  // ----- receipts -----

  /** foldObserved: what a reply must be for this grant to accept it. */
  predicate Accepts(g: Grant, device: nat, r: Result) {
    && ValidIdentity(r.identity) && r.identity.device == device && r.request == g.command.request
    && r.action == g.command.action && r.operation != 0
    && (g.identity.Some? ==>
          r.identity.process == g.identity.value.process && r.identity.incarnation == g.identity.value.incarnation
          && r.identity.lease == g.identity.value.lease)
    && r.outcome in {Pending, DesiredOnly, ProtocolAccepted, Failed, Unknown}
    && (g.result.Some? && g.result.value.outcome != Pending ==> r.outcome == g.result.value.outcome)
  }

  function Folded(g: Grant, r: Result): Grant {
    g.(result := Some(r), uncertain := false, identity := if g.identity.None? then Some(r.identity) else g.identity)
  }

  function ReceiptOf(g: Grant, r: Result): Receipt {
    Receipt(g.origin, g.command.request, r.outcome, r.identity.process, r.identity.incarnation, r.identity.lease)
  }

  predicate Owes(g: Grant) {
    g.uncertain || (g.result.Some? && g.result.value.outcome == Pending)
  }

  /** nativeReleaseAccepted */
  predicate ReleaseAccepted(r: Result) {
    r.current && r.outcome == ProtocolAccepted && r.code == 200 && r.cseq > 0
  }

  predicate ReleaseUndone(g: Grant) {
    g.command.action == Release && g.result.Some? && g.result.value.outcome in {Failed, Unknown}
  }

  // ----- one native reconcile call -----

  function At(s: State, phase: Phase): State
    requires s.worker.Native?
  {
    s.(worker := Native(s.worker.job, phase))
  }

  predicate Requested(s: State, releaseOnly: bool, targetOnly: bool, target: nat) {
    && !s.gate.busy && !Blocked(s)
    && (releaseOnly ==>
      !s.claim.active && s.claim.pendingRelease && s.claim.nonce != 0 && !targetOnly && target == 0
      && s.gate.effects == 0)
  }

  function StepStart(u: State, base: nat, target: nat, targetOnly: bool, releaseOnly: bool): State {
    var s := Expire(u);
    if !Requested(s, releaseOnly, targetOnly, target) then s
    else
      var job := Job(base, target, targetOnly, releaseOnly, s.claim.nonce, s.claim.native, s.claim.restore,
        s.claim.active, s.claim.level);
      s.(gate := s.gate.(busy := true, settling := s.gate.settling || releaseOnly),
         worker := Native(job, if s.claim.nonce == 0 then Return else Poll(s.grants.Keys)))
  }

  /** inactiveOriginalCurrentLocked for output `d` */
  predicate InactiveCurrent(s: State, job: Job, d: nat) {
    && !s.claim.active && s.claim.pendingRelease && s.claim.nonce == job.nonce && s.claim.native == job.native
    && s.claim.restore == job.restore && s.gate.settling && !Blocked(s) && s.gate.effects == 0
    && d in s.grants && s.grants[d].identity.Some?
    && var g := s.grants[d]; var k := Current(s);
       && Holds(s, k, g.origin.request)
       && var o := OutputOf(s, k, g.origin.request);
          && !o.retired && o.base == job.base && o.device == d && o.origin == g.origin
          && o.original.process == g.identity.value.process && o.original.incarnation == g.identity.value.incarnation
  }

  predicate Allowed(s: State, job: Job, d: nat) {
    job.releaseOnly ==> InactiveCurrent(s, job, d)
  }

  function AfterTarget(s: State): Phase
    requires s.worker.Native?
  {
    if s.worker.job.targetOnly then Return else Restore(s.grants.Keys)
  }

  /** The first loop: every pending or lost receipt is read before anything else. */
  function StepPoll(s: State, d: nat): State {
    if !s.worker.Native? || !s.worker.at.Poll? then s
    else
      var left := s.worker.at.left;
      if left == {} then At(s, if s.worker.job.active && s.worker.job.target != 0 then Target else AfterTarget(s))
      else if d !in left || d !in s.grants then s
      else if !Owes(s.grants[d]) then At(s, Poll(left - {d}))
      else At(s, if Allowed(s, s.worker.job, d) then Observe(d, left - {d}) else Return)
  }

  /** A reply to command or receipt request of output `d`, then `next` unless the reply is refused. */
  function TakeReply(s: State, d: nat, reply: Option<Result>, next: Phase): State
    requires s.worker.Native? && d in s.grants
  {
    var g := s.grants[d];
    if reply.None? || !Accepts(g, d, reply.value) then At(s, Detect(d, Return))
    else
      var h := Folded(g, reply.value);
      At(s, if ReleaseUndone(h) then Detect(d, next) else next).(
        grants := s.grants[d := h], history := s.history.(receipts := s.history.receipts + [ReceiptOf(g, reply.value)]))
  }

  function StepObserved(s: State, reply: Option<Result>): State {
    if !s.worker.Native? || !s.worker.at.Observe? || s.worker.at.output !in s.grants then s
    else TakeReply(s, s.worker.at.output, reply, Observed(s.worker.at.output, s.worker.at.left))
  }

  function StepRecheck(s: State): State {
    if !s.worker.Native? || !s.worker.at.Observed? then s
    else At(s, if Allowed(s, s.worker.job, s.worker.at.output) then Poll(s.worker.at.left) else Return)
  }

  /** A daemon state with its recovery fields. */
  datatype Observation = Observation(state: Identity, idle: bool, drainedOperation: nat, drainedRequest: nat)

  /** The daemon is another process, or positively idle on a fresh incarnation or after this release. */
  predicate Replaced(g: Grant, d: nat, obs: Observation) {
    && ValidIdentity(obs.state) && obs.state.device == d
    && var idle := obs.idle && obs.state.lease == 0 && !obs.state.restoring;
       obs.state.process != g.command.expected.process
         || (idle && obs.state.incarnation != g.command.expected.incarnation)
       || (idle && ReleaseUndone(g) && obs.drainedOperation == g.result.value.operation
         && obs.drainedRequest == g.command.request)
  }

  /** The critical section of detectNativeReplacement: original cleanup custody is imported, never a lease. */
  function Imported(s: State, base: nat, d: nat): State {
    if s.store.fault || d !in s.grants then s
    else
      var g := s.grants[d];
      var k := Current(s);
      if !Holds(s, k, g.origin.request) then s.(store := s.store.(fault := true))
      else
        var o := OutputOf(s, k, g.origin.request);
        if o.retired || o.origin != g.origin || o.device != d || o.base != base
           || o.original.incarnation != g.command.expected.incarnation
        then s
        else s.(claim := s.claim.(active := false, pendingRelease := true,
                                  native := if s.claim.native < U64_MAX then s.claim.native + 1 else s.claim.native),
                store := s.store.(imported := true))
  }

  function StepDetect(s: State, obs: Option<Observation>): State {
    if !s.worker.Native? || !s.worker.at.Detect? then s
    else
      var d := s.worker.at.output;
      var t := if obs.Some? && d in s.grants && Replaced(s.grants[d], d, obs.value)
        then Imported(s, s.worker.job.base, d) else s;
      At(t, s.worker.at.next)
  }

  /** The conversation a command is minted for is still the one the call was started for. */
  predicate Permitted(s: State, job: Job) {
    s.claim.active && s.claim.nonce == job.nonce && s.claim.native == job.native && (s.claim.deadline - s.now) / MS > 0
  }

  function Residual(s: State): int {
    ClampTtl(s.claim.deadline - s.now) / MS
  }

  function MintNow(s: State): Mint {
    Mint(s.now, s.claim.deadline, s.claim.beat)
  }

  function NewGrant(job: Job, state: Identity, request: nat, ttl: int): Grant {
    Grant(Origin(state.process, request), None, Command(state, request, Begin, job.level, ttl), None, true, false,
      job.native, 0)
  }

  function NewOutput(job: Job, state: Identity, request: nat): Output {
    Output(job.base, job.target, Origin(state.process, request), state, false, false, None, None, None, false, {})
  }

  /** Under the mutex: custody of the BEGIN is saved before anything is sent. */
  function MintBegin(s: State, state: Identity, request: nat, save: SaveOutcome): State
    requires s.worker.Native?
  {
    var job := s.worker.job;
    var k := Current(s);
    if !Permitted(s, job) || request == 0 then At(s, Return)
    else if k.None? then At(s.(store := s.store.(fault := true)), Return)
    else
      var c := s.store.(journal := SetOutput(s.store.journal, k.value, request, NewOutput(job, state, request)));
      At(s, if Durable(c, save) then Minted(NewGrant(job, state, request, Residual(s))) else Return).(
        store := Save(c, save), history := s.history.(used := s.history.used + {request}))
  }

  predicate Beginnable(job: Job, state: Option<Identity>) {
    state.Some? && job.base != 0 && ValidIdentity(state.value) && state.value.device == job.target
      && state.value.lease == 0
  }

  /** The output was read idle and the route admitted. */
  function StepBegin(s: State, state: Option<Identity>, admit: bool, request: nat, save: SaveOutcome): State {
    if !s.worker.Native? || !s.worker.at.Target? || s.worker.job.target in s.grants || request in s.history.used then s
    else if !Beginnable(s.worker.job, state) || !admit then At(s, Return)
    else MintBegin(Expire(s), state.value, request, save)
  }

  /**
    Disk durability may have outlived the permission: then the BEGIN is retired unsent, else it gets its
    exact residual TTL.
   */
  function CommitBegin(s: State, g: Grant, admit: bool, save: SaveOutcome): State
    requires s.worker.Native?
  {
    var job := s.worker.job;
    if !admit || !Permitted(s, job) then At(s, Return).(store := RetireOutput(s, g, save))
    else At(s, Put(job.target, MintNow(s), Targeted)).(
           grants := s.grants[job.target := g.(command := g.command.(ttl := Residual(s)))], gate :=
             s.gate.(pending := true))
  }

  function StepBeginCommit(s: State, admit: bool, save: SaveOutcome): State {
    if !s.worker.Native? || !s.worker.at.Minted? then s else CommitBegin(Expire(s), s.worker.at.grant, admit, save)
  }

  predicate NeedsUpdate(g: Grant, job: Job) {
    && !(g.result.Some? && g.result.value.outcome == Pending) && g.revision != job.native
    && !(g.identity.Some? && g.identity.value.restoring)
  }

  predicate SameLease(g: Grant, state: Identity) {
    g.identity.Some? && state.process == g.identity.value.process && state.incarnation == g.identity.value.incarnation
    && state.lease == g.identity.value.lease
  }

  function Reissued(g: Grant, state: Identity, request: nat, action: Action, cap: int, ttl: int): Grant {
    g.(command := Command(state, request, action, cap, ttl), result := None, uncertain := true, submitted := false)
  }

  function StepUpdate(u: State, state: Option<Identity>, admit: bool, request: nat): State {
    if !u.worker.Native? || !u.worker.at.Target? || u.worker.job.target !in u.grants || request in u.history.used then u
    else
      var job := u.worker.job;
      var g := u.grants[job.target];
      if !NeedsUpdate(g, job) then At(u, Targeted)
      else if state.None? || !ValidIdentity(state.value) || !SameLease(g, state.value) || state.value.restoring
      then At(u, Detect(job.target, Return))
      else if !admit then At(u, Return)
      else
        var s := Expire(u);
        if !Permitted(s, job) || request == 0 then At(s, Return)
        else At(s, Put(job.target, MintNow(s), Targeted)).(
               grants := s.grants[job.target := Reissued(g, state.value, request, Update, job.level,
                 Residual(s)).(revision := job.native)],
               history := s.history.(used := s.history.used + {request}))
  }

  function StepTargeted(s: State): State {
    if !s.worker.Native? || !s.worker.at.Targeted? || s.worker.job.target !in s.grants then s
    else
      var g := s.grants[s.worker.job.target];
      if g.uncertain || g.result.None? || !g.result.value.current
        || g.result.value.outcome !in {ProtocolAccepted, DesiredOnly}
      then At(s, Return)
      else At(s, AfterTarget(s))
  }

  /** The one submission of a command. */
  function StepSubmit(s: State): State {
    if !s.worker.Native? || !s.worker.at.Put? || s.worker.at.output !in s.grants then s
    else
      var d := s.worker.at.output;
      var g := s.grants[d];
      if g.submitted then At(s, Detect(d, Return))
      else
        var sent := Sent(g.command.action, g.command.request, d, g.origin, g.command.expected, g.command.ttl,
          s.worker.at.mint, s.store.imported);
        At(s, PutWait(d, s.worker.at.next)).(
          grants := s.grants[d := g.(submitted := true, uncertain := true)],
          history := s.history.(sent := s.history.sent + [sent]))
  }

  function StepReply(s: State, reply: Option<Result>): State {
    if !s.worker.Native? || !s.worker.at.PutWait? || s.worker.at.output !in s.grants then s
    else TakeReply(s, s.worker.at.output, reply, s.worker.at.next)
  }

  /** The last loop: every lease but the selected one is restored. */
  function StepRestore(s: State, d: nat): State {
    if !s.worker.Native? || !s.worker.at.Restore? then s
    else
      var left := s.worker.at.left;
      if left == {} then At(s, Return)
      else if d !in left || d !in s.grants then s
      else
        var g := s.grants[d];
        At(s, if !Allowed(s, s.worker.job, d) then Return
              else if s.worker.job.active && d == s.worker.job.target then Restore(left - {d})
              else if Owes(g) then Return
              else if g.command.action == Release && g.result.Some? && ReleaseAccepted(g.result.value)
                then Released(d, left - {d})
              else RestoreGet(d, left - {d}))
  }

  predicate SameFailedRelease(g: Grant, state: Identity, restore: nat) {
    && g.command.action == Release && g.lastRestore == restore
    && state.base == g.command.expected.base && state.session == g.command.expected.session
  }

  function StepRestoreState(s: State, state: Option<Identity>, lastRelease: nat, request: nat): State {
    if !s.worker.Native? || !s.worker.at.RestoreGet? || s.worker.at.output !in s.grants || request in s.history.used
      then s
    else
      var d, left, job := s.worker.at.output, s.worker.at.left, s.worker.job;
      var g := s.grants[d];
      if state.None? || !ValidIdentity(state.value) || g.identity.None?
        || state.value.process != g.identity.value.process
         || state.value.incarnation != g.identity.value.incarnation || (job.releaseOnly && state.value.device != d)
      then At(s, Detect(d, Return))
      else if !Allowed(s, job, d) then At(s, Return)
      else if state.value.lease == 0 then At(s, Detect(d, Lapsed(d, left, lastRelease)))
      else if state.value.lease != g.identity.value.lease || SameFailedRelease(g, state.value, job.restore)
        || request == 0 then At(s, Return)
      else At(s, Put(d, MintNow(s), Released(d, left))).(
             grants := s.grants[d := Reissued(g, state.value, request, Release, 0, 0).(lastRestore := job.restore)],
             history := s.history.(used := s.history.used + {request}))
  }

  /** retireNativeGrant, then the rest of the loop. */
  function RetireGrant(s: State, d: nat, g: Grant, left: set<nat>, save: SaveOutcome): State
    requires s.worker.Native?
  {
    if Retires(s, g, save) then At(s, Restore(left)).(store := RetireOutput(s, g, save), grants := s.grants - {d})
    else At(s, Return).(store := RetireOutput(s, g, save))
  }

  /** The terminal release the daemon made by itself when the lease's TTL ran out. */
  predicate Adoptable(g: Grant, d: nat, operation: nat, terminal: Result) {
    && operation != 0 && ValidIdentity(terminal.identity) && SameLease(g, terminal.identity)
      && terminal.identity.device == d
    && terminal.operation == operation && terminal.action == Release && ReleaseAccepted(terminal)
  }

  function StepAdopt(s: State, terminal: Option<Result>, save: SaveOutcome): State {
    if !s.worker.Native? || !s.worker.at.Lapsed? || s.worker.at.output !in s.grants then s
    else
      var d := s.worker.at.output;
      var g := s.grants[d];
      if Blocked(s) || terminal.None? || !Adoptable(g, d, s.worker.at.operation, terminal.value)
        || !Allowed(s, s.worker.job, d)
      then At(s, Return)
      else
        var h := g.(result := terminal);
        RetireGrant(s.(grants := s.grants[d := h]), d, h, s.worker.at.left, save)
  }

  function StepReleased(s: State, save: SaveOutcome): State {
    if !s.worker.Native? || !s.worker.at.Released? || s.worker.at.output !in s.grants then s
    else
      var d := s.worker.at.output;
      var g := s.grants[d];
      if g.result.None? || !ReleaseAccepted(g.result.value) || !Allowed(s, s.worker.job, d) then At(s, Return)
      else RetireGrant(s, d, g, s.worker.at.left, save)
  }

  predicate AllRetired(s: Session) {
    forall key :: key in s.outputs ==> s.outputs[key].retired
  }

  /** custodyFinishLocked: its new store, and whether it reports success. */
  function FinishStore(s: State, save: SaveOutcome): Store {
    var k := Current(s);
    if s.claim.nonce == 0 || k.None? || s.store.journal[k.value].retired || !AllRetired(s.store.journal[k.value])
      then s.store
    else Save(s.store.(journal := SetRetired(s.store.journal, k.value)), save)
  }

  predicate Finishes(s: State, save: SaveOutcome) {
    s.claim.nonce == 0
    || (Current(s).Some?
        && (s.store.journal[Current(s).value].retired
            || (AllRetired(s.store.journal[Current(s).value]) && Durable(s.store, save))))
  }

  /** The deferred end of a native reconcile call. */
  function StepExit(s: State, save: SaveOutcome): State {
    if !s.worker.Native? || !s.worker.at.Return? then s
    else
      var pending := s.grants != map[];
      var t := s.(gate := s.gate.(busy := false, pending := pending, settling := s.gate.settling
        && !s.worker.job.releaseOnly), worker := Idle);
      if s.claim.active || pending then t
      else t.(store := FinishStore(s, save),
              claim := if Finishes(s, save) then s.claim.(pendingRelease := false) else s.claim)
  }

  // ----- one custody reconcile call -----

  function CAt(s: State, phase: CustodyPhase): State {
    s.(worker := Custody(phase))
  }

  function StepCustodyStart(s: State): State {
    if !Blocked(s) || s.store.fault || s.gate.busy || s.gate.effects > 0 then s
    else CAt(s.(gate := s.gate.(busy := true)), CNext)
  }

  predicate FirstUnretired(j: seq<Session>, k: nat) {
    k < |j| && !j[k].retired && forall i :: 0 <= i < k ==> j[i].retired
  }

  /** A recovery that ended without a receipt and that the daemon has drained or outlived. */
  predicate RecoveryDrained(o: Output, obs: Observation) {
    && o.recovery.Some? && o.result.Some? && o.result.value.result.outcome in {Failed, Unknown}
    && ValidRecoveryObservation(o.recovery.value, o.device, o.result.value)
    && obs.drainedOperation == o.result.value.result.operation && obs.drainedRequest == o.recovery.value.command.request
    && Drain(obs.state.process, obs.drainedOperation, obs.drainedRequest) !in o.consumed
  }

  predicate RecoveryOutlived(o: Output, obs: Observation) {
    && o.recovery.Some? && o.result.Some? && o.result.value.result.outcome in {Failed, Unknown}
    && ValidRecoveryObservation(o.recovery.value, o.device, o.result.value)
    && (obs.state.incarnation != o.recovery.value.command.expected.incarnation
      || obs.state.session != o.recovery.value.command.expected.session)
  }

  predicate NeedsRecovery(o: Output, obs: Observation) {
    o.rejected || o.recovery.None? || o.recovery.value.command.expected.process != obs.state.process
    || RecoveryDrained(o, obs) || RecoveryOutlived(o, obs)
  }

  function Recovering(o: Output, obs: Observation, request: nat): Output {
    o.(rejected := false,
       recovery := Some(RecoveryCommand(Command(obs.state, request, Recover, 0, 0), o.origin)),
       result := None,
       consumed := if RecoveryDrained(o, obs) then o.consumed
         + {Drain(obs.state.process, obs.drainedOperation, obs.drainedRequest)} else o.consumed)
  }

  function SaveOutput(s: State, k: nat, key: nat, o: Output, save: SaveOutcome, next: CustodyPhase): State
    requires k < |s.store.journal|
  {
    var c := s.store.(journal := SetOutput(s.store.journal, k, key, o));
    CAt(s, if Durable(c, save) then next else CReturn).(store := Save(c, save))
  }

  predicate Works(s: State, k: nat, key: nat) {
    k < |s.store.journal| && key in s.store.journal[k].outputs
  }

  /** The daemon's state was read for an unretired output of the first unretired session. */
  function StepCustodyState(s: State, k: nat, key: nat, obs: Option<Observation>, cooling: bool, request: nat,
    save: SaveOutcome): State {
    if s.worker != Custody(CNext) || !FirstUnretired(s.store.journal, k) || !Works(s, k, key)
      || request in s.history.used
       || s.store.journal[k].outputs[key].retired
    then s
    else
      var o := s.store.journal[k].outputs[key];
      if obs.None? || !ValidIdentity(obs.value.state) || obs.value.state.device != o.device || s.store.fault
        || (o.rejected && cooling)
      then CAt(s, CReturn)
      else if !NeedsRecovery(o, obs.value) then
        CAt(s, if o.result.None? || o.result.value.result.outcome == Pending then CRead(k, key) else CCheck(k, key))
      else if obs.value.state.lease != 0 || obs.value.state.restoring || !obs.value.idle || request == 0
        then CAt(s, CReturn)
      else SaveOutput(s, k, key, Recovering(o, obs.value, request), save, CPut(k, key)).(
             history := s.history.(used := s.history.used + {request}))
  }

  function StepCustodySubmit(s: State): State {
    if !s.worker.Custody? || !s.worker.phase.CPut? || !Works(s, s.worker.phase.k, s.worker.phase.key)
       || s.store.journal[s.worker.phase.k].outputs[s.worker.phase.key].recovery.None?
    then s
    else
      var k, key := s.worker.phase.k, s.worker.phase.key;
      var o := s.store.journal[k].outputs[key];
      var c := o.recovery.value.command;
      CAt(s, CPutWait(k, key)).(
        history := s.history.(sent := s.history.sent
          + [Sent(Recover, c.request, o.device, o.origin, c.expected, 0, MintNow(s), s.store.imported)]))
  }

  datatype RecoveryReply = Lost | BadRequest | Got(result: RecoveryResult)

  /** A 400 precedes dispatch, so the attempt is marked rejected; any other failure leaves it to be read. */
  function StepCustodyReply(s: State, reply: RecoveryReply, save: SaveOutcome): State {
    if !s.worker.Custody? || !s.worker.phase.CPutWait? || !Works(s, s.worker.phase.k, s.worker.phase.key) then s
    else
      var k, key := s.worker.phase.k, s.worker.phase.key;
      var o := s.store.journal[k].outputs[key];
      if s.store.fault || o.retired || o.recovery.None? then CAt(s, CReturn)
      else match reply
           case Lost => CAt(s, CReturn)
           case BadRequest =>
             if o.result.Some? then CAt(s, CReturn) else SaveOutput(s, k, key, o.(rejected := true), save, CReturn)
           case Got(r) =>
             if !ValidRecoveryObservation(o.recovery.value, o.device, r) then CAt(s, CReturn)
             else SaveOutput(s, k, key, o.(result := Some(r)), save, CCheck(k, key))
  }

  function StepCustodyRead(s: State, reply: Option<RecoveryResult>, save: SaveOutcome): State {
    if !s.worker.Custody? || !s.worker.phase.CRead? || !Works(s, s.worker.phase.k, s.worker.phase.key) then s
    else
      var k, key := s.worker.phase.k, s.worker.phase.key;
      var o := s.store.journal[k].outputs[key];
      if reply.None? || o.recovery.None? || !ValidRecoveryObservation(o.recovery.value, o.device, reply.value)
        then CAt(s, CReturn)
      else SaveOutput(s, k, key, o.(result := reply), save, CCheck(k, key))
  }

  predicate Proved(o: Output) {
    o.recovery.Some? && o.result.Some? && RecoveryReceipt(o.recovery.value, o.original, o.device, o.result.value)
  }

  function StepCustodyRetire(s: State, save: SaveOutcome): State {
    if !s.worker.Custody? || !s.worker.phase.CCheck? || !Works(s, s.worker.phase.k, s.worker.phase.key) then s
    else
      var k, key := s.worker.phase.k, s.worker.phase.key;
      var o := s.store.journal[k].outputs[key];
      if !Proved(o) then CAt(s, CReturn) else SaveOutput(s, k, key, o.(retired := true), save, CNext)
  }

  function StepSessionRetire(s: State, k: nat, save: SaveOutcome): State {
    if s.worker != Custody(CNext) || !FirstUnretired(s.store.journal, k) || !AllRetired(s.store.journal[k]) then s
    else
      var c := s.store.(journal := SetRetired(s.store.journal, k));
      CAt(s, if Durable(c, save) then CNext else CReturn).(store := Save(c, save))
  }

  function StepCustodyDone(s: State): State {
    if s.worker != Custody(CNext) || Unretired(s.store.journal) then s
    else CAt(s, CReturn).(store := s.store.(imported := false), grants := map[], gate := s.gate.(pending := false),
                          claim := s.claim.(pendingRelease := false, active := false))
  }

  function StepCustodyReturn(s: State): State {
    if s.worker != Custody(CReturn) then s else s.(gate := s.gate.(busy := false), worker := Idle)
  }

  // ----- runs -----

  datatype ApiEvent =
    | BeginSession(nonce: nat, process: nat, revision: nat, level: int, ttl: int, save: SaveOutcome)
    | Heartbeat(nonce: nat, process: nat, revision: nat, level: int, ttl: int)
    | ReleaseSession(nonce: nat, process: nat, revision: nat)
    | Mutate | Mutated | Delete | Deleted
    | Expiry
    | Pass(elapsed: nat)
    | Crash(process: nat)

  datatype NativeEvent =
    | EvStart(base: nat, target: nat, targetOnly: bool, releaseOnly: bool)
    | EvPoll(d: nat)
    | EvObserved(reply: Option<Result>)
    | EvRecheck
    | EvDetect(obs: Option<Observation>)
    | EvBegin(state: Option<Identity>, admit: bool, request: nat, save: SaveOutcome)
    | EvBeginCommit(admit: bool, save: SaveOutcome)
    | EvUpdate(state: Option<Identity>, admit: bool, request: nat)
    | EvTargeted
    | EvSubmit
    | EvReply(reply: Option<Result>)
    | EvRestore(d: nat)
    | EvRestoreState(state: Option<Identity>, lastRelease: nat, request: nat)
    | EvAdopt(terminal: Option<Result>, save: SaveOutcome)
    | EvReleased(save: SaveOutcome)
    | EvExit(save: SaveOutcome)

  datatype CustodyEvent =
    | EvCustodyStart
    | EvCustodyState(k: nat, key: nat, obs: Option<Observation>, cooling: bool, request: nat, save: SaveOutcome)
    | EvCustodySubmit
    | EvCustodyReply(answer: RecoveryReply, save: SaveOutcome)
    | EvCustodyRead(read: Option<RecoveryResult>, save: SaveOutcome)
    | EvCustodyRetire(save: SaveOutcome)
    | EvSessionRetire(k: nat, save: SaveOutcome)
    | EvCustodyDone
    | EvCustodyReturn

  datatype Event = Api(api: ApiEvent) | Reconcile(native: NativeEvent) | Recovery(custody: CustodyEvent)

  function StepApi(s: State, e: ApiEvent): State {
    match e
    case BeginSession(nonce, process, revision, level, ttl, save) =>
      StepBeginSession(s, nonce, process, revision, level, ttl, save)
    case Heartbeat(nonce, process, revision, level, ttl) => StepHeartbeat(s, nonce, process, revision, level, ttl)
    case ReleaseSession(nonce, process, revision) => StepRelease(s, nonce, process, revision)
    case Mutate => StepMutate(s)
    case Mutated => StepMutated(s)
    case Delete => StepDelete(s)
    case Deleted => StepDeleted(s)
    case Expiry => Expire(s)
    case Pass(elapsed) => s.(now := s.now + elapsed)
    case Crash(process) => StepCrash(s, process)
  }

  function StepNative(s: State, e: NativeEvent): State {
    match e
    case EvStart(base, target, targetOnly, releaseOnly) => StepStart(s, base, target, targetOnly, releaseOnly)
    case EvPoll(d) => StepPoll(s, d)
    case EvObserved(reply) => StepObserved(s, reply)
    case EvRecheck => StepRecheck(s)
    case EvDetect(obs) => StepDetect(s, obs)
    case EvBegin(state, admit, request, save) => StepBegin(s, state, admit, request, save)
    case EvBeginCommit(admit, save) => StepBeginCommit(s, admit, save)
    case EvUpdate(state, admit, request) => StepUpdate(s, state, admit, request)
    case EvTargeted => StepTargeted(s)
    case EvSubmit => StepSubmit(s)
    case EvReply(reply) => StepReply(s, reply)
    case EvRestore(d) => StepRestore(s, d)
    case EvRestoreState(state, lastRelease, request) => StepRestoreState(s, state, lastRelease, request)
    case EvAdopt(terminal, save) => StepAdopt(s, terminal, save)
    case EvReleased(save) => StepReleased(s, save)
    case EvExit(save) => StepExit(s, save)
  }

  function StepCustody(s: State, e: CustodyEvent): State {
    match e
    case EvCustodyStart => StepCustodyStart(s)
    case EvCustodyState(k, key, obs, cooling, request, save) => StepCustodyState(s, k, key, obs, cooling, request, save)
    case EvCustodySubmit => StepCustodySubmit(s)
    case EvCustodyReply(answer, save) => StepCustodyReply(s, answer, save)
    case EvCustodyRead(read, save) => StepCustodyRead(s, read, save)
    case EvCustodyRetire(save) => StepCustodyRetire(s, save)
    case EvSessionRetire(k, save) => StepSessionRetire(s, k, save)
    case EvCustodyDone => StepCustodyDone(s)
    case EvCustodyReturn => StepCustodyReturn(s)
  }

  function Step(s: State, e: Event): State {
    match e
    case Api(api) => StepApi(s, api)
    case Reconcile(native) => StepNative(s, native)
    case Recovery(custody) => StepCustody(s, custody)
  }

  function Run(es: seq<Event>): State {
    Runs.Run(Step, Init(), es)
  }
}
