/**
  Generations: the coordinator's counter, restarted from the floor of the journal, keeps every new
  record newer than all records of earlier processes, and newer than everything unless a later
  operation of its own process has overtaken it.
 */
module RadioProducerGenerations {
  import Runs
  import opened RadioProducerModel
  import opened RadioProducerProofs
  import opened RadioProducerEffects

  /** A record of this process carries the action of its generation; an older one precedes them all. */
  ghost predicate Dated(s: State, r: Record) {
    && (s.ready ==> r.fence.generation <= s.counter)
    && (r.fence.generation in s.issued ==> s.issued[r.fence.generation] == r.fence.action)
    && (r.fence.generation !in s.issued ==> forall g :: g in s.issued ==> r.fence.generation < g)
  }

  ghost predicate IssuedOk(s: State) {
    && (forall g :: g in s.issued ==> s.ready && 0 < g <= s.counter)
    && (s.pending != 0 ==> s.ready && s.pending == s.counter)
    && (forall g, h :: g in s.issued && h in s.issued && g != h ==> s.issued[g] != s.issued[h])
  }

  ghost predicate Distinct(records: map<nat, Record>) {
    forall k, l :: k in records && l in records && k != l ==>
      records[k].fence.generation != records[l].fence.generation && records[k].fence.action != records[l].fence.action
  }

  ghost predicate CaptureOk(s: State, t: Task) {
    t.Capturing? ==> t.generation in s.issued && s.issued[t.generation] == t.action
  }

  ghost predicate DateInv(s: State) {
    && IssuedOk(s) && Distinct(s.records) && (forall k :: k in s.records ==> Dated(s, s.records[k]))
    && (forall tid :: tid in s.tasks ==> CaptureOk(s, s.tasks[tid]))
  }

  // ----- control -----

  lemma ControlDates(s: State, e: ControlEvent)
    requires DateInv(s)
    ensures DateInv(StepControl(s, e))
  {
    match e
    case Enable(process, floor) => EnableDates(s, process, floor);
    case Issue(action) => IssueDates(s, action);
    case Crash => CrashDates(s);
    case _ => MoveDates(s, StepControl(s, e));
  }

  lemma EnableDates(s: State, process: nat, floor: nat)
    requires DateInv(s)
    ensures DateInv(StepEnable(s, process, floor))
  {
    var t := StepEnable(s, process, floor);
    forall k | k in t.records ensures Dated(t, t.records[k]) { assert Dated(s, s.records[k]); }
    forall tid | tid in t.tasks ensures CaptureOk(t, t.tasks[tid]) { assert CaptureOk(s, s.tasks[tid]); }
  }

  lemma CrashDates(s: State)
    requires DateInv(s)
    ensures DateInv(StepCrash(s))
  {
    var t := StepCrash(s);
    forall k | k in t.records ensures Dated(t, t.records[k]) { assert Dated(s, s.records[k]); }
  }

  /** The counter may move; a pending operation then is over. */
  lemma MoveDates(s: State, t: State)
    requires DateInv(s) && t == s.(counter := t.counter, pending := t.pending) && s.counter <= t.counter
    requires t.pending == 0 || (t.pending == s.pending && t.counter == s.counter)
    ensures DateInv(t)
  {
    forall k | k in t.records ensures Dated(t, t.records[k]) { assert Dated(s, s.records[k]); }
    forall tid | tid in t.tasks ensures CaptureOk(t, t.tasks[tid]) { assert CaptureOk(s, s.tasks[tid]); }
  }

  lemma IssueDates(s: State, action: nat)
    requires DateInv(s)
    ensures DateInv(StepIssue(s, action))
  {
    var t := StepIssue(s, action);
    forall k | k in t.records ensures Dated(t, t.records[k]) { assert Dated(s, s.records[k]); }
    forall tid | tid in t.tasks ensures CaptureOk(t, t.tasks[tid]) { assert CaptureOk(s, s.tasks[tid]); }
  }

  // ----- everything else -----

  /** The counter and the issued generations stay; new captures are of issued generations. */
  ghost predicate Undated(s: State, t: State) {
    && t.counter == s.counter && t.pending == s.pending && t.issued == s.issued && t.ready == s.ready
    && forall tid :: tid in t.tasks && t.tasks[tid].Capturing? ==>
         (tid in s.tasks && s.tasks[tid] == t.tasks[tid])
           || (t.tasks[tid].generation in s.issued && s.issued[t.tasks[tid].generation] == t.tasks[tid].action)
  }

  lemma OldDates(s: State, t: State)
    requires DateInv(s) && Undated(s, t) && Turns(s, t) && t.records.Keys == s.records.Keys
    ensures DateInv(t)
  {
    forall k | k in t.records ensures Dated(t, t.records[k]) {
      assert Dated(s, s.records[k]) && RecordTurns(s.records[k], t.records[k]);
    }
    forall k, l | k in t.records && l in t.records && k != l
      ensures t.records[k].fence.generation != t.records[l].fence.generation
        && t.records[k].fence.action != t.records[l].fence.action
    {
      assert RecordTurns(s.records[k], t.records[k]) && RecordTurns(s.records[l], t.records[l]);
    }
    forall tid | tid in t.tasks ensures CaptureOk(t, t.tasks[tid]) {
      if tid in s.tasks { assert CaptureOk(s, s.tasks[tid]); }
    }
  }

  /** A new record of an issued generation whose action no record has yet. */
  lemma NewDates(s: State, t: State, k: nat)
    requires DateInv(s) && Undated(s, t) && k !in s.records && k in t.records
      && t.records == s.records[k := t.records[k]]
    requires t.records[k].fence.generation in s.issued
      && t.records[k].fence.action == s.issued[t.records[k].fence.generation]
    requires AllSettled(s.records, t.records[k].fence.action)
    ensures DateInv(t)
  {
    forall l | l in t.records ensures Dated(t, t.records[l]) { assert l != k ==> Dated(s, s.records[l]); }
    forall l | l in s.records ensures s.records[l].fence.generation != t.records[k].fence.generation {
      assert Dated(s, s.records[l]);
    }
    forall tid | tid in t.tasks ensures CaptureOk(t, t.tasks[tid]) {
      if tid in s.tasks { assert CaptureOk(s, s.tasks[tid]); }
    }
  }

  /** Neither records nor issued generations move. */
  lemma SameDates(s: State, t: State)
    requires DateInv(s) && Undated(s, t) && t.records == s.records
    ensures DateInv(t)
  {
    forall k | k in t.records ensures Dated(t, t.records[k]) { assert Dated(s, s.records[k]); }
    forall tid | tid in t.tasks ensures CaptureOk(t, t.tasks[tid]) {
      if tid in s.tasks { assert CaptureOk(s, s.tasks[tid]); }
    }
  }

  lemma CapturedDates(s: State, tid: nat, ok: bool, token: nat, write: bool)
    requires DateInv(s) && s.records.Keys <= s.used
    ensures DateInv(StepCaptured(s, tid, ok, token, write))
  {
    var t := StepCaptured(s, tid, ok, token, write);
    CapturedUndated(s, tid, ok, token, write);
    if t.records == s.records {
      SameDates(s, t);
    } else {
      CapturedIsNew(s, tid, ok, token, write);
      NewDates(s, t, token);
    }
  }

  lemma CapturedUndated(s: State, tid: nat, ok: bool, token: nat, write: bool)
    ensures Undated(s, StepCaptured(s, tid, ok, token, write))
  {
  }

  /** A captured intent that changes the journal adds one record, of its own issued generation. */
  lemma CapturedIsNew(s: State, tid: nat, ok: bool, token: nat, write: bool)
    requires DateInv(s) && s.records.Keys <= s.used && StepCaptured(s, tid, ok, token, write).records != s.records
    ensures var t := StepCaptured(s, tid, ok, token, write);
      && token !in s.records && token in t.records && t.records == s.records[token := t.records[token]]
      && t.records[token].fence.generation in s.issued
        && t.records[token].fence.action == s.issued[t.records[token].fence.generation]
      && AllSettled(s.records, t.records[token].fence.action)
  {
    assert CaptureOk(s, s.tasks[tid]);
  }

  lemma ReserveSourceDates(s: State, tid: nat, generation: nat, target: nat, token: nat, keeps: bool, write: bool)
    requires DateInv(s) && s.records.Keys <= s.used
    ensures DateInv(StepReserveSource(s, tid, generation, target, token, keeps, write))
  {
    if generation in s.issued && token !in s.used && AllSettled(s.records, s.issued[generation]) {
      var u := s.(used := s.used + {token});
      SameDates(s, u);
      ReservingDates(u, tid, NewRecord(u, token, s.issued[generation], generation, target, NativeReserveAttempted),
        true, keeps, write);
    }
  }

  lemma ReservingDates(s: State, tid: nat, r: Record, source: bool, keeps: bool, write: bool)
    requires DateInv(s)
    requires r.fence.token in s.records ==>
      RecordsOk(s.records) && r == s.records[r.fence.token] && r.stage == PreflightPrepared
    requires r.fence.token !in s.records ==>
      r.fence.generation in s.issued && r.fence.action == s.issued[r.fence.generation]
      && AllSettled(s.records, r.fence.action)
    ensures DateInv(Reserving(s, tid, r, source, keeps, write))
  {
    var t := Reserving(s, tid, r, source, keeps, write);
    var k := r.fence.token;
    if t != s {
      assert Undated(s, t) && t.records == s.records[k := t.records[k]];
      if k in s.records { RewrittenDates(s, t, k); } else { NewDates(s, t, k); }
    }
  }

  /** One record is rewritten under its own identity. */
  lemma RewrittenDates(s: State, t: State, k: nat)
    requires DateInv(s) && Undated(s, t) && k in s.records && k in t.records
      && t.records == s.records[k := t.records[k]]
    requires t.records[k].fence.generation == s.records[k].fence.generation
      && t.records[k].fence.action == s.records[k].fence.action
    ensures DateInv(t)
  {
    forall l | l in t.records ensures Dated(t, t.records[l]) { assert Dated(s, s.records[l]); }
    forall tid | tid in t.tasks ensures CaptureOk(t, t.tasks[tid]) {
      if tid in s.tasks { assert CaptureOk(s, s.tasks[tid]); }
    }
  }

  lemma ReserveDates(s: State, tid: nat, generation: nat, key: nat, target: nat, source: bool, keeps: bool, write: bool)
    requires DateInv(s) && RecordsOk(s.records)
    ensures DateInv(StepReserve(s, tid, generation, key, target, source, keeps, write))
  {
    if key in s.records && s.records[key].stage == PreflightPrepared {
      assert RecordOk(key, s.records[key]);
      ReservingDates(s, tid, s.records[key], source, keeps, write);
    }
  }

  lemma PreparedUndated(s: State, tid: nat, peer: PeerReply, write: bool)
    ensures Undated(s, StepPrepared(s, tid, peer, write))
  {
  }

  lemma PreparedDates(s: State, tid: nat, peer: PeerReply, write: bool)
    requires DateInv(s) && JournalInv(s)
    ensures DateInv(StepPrepared(s, tid, peer, write))
  {
    PreparedUndated(s, tid, peer, write);
    PreparedSound(s, tid, peer, write);
    PreparedSoftens(s, tid, peer, write);
    OldDates(s, StepPrepared(s, tid, peer, write));
  }

  lemma OpenDates(s: State, e: OpenEvent)
    requires DateInv(s) && JournalInv(s)
    ensures DateInv(StepOpen(s, e))
  {
    match e
    case Preflight(tid, generation, target) => SameDates(s, StepPreflight(s, tid, generation, target));
    case Captured(tid, ok, token, write) => CapturedDates(s, tid, ok, token, write);
    case PreparedReply(tid, peer, write) => PreparedDates(s, tid, peer, write);
    case Reserve(tid, generation, key, target, source, keeps, write) =>
      ReserveDates(s, tid, generation, key, target, source, keeps, write);
    case ReserveSource(tid, generation, target, token, keeps, write) =>
      ReserveSourceDates(s, tid, generation, target, token, keeps, write);
  }

  lemma NativeDates(s: State, tid: nat, reply: NativeReply, write: bool)
    requires DateInv(s) && JournalInv(s)
    ensures DateInv(StepNative(s, tid, reply, write))
  {
    SameDates(s, Drop(s, tid));
    if AwaitsNative(s, tid) {
      var k := s.tasks[tid].fence.token;
      assert RecordOk(k, s.records[k]);
      if reply.Granted? { GrantDates(s, tid, reply.hold, write); }
      if reply.OperationRejected? { RejectDates(s, tid, write); }
    }
  }

  lemma GrantDates(s: State, tid: nat, hold: Hold, write: bool)
    requires DateInv(s) && AwaitsNative(s, tid)
      && s.records[s.tasks[tid].fence.token].fence.token == s.tasks[tid].fence.token
    ensures DateInv(GrantNative(s, tid, hold, write))
  {
    var t := GrantNative(s, tid, hold, write);
    if t.log == s.log { SameDates(s, t); } else { RewrittenDates(s, t, s.tasks[tid].fence.token); }
  }

  lemma RejectDates(s: State, tid: nat, write: bool)
    requires DateInv(s) && AwaitsNative(s, tid)
      && s.records[s.tasks[tid].fence.token].fence.token == s.tasks[tid].fence.token
    ensures DateInv(RejectCandidate(s, tid, write))
  {
    var t := RejectCandidate(s, tid, write);
    SameDates(s, Drop(s, tid));
    if t != Drop(s, tid) { RewrittenDates(s, t, s.tasks[tid].fence.token); }
  }

  lemma SenderDates(s: State, tid: nat, hold: Option<Hold>, write: bool)
    requires DateInv(s) && JournalInv(s)
    ensures DateInv(StepSender(s, tid, hold, write))
  {
    var t := StepSender(s, tid, hold, write);
    SameDates(s, Drop(s, tid));
    if t != s && t != Drop(s, tid) {
      assert RecordOk(s.tasks[tid].fence.token, s.records[s.tasks[tid].fence.token]);
      RewrittenDates(s, t, s.tasks[tid].fence.token);
    }
  }

  lemma CancelledDates(s: State, tid: nat, ok: bool, write: bool)
    requires DateInv(s) && JournalInv(s)
    ensures DateInv(StepCancelled(s, tid, ok, write))
  {
    var t := StepCancelled(s, tid, ok, write);
    SameDates(s, Drop(s, tid));
    if t != s && t != Drop(s, tid) {
      assert RecordOk(s.tasks[tid].token, s.records[s.tasks[tid].token]);
      RewrittenDates(s, t, s.tasks[tid].token);
    }
  }

  lemma HoldingDates(s: State, e: HoldEvent)
    requires DateInv(s) && JournalInv(s)
    ensures DateInv(StepHolding(s, e))
  {
    match e
    case NativeAnswer(tid, native, write) => NativeDates(s, tid, native, write);
    case SenderAnswer(tid, hold, write) => SenderDates(s, tid, hold, write);
    case CancelReply(tid, ok, write) => CancelledDates(s, tid, ok, write);
  }

  lemma AdmitDates(s: State, tid: nat, kind: Kind, fence: Fence, proceeds: bool, write: bool)
    requires DateInv(s)
    ensures DateInv(StepAdmit(s, tid, kind, fence, proceeds, write))
  {
    var t := StepAdmit(s, tid, kind, fence, proceeds, write);
    if t != s { RewrittenDates(s, t, fence.token); }
  }

  lemma AdvanceUndated(s: State, tid: nat, kind: Kind, ok: bool, write: bool)
    ensures Undated(s, StepAdvance(s, tid, kind, ok, write))
  {
  }

  lemma EndUndated(s: State, tid: nat, r: Record, write: bool)
    ensures Undated(s, StoreEnd(s, tid, r, write)) && Undated(s, Drop(s, tid))
  {
  }

  lemma StoppedUndated(s: State, tid: nat, ticket: Option<nat>, writePrior: bool, write: bool)
    ensures Undated(s, StepStopped(s, tid, ticket, writePrior, write))
  {
    if Replied(s, tid, StopDrain) {
      var r := s.records[s.tasks[tid].fence.token];
      var prior := DrainedKey(r);
      var after := r.(ticket := ticket, stage := StoppedStage);
      EndUndated(s, tid, after, write);
      if prior in s.records {
        EndUndated(s.(records := s.records[prior := s.records[prior].(ticket := ticket)]), tid, after, write);
      }
    }
  }

  lemma FinishedUndated(s: State, tid: nat, committed: bool, playing: bool, write: bool)
    ensures Undated(s, StepFinished(s, tid, committed, playing, write))
  {
  }

  lemma EffectDates(s: State, e: EffectEvent)
    requires DateInv(s) && JournalInv(s)
    ensures DateInv(StepEffect(s, e))
  {
    match e
    case Admit(tid, kind, fence, proceeds, write) => AdmitDates(s, tid, kind, fence, proceeds, write);
    case Call(tid) => SameDates(s, StepCall(s, tid));
    case Advance(tid, kind, ok, write) =>
      AdvanceSound(s, tid, kind, ok, write);
      AdvanceSoftens(s, tid, kind, ok, write);
      AdvanceUndated(s, tid, kind, ok, write);
      OldDates(s, StepAdvance(s, tid, kind, ok, write));
    case Stopped(tid, ticket, writePrior, write) =>
      StoppedSound(s, tid, ticket, writePrior, write);
      StoppedSoftens(s, tid, ticket, writePrior, write);
      StoppedUndated(s, tid, ticket, writePrior, write);
      OldDates(s, StepStopped(s, tid, ticket, writePrior, write));
    case FinishReply(tid, committed, playing, write) =>
      FinishedSound(s, tid, committed, playing, write);
      FinishedSoftens(s, tid, committed, playing, write);
      FinishedUndated(s, tid, committed, playing, write);
      OldDates(s, StepFinished(s, tid, committed, playing, write));
  }

  lemma ReadUndated(s: State, e: ReadEvent)
    requires !e.NativeResultReply?
    ensures Undated(s, StepRead(s, e))
  {
    if e.SenderResultReply? {
      SenderResultUndated(s, e.tid, e.outcome, e.playing, e.matches, e.current, e.write);
    } else if e.RejectedResultReply? {
      RejectedResultUndated(s, e.tid, e.ok, e.write);
    }
  }

  lemma SenderResultUndated(s: State, tid: nat, outcome: Outcome, playing: bool, matches: bool, current: bool,
    write: bool)
    ensures Undated(s, StepSenderResult(s, tid, outcome, playing, matches, current, write))
  {
  }

  lemma RejectedResultUndated(s: State, tid: nat, ok: bool, write: bool)
    ensures Undated(s, StepRejectedResult(s, tid, ok, write))
  {
  }

  lemma NativeResultUndated(s: State, tid: nat, reply: NativeResult, write: bool)
    ensures Undated(s, StepNativeResult(s, tid, reply, write))
  {
  }

  lemma ReadDates(s: State, e: ReadEvent)
    requires DateInv(s) && JournalInv(s)
    ensures DateInv(StepRead(s, e))
  {
    ReadOk(s, e);
    ReadSoftens(s, e);
    if e.NativeResultReply? { NativeResultUndated(s, e.tid, e.result, e.write); } else { ReadUndated(s, e); }
    OldDates(s, StepRead(s, e));
  }

  lemma RecoverUndated(s: State, e: RecoverEvent)
    ensures Undated(s, StepRecover(s, e))
  {
  }

  lemma RecoverDates(s: State, e: RecoverEvent)
    requires DateInv(s) && JournalInv(s)
    ensures DateInv(StepRecover(s, e))
  {
    RecoverOk(s, e);
    RecoverSoftens(s, e);
    RecoverUndated(s, e);
    OldDates(s, StepRecover(s, e));
  }

  lemma PreemptUndated(s: State, e: PreemptEvent)
    ensures Undated(s, StepPreemption(s, e))
  {
  }

  lemma PreemptDates(s: State, e: PreemptEvent)
    requires DateInv(s) && JournalInv(s)
    ensures DateInv(StepPreemption(s, e))
  {
    PreemptionSound(s, e);
    PreemptSoftens(s, e);
    PreemptUndated(s, e);
    OldDates(s, StepPreemption(s, e));
  }

  lemma StepDates(s: State, e: Event)
    requires DateInv(s) && JournalInv(s)
    ensures DateInv(Step(s, e))
  {
    match e
    case Control(control) => ControlDates(s, control);
    case Opening(open) => OpenDates(s, open);
    case Holding(hold) => HoldingDates(s, hold);
    case Effect(effect) => EffectDates(s, effect);
    case Read(read) => ReadDates(s, read);
    case Recovery(recover) => RecoverDates(s, recover);
    case Preemption(preempt) => PreemptDates(s, preempt);
  }

  lemma RunDates(es: seq<Event>)
    ensures DateInv(Run(es)) && JournalInv(Run(es))
  {
    var inv := (s: State) => DateInv(s) && JournalInv(s);
    forall s: State, e: Event | inv(s) ensures inv(Step(s, e)) {
      StepDates(s, e);
      StepJournal(s, e);
    }
    Runs.Invariant(Step, Init(), inv, es);
  }

  // ----- what a run shows -----

  /** No two records of any run share a generation or an action identity. */
  lemma RecordsAreDistinct(es: seq<Event>, k: nat, l: nat)
    requires k in Run(es).records && l in Run(es).records && k != l
    ensures Run(es).records[k].fence.generation != Run(es).records[l].fence.generation
    ensures Run(es).records[k].fence.action != Run(es).records[l].fence.action
  {
    RunDates(es);
  }

  /** The records of earlier processes, seen from this one: the generation was not issued here. */
  predicate Inherited(s: State, k: nat)
    requires k in s.records
  {
    s.records[k].fence.generation !in s.issued
  }

  /**
    A new record of the operation that is still pending exceeds every journaled generation, and so does one
    of the coordinator's current generation. Any new record exceeds those of earlier processes; one of an
    operation that was revoked exceeds all of them if and only if no later operation was journaled first.
   */
  lemma NewGenerationExceeds(es: seq<Event>, e: Event, key: nat)
    requires var s := Run(es); var t := Step(s, e); e.Opening? && key in t.records && key !in s.records
    ensures var s := Run(es); var g := Step(s, e).records[key].fence.generation;
      && (g == s.pending || g == s.counter ==> forall k :: k in s.records ==> s.records[k].fence.generation < g)
      && (forall k :: k in s.records && Inherited(s, k) ==> s.records[k].fence.generation < g)
      && ((forall k :: k in s.records ==> s.records[k].fence.generation < g) <==>
          !(exists k ::
            k in s.records && s.records[k].fence.generation in s.issued && s.records[k].fence.generation > g))
  {
    RunDates(es);
    var s := Run(es);
    OpenDates(s, e.open);
    NewIsIssued(s, e.open, key);
    var g := Step(s, e).records[key].fence.generation;
    forall k | k in s.records ensures s.records[k].fence.generation != g && Dated(s, s.records[k]) {
      OpenSound(s, e.open);
      assert RecordTurns(s.records[k], Step(s, e).records[k]);
    }
  }

  lemma NewIsIssued(s: State, e: OpenEvent, key: nat)
    requires DateInv(s) && JournalInv(s) && key in StepOpen(s, e).records && key !in s.records
    ensures StepOpen(s, e).records[key].fence.generation in s.issued && s.ready
  {
    match e
    case Captured(tid, ok, token, write) => CapturedIsNew(s, tid, ok, token, write);
    case PreparedReply(tid, peer, write) => PreparedSoftens(s, tid, peer, write);
    case Reserve(tid, generation, token, target, source, keeps, write) =>
      if token in s.records { assert RecordOk(token, s.records[token]); }
    case ReserveSource(tid, generation, target, token, keeps, write) =>
      SourceIsIssued(s, tid, generation, target, token, keeps, write);
    case _ =>
  }

  lemma SourceIsIssued(s: State, tid: nat, generation: nat, target: nat, token: nat, keeps: bool, write: bool)
    ensures var t := StepReserveSource(s, tid, generation, target, token, keeps, write);
      forall k :: k in t.records && k !in s.records ==> t.records[k].fence.generation in s.issued && s.ready
  {
  }
}
