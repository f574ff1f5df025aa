/** Records of the radio producer: how one may change, and what never comes back. */
module RadioProducerProofs {
  import Runs
  import opened RadioProducerModel

  predicate Open(r: Record) {
    !r.terminal && !r.preempted
  }

  predicate PreemptStage(stage: Stage) {
    stage == PreemptDrainAttempted || stage == PreemptedStage
  }

  /** A preempted record is in a preempted stage and can only end preempted. */
  ghost predicate RecordOk(key: nat, r: Record) {
    && r.fence.token == key && key != 0
    && (PreemptStage(r.stage) ==> r.preempted)
    && (r.preempted ==> (PreemptStage(r.stage) || r.stage == Reconciled) && (r.terminal ==> r.outcome == Preempted))
    && (r.stage == PreflightAttempted || r.stage == PreflightPrepared ==> Open(r))
    && (r.stage == Reconciled || r.stage == PreemptedStage ==> r.terminal)
  }

  ghost predicate RecordsOk(records: map<nat, Record>) {
    forall k :: k in records ==> RecordOk(k, records[k])
  }

  /** A remembered record is an earlier version of the one in the journal. */
  ghost predicate Remembered(s: State, r: Record) {
    && r.fence.token in s.records && RecordOk(r.fence.token, r) && (r.preempted ==> s.records[r.fence.token].preempted)
  }

  predicate Carries(r: Record, recovers: Option<Record>) {
    recovers.Some? && recovers.value.preempted ==> r.preempted
  }

  ghost predicate RecoversOk(s: State, recovers: Option<Record>) {
    recovers.Some? ==> Remembered(s, recovers.value)
  }

  ghost predicate TaskOk(s: State, t: Task) {
    match t
    case Reading(r, recovers) => Remembered(s, r) && RecoversOk(s, recovers) && Carries(r, recovers)
    case ReadingRejected(r, recovers) => Remembered(s, r) && RecoversOk(s, recovers) && Carries(r, recovers)
    case ReadingSender(r, recovers) =>
      Remembered(s, r) && RecoversOk(s, recovers) && Carries(r, recovers) && !r.preempted
    case Pending(r) => Remembered(s, r)
    case Recovering(r, outcome) => Remembered(s, r) && (r.preempted ==> outcome == Preempted)
    case _ => true
  }

  ghost predicate TasksOk(s: State) {
    forall tid :: tid in s.tasks ==> TaskOk(s, s.tasks[tid])
  }

  // ----- how a record may change -----

  /** The identity stays, a preemption is final, and only a preemption undoes a settlement. */
  ghost predicate RecordTurns(r: Record, q: Record) {
    && q.fence.token == r.fence.token && q.fence.action == r.fence.action && q.fence.generation == r.fence.generation
    && (r.preempted ==> q.preempted) && (r.terminal ==> q.terminal || q.preempted)
  }

  /** A section rewrites records by turns, and opens a new one only when all others are settled. */
  ghost predicate Turns(s: State, t: State) {
    && s.records.Keys <= t.records.Keys && (forall k :: k in s.records ==> RecordTurns(s.records[k], t.records[k]))
    && (t.records.Keys != s.records.Keys ==>
          && (forall k :: k in s.records ==> s.records[k].terminal)
          && exists key :: key !in s.records && t.records.Keys == s.records.Keys + {key})
  }

  // ----- records and remembered records -----

  /** Remembering survives turns. */
  lemma OldTasks(s: State, t: State)
    requires TasksOk(s) && Turns(s, t)
    ensures forall tid :: tid in t.tasks && tid in s.tasks && t.tasks[tid] == s.tasks[tid] ==> TaskOk(t, t.tasks[tid])
  {
  }

  /** A task that reads on from a remembered record. */
  predicate Remembers(t: Task) {
    t.Reading? || t.ReadingRejected? || t.ReadingSender? || t.Pending? || t.Recovering?
  }

  /** A section that keeps the records sound and starts no reader. */
  ghost predicate Sound(s: State, t: State) {
    && RecordsOk(t.records) && Turns(s, t) && s.used <= t.used && t.records.Keys <= t.used
    && forall tid :: tid in t.tasks ==> (tid in s.tasks && t.tasks[tid] == s.tasks[tid]) || !Remembers(t.tasks[tid])
  }

  /** At most one record is neither settled nor preempted. */
  ghost predicate OneOpen(records: map<nat, Record>) {
    forall k, l :: k in records && l in records && k != l ==> !(Open(records[k]) && Open(records[l]))
  }

  lemma OpenStays(s: State, t: State)
    requires OneOpen(s.records) && Turns(s, t)
    ensures OneOpen(t.records)
  {
  }

  ghost predicate JournalInv(s: State) {
    RecordsOk(s.records) && TasksOk(s) && OneOpen(s.records) && s.records.Keys <= s.used
  }

  lemma SoundKeeps(s: State, t: State)
    requires JournalInv(s) && Sound(s, t)
    ensures JournalInv(t)
  {
    OldTasks(s, t);
    OpenStays(s, t);
  }

  lemma ControlSound(s: State, e: ControlEvent)
    requires JournalInv(s)
    ensures Sound(s, StepControl(s, e))
  {
    var t := StepControl(s, e);
    assert t.records == s.records && t.used == s.used && (t.tasks == s.tasks || t.tasks == map[]);
    SameSound(s, t);
  }

  /** Tasks that are new remember nothing. */
  predicate PlainTasks(s: State, t: State) {
    forall tid :: tid in t.tasks ==> (tid in s.tasks && t.tasks[tid] == s.tasks[tid]) || !Remembers(t.tasks[tid])
  }

  lemma SameSound(s: State, t: State)
    requires JournalInv(s) && t.records == s.records && s.used <= t.used && PlainTasks(s, t)
    ensures Sound(s, t)
  {
  }

  /** One record is rewritten. */
  lemma PutSound(s: State, t: State, k: nat)
    requires JournalInv(s) && k in s.records && k in t.records && t.records == s.records[k := t.records[k]]
    requires RecordTurns(s.records[k], t.records[k]) && RecordOk(k, t.records[k]) && s.used <= t.used
      && PlainTasks(s, t)
    ensures Sound(s, t)
  {
  }

  /** One record is new. */
  lemma NewSound(s: State, t: State, k: nat)
    requires JournalInv(s) && k !in s.records && k in t.records && t.records == s.records[k := t.records[k]]
    requires RecordOk(k, t.records[k]) && s.used + {k} <= t.used && PlainTasks(s, t)
    requires forall l :: l in s.records ==> s.records[l].terminal
    ensures Sound(s, t)
  {
    assert t.records.Keys == s.records.Keys + {k};
  }

  lemma CapturedSound(s: State, tid: nat, ok: bool, token: nat, write: bool)
    requires JournalInv(s)
    ensures Sound(s, StepCaptured(s, tid, ok, token, write))
  {
    var t := StepCaptured(s, tid, ok, token, write);
    if t.records == s.records { SameSound(s, t); } else { NewSound(s, t, token); }
  }

  /** A candidate that is being prepared ends prepared or rejected. */
  lemma CandidateSound(s: State, tid: nat, r: Record, write: bool)
    requires JournalInv(s) && r.fence.token in s.records && r == s.records[r.fence.token]
      && r.stage == PreflightAttempted
    ensures Sound(s, StoreEnd(s, tid, r.(terminal := true, outcome := Rejected, stage := PreflightRejected), write))
    ensures Sound(s, StoreEnd(s, tid, r.(stage := PreflightPrepared), write))
  {
    EndSound(s, tid, r.(terminal := true, outcome := Rejected, stage := PreflightRejected), write);
    EndSound(s, tid, r.(stage := PreflightPrepared), write);
  }

  lemma PreparedSound(s: State, tid: nat, peer: PeerReply, write: bool)
    requires JournalInv(s)
    ensures Sound(s, StepPrepared(s, tid, peer, write))
  {
    var t := StepPrepared(s, tid, peer, write);
    if tid !in s.tasks || !s.tasks[tid].Effecting? || s.tasks[tid].kind != SenderPreflight || !s.tasks[tid].called
       || s.tasks[tid].fence.token !in s.records
    {
      SameSound(s, t);
    } else {
      var r := s.records[s.tasks[tid].fence.token];
      assert RecordOk(s.tasks[tid].fence.token, r);
      if r.preempted || r.stage != PreflightAttempted || peer.Malformed? || peer.PeerFailed? {
        assert t == Drop(s, tid);
        DropSound(s, tid);
      } else {
        CandidateSound(s, tid, r, write);
      }
    }
  }

  lemma ReserveSound(s: State, tid: nat, generation: nat, key: nat, target: nat, source: bool, keeps: bool, write: bool)
    requires JournalInv(s)
    ensures Sound(s, StepReserve(s, tid, generation, key, target, source, keeps, write))
  {
    var t := StepReserve(s, tid, generation, key, target, source, keeps, write);
    if t.records == s.records { SameSound(s, t); } else { PutSound(s, t, key); }
  }

  lemma ReserveSourceSound(s: State, tid: nat, generation: nat, target: nat, token: nat, keeps: bool, write: bool)
    requires JournalInv(s)
    ensures Sound(s, StepReserveSource(s, tid, generation, target, token, keeps, write))
  {
    var t := StepReserveSource(s, tid, generation, target, token, keeps, write);
    if t.records == s.records { SameSound(s, t); } else { NewSound(s, t, token); }
  }

  lemma OpenSound(s: State, e: OpenEvent)
    requires JournalInv(s)
    ensures Sound(s, StepOpen(s, e))
  {
    match e
    case Preflight(tid, generation, target) => SameSound(s, StepPreflight(s, tid, generation, target));
    case Captured(tid, ok, token, write) => CapturedSound(s, tid, ok, token, write);
    case PreparedReply(tid, peer, write) => PreparedSound(s, tid, peer, write);
    case Reserve(tid, generation, key, target, source, keeps, write) =>
      ReserveSound(s, tid, generation, key, target, source, keeps, write);
    case ReserveSource(tid, generation, target, token, keeps, write) =>
      ReserveSourceSound(s, tid, generation, target, token, keeps, write);
  }

  lemma DropSound(s: State, tid: nat)
    requires JournalInv(s)
    ensures Sound(s, Drop(s, tid))
  {
    SameSound(s, Drop(s, tid));
  }

  lemma NativeSound(s: State, tid: nat, reply: NativeReply, write: bool)
    requires JournalInv(s)
    ensures Sound(s, StepNative(s, tid, reply, write))
  {
    DropSound(s, tid);
    if !AwaitsNative(s, tid) {
      SameSound(s, s);
    } else if reply.Granted? {
      GrantSound(s, tid, reply.hold, write);
    } else if reply.OperationRejected? {
      RejectSound(s, tid, write);
    }
  }

  lemma GrantSound(s: State, tid: nat, hold: Hold, write: bool)
    requires JournalInv(s) && AwaitsNative(s, tid)
    ensures Sound(s, GrantNative(s, tid, hold, write))
  {
    var t := GrantNative(s, tid, hold, write);
    DropSound(s, tid);
    if t != Drop(s, tid) { PutSound(s, t, s.tasks[tid].fence.token); }
  }

  lemma RejectSound(s: State, tid: nat, write: bool)
    requires JournalInv(s) && AwaitsNative(s, tid)
    ensures Sound(s, RejectCandidate(s, tid, write))
  {
    var t := RejectCandidate(s, tid, write);
    DropSound(s, tid);
    if t != Drop(s, tid) { PutSound(s, t, s.tasks[tid].fence.token); }
  }

  lemma SenderSound(s: State, tid: nat, hold: Option<Hold>, write: bool)
    requires JournalInv(s)
    ensures Sound(s, StepSender(s, tid, hold, write))
  {
    var t := StepSender(s, tid, hold, write);
    if t.records == s.records { SameSound(s, t); } else { PutSound(s, t, s.tasks[tid].fence.token); }
  }

  lemma CancelledSound(s: State, tid: nat, ok: bool, write: bool)
    requires JournalInv(s)
    ensures Sound(s, StepCancelled(s, tid, ok, write))
  {
    var t := StepCancelled(s, tid, ok, write);
    if t.records == s.records { SameSound(s, t); } else { PutSound(s, t, s.tasks[tid].token); }
  }

  lemma HoldingSound(s: State, e: HoldEvent)
    requires JournalInv(s)
    ensures Sound(s, StepHolding(s, e))
  {
    match e
    case NativeAnswer(tid, native, write) => NativeSound(s, tid, native, write);
    case SenderAnswer(tid, hold, write) => SenderSound(s, tid, hold, write);
    case CancelReply(tid, ok, write) => CancelledSound(s, tid, ok, write);
  }

  lemma AdmitSound(s: State, tid: nat, kind: Kind, fence: Fence, proceeds: bool, write: bool)
    requires JournalInv(s)
    ensures Sound(s, StepAdmit(s, tid, kind, fence, proceeds, write))
  {
    var t := StepAdmit(s, tid, kind, fence, proceeds, write);
    if t.records == s.records { SameSound(s, t); } else { PutSound(s, t, fence.token); }
  }

  lemma AdvanceSound(s: State, tid: nat, kind: Kind, ok: bool, write: bool)
    requires JournalInv(s)
    ensures Sound(s, StepAdvance(s, tid, kind, ok, write))
  {
    var t := StepAdvance(s, tid, kind, ok, write);
    if t.records == s.records { SameSound(s, t); } else { PutSound(s, t, s.tasks[tid].fence.token); }
  }

  lemma EndSound(s: State, tid: nat, r: Record, write: bool)
    requires JournalInv(s) && r.fence.token in s.records && RecordTurns(s.records[r.fence.token], r)
      && RecordOk(r.fence.token, r)
    ensures Sound(s, StoreEnd(s, tid, r, write)) && StoreEnd(s, tid, r, write).records.Keys == s.records.Keys
  {
    DropSound(s, tid);
    if Stores(s, r.fence.token, write) { PutSound(s, StoreEnd(s, tid, r, write), r.fence.token); }
  }

  lemma SoundTransitive(s: State, m: State, t: State)
    requires Sound(s, m) && Sound(m, t) && m.tasks == s.tasks && m.records.Keys == s.records.Keys == t.records.Keys
    ensures Sound(s, t)
  {
    forall k | k in s.records ensures RecordTurns(s.records[k], t.records[k]) {
      assert RecordTurns(s.records[k], m.records[k]) && RecordTurns(m.records[k], t.records[k]);
    }
  }

  /** The prior record and the stopped one are rewritten in turn. */
  lemma StoredStopSound(s: State, tid: nat, r: Record, ticket: Option<nat>, writePrior: bool, write: bool)
    requires JournalInv(s) && r.fence.token in s.records && r == s.records[r.fence.token] && r.stage == StopAttempted
      && !r.preempted
    ensures Sound(s, StoreStopped(s, tid, r, ticket, writePrior, write))
  {
    var prior := DrainedKey(r);
    var after := r.(ticket := ticket, stage := StoppedStage);
    DropSound(s, tid);
    if r.prior.None? || prior !in s.records {
      EndSound(s, tid, after, write);
    } else if Stores(s, prior, writePrior) {
      TwoWritesSound(s, prior, s.records[prior].(ticket := ticket), tid, after, write);
    }
  }

  lemma TwoWritesSound(s: State, prior: nat, p: Record, tid: nat, after: Record, write: bool)
    requires JournalInv(s) && prior in s.records && RecordTurns(s.records[prior], p) && RecordOk(prior, p)
    requires after.fence.token in s.records && RecordOk(after.fence.token, after)
    requires RecordTurns(s.records[prior := p][after.fence.token], after)
    ensures Sound(s, StoreEnd(s.(records := s.records[prior := p]), tid, after, write))
  {
    var m := s.(records := s.records[prior := p]);
    PutSound(s, m, prior);
    SoundKeeps(s, m);
    EndSound(m, tid, after, write);
    SoundTransitive(s, m, StoreEnd(m, tid, after, write));
  }

  lemma StoppedSound(s: State, tid: nat, ticket: Option<nat>, writePrior: bool, write: bool)
    requires JournalInv(s)
    ensures Sound(s, StepStopped(s, tid, ticket, writePrior, write))
  {
    DropSound(s, tid);
    SameSound(s, s);
    if Replied(s, tid, StopDrain) {
      var f := s.tasks[tid].fence;
      var r := s.records[f.token];
      if !(ticket.None? || r.preempted || r.fence != f || r.stage != StopAttempted) {
        StoredStopSound(s, tid, r, ticket, writePrior, write);
      }
    }
  }

  lemma FinishedSound(s: State, tid: nat, committed: bool, playing: bool, write: bool)
    requires JournalInv(s)
    ensures Sound(s, StepFinished(s, tid, committed, playing, write))
  {
    var t := StepFinished(s, tid, committed, playing, write);
    if t.records == s.records { SameSound(s, t); } else { PutSound(s, t, s.tasks[tid].fence.token); }
  }

  lemma EffectSound(s: State, e: EffectEvent)
    requires JournalInv(s)
    ensures Sound(s, StepEffect(s, e))
  {
    match e
    case Admit(tid, kind, fence, proceeds, write) => AdmitSound(s, tid, kind, fence, proceeds, write);
    case Call(tid) => SameSound(s, StepCall(s, tid));
    case Advance(tid, kind, ok, write) => AdvanceSound(s, tid, kind, ok, write);
    case Stopped(tid, ticket, writePrior, write) => StoppedSound(s, tid, ticket, writePrior, write);
    case FinishReply(tid, committed, playing, write) => FinishedSound(s, tid, committed, playing, write);
  }

  lemma PreemptSound(s: State, tid: nat, q: Request, key: nat, write: bool)
    requires JournalInv(s)
    ensures Sound(s, StepPreempt(s, tid, q, key, write))
  {
    var t := StepPreempt(s, tid, q, key, write);
    if t.records == s.records { SameSound(s, t); } else { PutSound(s, t, key); }
  }

  lemma HoldSound(s: State, tid: nat, hold: Option<Hold>, write: bool)
    requires JournalInv(s)
    ensures Sound(s, StepHold(s, tid, hold, write))
  {
    var t := StepHold(s, tid, hold, write);
    if t.records == s.records { SameSound(s, t); } else { PutSound(s, t, s.tasks[tid].token); }
  }

  lemma DrainedSound(s: State, tid: nat, ticket: Option<nat>, write: bool)
    requires JournalInv(s)
    ensures Sound(s, StepDrained(s, tid, ticket, write))
  {
    var t := StepDrained(s, tid, ticket, write);
    if t.records == s.records { SameSound(s, t); } else { PutSound(s, t, s.tasks[tid].token); }
  }

  lemma ReleasedSound(s: State, token: nat, ticket: nat, write: bool)
    requires JournalInv(s)
    ensures Sound(s, StepReleased(s, token, ticket, write))
  {
    var t := StepReleased(s, token, ticket, write);
    if t.records == s.records { SameSound(s, t); } else { PutSound(s, t, token); }
  }

  lemma PreemptionSound(s: State, e: PreemptEvent)
    requires JournalInv(s)
    ensures Sound(s, StepPreemption(s, e))
  {
    match e
    case Preempt(tid, request, key, write) => PreemptSound(s, tid, request, key, write);
    case HoldReply(tid, hold, write) => HoldSound(s, tid, hold, write);
    case DrainReply(tid, ticket, write) => DrainedSound(s, tid, ticket, write);
    case ReleaseReceipt(token, receipt, write) => ReleasedSound(s, token, receipt, write);
  }

  // ----- readers -----

  lemma EnterOk(s: State, t: State, tid: nat)
    requires JournalInv(s) && Sound(s, t.(tasks := s.tasks)) && tid in t.tasks
      && t.tasks == s.tasks[tid := t.tasks[tid]] && TaskOk(t, t.tasks[tid])
    ensures JournalInv(t) && Turns(s, t)
  {
    var m := t.(tasks := s.tasks);
    SoundKeeps(s, m);
    forall u | u in t.tasks ensures TaskOk(t, t.tasks[u]) { assert u != tid ==> TaskOk(m, m.tasks[u]); }
  }

  lemma DropOk(s: State, tid: nat)
    requires JournalInv(s)
    ensures JournalInv(Drop(s, tid)) && Turns(s, Drop(s, tid))
  {
    DropSound(s, tid);
    SoundKeeps(s, Drop(s, tid));
  }

  /** Nothing is written: a reader starts, or goes on. */
  lemma ReaderOk(s: State, tid: nat, task: Task)
    requires JournalInv(s) && TaskOk(s, task)
    ensures JournalInv(Enter(s, tid, task)) && Turns(s, Enter(s, tid, task))
  {
    SameSound(s, s);
    EnterOk(s, Enter(s, tid, task), tid);
  }

  /** A record is settled or rejected, and a reader goes on. */
  lemma SettleOk(s: State, tid: nat, q: Record, task: Task)
    requires JournalInv(s) && q.fence.token in s.records && RecordTurns(s.records[q.fence.token], q)
      && RecordOk(q.fence.token, q)
    requires TaskOk(Put(s, q), task)
    ensures JournalInv(Enter(Put(s, q), tid, task)) && Turns(s, Enter(Put(s, q), tid, task))
  {
    PutSound(s, Put(s, q), q.fence.token);
    EnterOk(s, Enter(Put(s, q), tid, task), tid);
  }

  /** The journal stays sound whatever a finished read is for. */
  lemma ResolvedOk(s: State, tid: nat, q: Record, recovers: Option<Record>, outcome: Outcome)
    requires JournalInv(s) && q.fence.token in s.records && RecordTurns(s.records[q.fence.token], q)
      && RecordOk(q.fence.token, q)
    requires RecoversOk(s, recovers) && (recovers.Some? && recovers.value.preempted ==> outcome == Preempted)
    ensures JournalInv(Resolved(Put(s, q), tid, recovers, outcome))
      && Turns(s, Resolved(Put(s, q), tid, recovers, outcome))
  {
    var m := Put(s, q);
    PutSound(s, m, q.fence.token);
    SoundKeeps(s, m);
    if recovers.None? {
      DropSound(m, tid);
      SoundKeeps(m, Drop(m, tid));
      SoundTransitive(s, m, Drop(m, tid));
    } else {
      assert Remembered(m, recovers.value);
      SettleOk(s, tid, q, Recovering(recovers.value, outcome));
    }
  }

  /** What does not touch records, tasks or used identities does not touch the journal. */
  lemma SameJournal(s: State, t: State, u: State)
    requires JournalInv(t) && Turns(s, t) && u.records == t.records && u.tasks == t.tasks && u.used == t.used
    ensures JournalInv(u) && Turns(s, u)
  {
    forall tid | tid in u.tasks ensures TaskOk(u, u.tasks[tid]) { assert TaskOk(t, t.tasks[tid]); }
  }

  lemma NativeResultOk(s: State, tid: nat, reply: NativeResult, write: bool)
    requires JournalInv(s)
    ensures JournalInv(StepNativeResult(s, tid, reply, write)) && Turns(s, StepNativeResult(s, tid, reply, write))
  {
    DropOk(s, tid);
    SameSound(s, s);
    if tid in s.tasks && s.tasks[tid].Reading? && s.tasks[tid].read.fence.token in s.records {
      var r, recovers := s.tasks[tid].read, s.tasks[tid].recovers;
      assert TaskOk(s, s.tasks[tid]);
      match reply
      case ResultRejected =>
        var c := s.records[r.fence.token];
        if !(c.fence != r.fence || c.preempted) && Stores(s, c.fence.token, write) {
          var q := c.(rejection := true, stage := RejectionObserved);
          assert RecordOk(r.fence.token, q);
          SettleOk(s, tid, q, ReadingRejected(q, recovers));
        }
      case ResultUnknown =>
      case ResultTerminal(outcome, ticket) =>
        if r.preempted {
          if recovers.Some? { ReaderOk(s, tid, Recovering(recovers.value, Preempted)); }
        } else {
          ReaderOk(s, tid, ReadingSender(r, recovers));
        }
    }
  }

  /** The sender's result settles the record, and a recovery goes on with it. */
  lemma SettledBySender(s: State, tid: nat, c: Record, recovers: Option<Record>, outcome: Outcome, active: nat)
    requires JournalInv(s) && c.fence.token in s.records && c == s.records[c.fence.token] && !c.preempted
    requires RecoversOk(s, recovers) && (recovers.Some? ==> !recovers.value.preempted)
    ensures var t := Resolved(Put(s, c.(terminal := true, outcome := outcome, stage := Reconciled)), tid, recovers,
      outcome).(active := active);
      JournalInv(t) && Turns(s, t)
  {
    var q := c.(terminal := true, outcome := outcome, stage := Reconciled);
    ResolvedOk(s, tid, q, recovers, outcome);
    var m := Resolved(Put(s, q), tid, recovers, outcome);
    SameJournal(s, m, m.(active := active));
  }

  lemma SenderResultOk(s: State, tid: nat, outcome: Outcome, playing: bool, matches: bool, current: bool, write: bool)
    requires JournalInv(s)
    ensures JournalInv(StepSenderResult(s, tid, outcome, playing, matches, current, write))
    ensures Turns(s, StepSenderResult(s, tid, outcome, playing, matches, current, write))
  {
    DropOk(s, tid);
    SameSound(s, s);
    if tid in s.tasks && s.tasks[tid].ReadingSender? && s.tasks[tid].read.fence.token in s.records {
      var r, recovers := s.tasks[tid].read, s.tasks[tid].recovers;
      assert TaskOk(s, s.tasks[tid]);
      var c := s.records[r.fence.token];
      if recovers.Some? { ReaderOk(s, tid, Recovering(recovers.value, outcome)); }
      if !c.preempted {
        SettledBySender(s, tid, c, recovers, outcome,
          StepSenderResult(s, tid, outcome, playing, matches, current, write).active);
      }
    }
  }

  lemma RejectedResultOk(s: State, tid: nat, ok: bool, write: bool)
    requires JournalInv(s)
    ensures JournalInv(StepRejectedResult(s, tid, ok, write)) && Turns(s, StepRejectedResult(s, tid, ok, write))
  {
    DropOk(s, tid);
    SameSound(s, s);
    if tid in s.tasks && s.tasks[tid].ReadingRejected? && s.tasks[tid].read.fence.token in s.records {
      var r, recovers := s.tasks[tid].read, s.tasks[tid].recovers;
      assert TaskOk(s, s.tasks[tid]);
      var c := s.records[r.fence.token];
      if !c.preempted {
        var stage := if r.native.None? && IsPreflightStage(r.stage) then PreflightReconciled else RejectedReconciled;
        ResolvedOk(s, tid, c.(terminal := true, outcome := Rejected, stage := stage), recovers, Rejected);
      }
    }
  }

  lemma ReconcileOk(s: State, tid: nat, token: nat)
    requires JournalInv(s)
    ensures JournalInv(StepReconcile(s, tid, token)) && Turns(s, StepReconcile(s, tid, token))
  {
    SameSound(s, s);
    if token in s.records { ReaderOk(s, tid, ReconcileTask(s.records[token], None)); }
  }

  lemma ReadOk(s: State, e: ReadEvent)
    requires JournalInv(s)
    ensures JournalInv(StepRead(s, e)) && Turns(s, StepRead(s, e))
  {
    match e
    case Reconcile(tid, token) => ReconcileOk(s, tid, token);
    case NativeResultReply(tid, result, write) => NativeResultOk(s, tid, result, write);
    case SenderResultReply(tid, outcome, playing, matches, current, write) =>
      SenderResultOk(s, tid, outcome, playing, matches, current, write);
    case RejectedResultReply(tid, ok, write) => RejectedResultOk(s, tid, ok, write);
  }

  lemma RecoverCandidateOk(s: State, tid: nat, rejected: bool, write: bool)
    requires JournalInv(s)
    ensures Sound(s, StepRecoverCandidate(s, tid, rejected, write))
  {
    DropSound(s, tid);
    SameSound(s, s);
    if tid in s.tasks && s.tasks[tid].Pending? && s.tasks[tid].snapshot.fence.token in s.records {
      var r := s.tasks[tid].snapshot;
      var c := s.records[r.fence.token];
      if (r.stage == PreflightAttempted || r.stage == PreflightPrepared) && c.stage == r.stage {
        EndSound(s, tid, c.(terminal := true, outcome := Rejected, stage := PreflightReconciled), write);
      }
    }
  }

  /** A recovered record is settled with the outcome that was read, which for a preempted one is "preempted". */
  lemma RecoveredOk(s: State, tid: nat, write: bool)
    requires JournalInv(s)
    ensures Sound(s, StepRecovered(s, tid, write))
  {
    DropSound(s, tid);
    SameSound(s, s);
    if tid in s.tasks && s.tasks[tid].Recovering? && s.tasks[tid].snapshot.fence.token in s.records {
      var r := s.tasks[tid].snapshot;
      var c := s.records[r.fence.token];
      assert TaskOk(s, s.tasks[tid]);
      if !(c.terminal || c.fence != r.fence || c.stage != r.stage) {
        EndSound(s, tid, c.(terminal := true, outcome := s.tasks[tid].outcome, stage := Reconciled), write);
      }
    }
  }

  lemma RecoverReconcileOk(s: State, tid: nat)
    requires JournalInv(s)
    ensures JournalInv(StepRecoverReconcile(s, tid)) && Turns(s, StepRecoverReconcile(s, tid))
  {
    DropOk(s, tid);
    SameSound(s, s);
    if tid in s.tasks && s.tasks[tid].Pending? && s.tasks[tid].snapshot.fence.token in s.records {
      var r := s.tasks[tid].snapshot;
      assert TaskOk(s, s.tasks[tid]);
      ReaderOk(s, tid, ReconcileTask(s.records[r.fence.token], Some(r)));
    }
  }

  lemma RememberOk(s: State, tid: nat, token: nat)
    requires JournalInv(s)
    ensures JournalInv(StepPending(s, tid, token)) && Turns(s, StepPending(s, tid, token))
  {
    SameSound(s, s);
    if token in s.records { ReaderOk(s, tid, Pending(s.records[token])); }
  }

  lemma RecoverOk(s: State, e: RecoverEvent)
    requires JournalInv(s)
    ensures JournalInv(StepRecover(s, e)) && Turns(s, StepRecover(s, e))
  {
    match e
    case Remember(tid, token) => RememberOk(s, tid, token);
    case RecoverCandidate(tid, rejected, write) =>
      RecoverCandidateOk(s, tid, rejected, write);
      SoundKeeps(s, StepRecoverCandidate(s, tid, rejected, write));
    case RecoverReconcile(tid) => RecoverReconcileOk(s, tid);
    case RecoveredReply(tid, write) =>
      RecoveredOk(s, tid, write);
      SoundKeeps(s, StepRecovered(s, tid, write));
  }

  // ----- over every run -----

  lemma StepJournal(s: State, e: Event)
    requires JournalInv(s)
    ensures JournalInv(Step(s, e)) && Turns(s, Step(s, e))
  {
    match e
    case Control(control) => ControlSound(s, control); SoundKeeps(s, StepControl(s, control));
    case Opening(open) => OpenSound(s, open); SoundKeeps(s, StepOpen(s, open));
    case Holding(hold) => HoldingSound(s, hold); SoundKeeps(s, StepHolding(s, hold));
    case Effect(effect) => EffectSound(s, effect); SoundKeeps(s, StepEffect(s, effect));
    case Read(read) => ReadOk(s, read);
    case Recovery(recover) => RecoverOk(s, recover);
    case Preemption(preempt) => PreemptionSound(s, preempt); SoundKeeps(s, StepPreemption(s, preempt));
  }

  lemma RunJournal(es: seq<Event>)
    ensures JournalInv(Run(es))
  {
    forall s: State, e: Event | JournalInv(s) ensures JournalInv(Step(s, e)) { StepJournal(s, e); }
    Runs.Invariant(Step, Init(), (s: State) => JournalInv(s), es);
  }
}
