/** What every run of the radio producer shows, restarts included. */
module RadioProducerTheorems {
  import Runs
  import opened RadioProducerModel
  import opened RadioProducerProofs
  import opened RadioProducerEffects

  ghost predicate Inv(s: State) {
    JournalInv(s) && EffectInv(s)
  }

  lemma StepInv(s: State, e: Event)
    requires Inv(s)
    ensures Inv(Step(s, e))
  {
    StepJournal(s, e);
    StepEffects(s, e);
  }

  lemma RunInv(es: seq<Event>)
    ensures Inv(Run(es))
  {
    forall s: State, e: Event | Inv(s) ensures Inv(Step(s, e)) { StepInv(s, e); }
    Runs.Invariant(Step, Init(), (s: State) => Inv(s), es);
  }

  // ----- once-only write-ahead effects -----

  /** Each effect is attempted once and its port call issued at most once, for each fence, over whole runs. */
  lemma EffectsOnce(es: seq<Event>, i: nat, j: nat)
    requires i < j < |Run(es).log|
    ensures Run(es).log[i] != Run(es).log[j]
  {
    RunInv(es);
  }

  /** A port call is issued only after its attempt was stored. */
  lemma CallsAreWriteAhead(es: seq<Event>, i: nat)
    requires i < |Run(es).log| && Run(es).log[i].Called?
    ensures exists j :: 0 <= j < i && Run(es).log[j] == Attempted(Run(es).log[i].kind, Run(es).log[i].token)
  {
    RunInv(es);
    var log := Run(es).log;
    assert Attempted(log[i].kind, log[i].token) in log[..i];
  }

  /** A section that attempts one effect: its record is durably in the attempted stage, and was not preempted before. */
  ghost predicate Attempts(s: State, t: State) {
    t.log == s.log || exists kind, k :: AttemptsOne(s, t, kind, k)
  }

  ghost predicate AttemptsOne(s: State, t: State, kind: Kind, k: nat) {
    && t.log == s.log + [Attempted(kind, k)] && k in t.records && t.records[k].stage == AttemptedStage(kind)
    && (k in s.records ==> !s.records[k].preempted)
  }

  lemma CapturedAttempts(s: State, tid: nat, ok: bool, token: nat, write: bool)
    requires JournalInv(s)
    ensures Attempts(s, StepCaptured(s, tid, ok, token, write))
  {
    var t := StepCaptured(s, tid, ok, token, write);
    if t.log != s.log { assert AttemptsOne(s, t, SenderPreflight, token); }
  }

  lemma ReservingAttempts(s: State, tid: nat, r: Record, source: bool, keeps: bool, write: bool)
    requires r.fence.token in s.records ==> !s.records[r.fence.token].preempted
    ensures Attempts(s, Reserving(s, tid, r, source, keeps, write))
  {
    var t := Reserving(s, tid, r, source, keeps, write);
    if t != s { assert AttemptsOne(s, t, NativeReserve, r.fence.token); }
  }

  lemma OpenAttempts(s: State, e: OpenEvent)
    requires JournalInv(s)
    ensures Attempts(s, StepOpen(s, e))
  {
    match e
    case Preflight(tid, generation, target) =>
    case Captured(tid, ok, token, write) => CapturedAttempts(s, tid, ok, token, write);
    case PreparedReply(tid, peer, write) =>
    case Reserve(tid, generation, key, target, source, keeps, write) =>
      ReserveAttempts(s, tid, generation, key, target, source, keeps, write);
    case ReserveSource(tid, generation, target, token, keeps, write) =>
      ReserveSourceAttempts(s, tid, generation, target, token, keeps, write);
  }

  lemma ReserveAttempts(s: State, tid: nat, generation: nat, key: nat, target: nat, source: bool, keeps: bool,
    write: bool)
    requires JournalInv(s)
    ensures Attempts(s, StepReserve(s, tid, generation, key, target, source, keeps, write))
  {
    if key in s.records && s.records[key].stage == PreflightPrepared {
      assert RecordOk(key, s.records[key]);
      ReservingAttempts(s, tid, s.records[key], source, keeps, write);
    }
  }

  lemma ReserveSourceAttempts(s: State, tid: nat, generation: nat, target: nat, token: nat, keeps: bool, write: bool)
    requires JournalInv(s)
    ensures Attempts(s, StepReserveSource(s, tid, generation, target, token, keeps, write))
  {
    if generation in s.issued && token !in s.used {
      var t := s.(used := s.used + {token});
      ReservingAttempts(t, tid, NewRecord(t, token, s.issued[generation], generation, target, NativeReserveAttempted),
        true, keeps, write);
      var u := StepReserveSource(s, tid, generation, target, token, keeps, write);
      if u.log != s.log { assert AttemptsOne(s, u, NativeReserve, token); }
    }
  }

  lemma GrantAttempts(s: State, tid: nat, hold: Hold, write: bool)
    requires JournalInv(s) && AwaitsNative(s, tid)
    ensures Attempts(s, GrantNative(s, tid, hold, write))
  {
    var t := GrantNative(s, tid, hold, write);
    if t.log != s.log {
      var k := s.tasks[tid].fence.token;
      assert RecordOk(k, s.records[k]);
      assert AttemptsOne(s, t, SenderReserve, k);
    }
  }

  lemma HoldingAttempts(s: State, e: HoldEvent)
    requires JournalInv(s)
    ensures Attempts(s, StepHolding(s, e))
  {
    match e
    case NativeAnswer(tid, native, write) =>
      if AwaitsNative(s, tid) && native.Granted? { GrantAttempts(s, tid, native.hold, write); }
    case SenderAnswer(tid, hold, write) =>
    case CancelReply(tid, ok, write) =>
  }

  lemma AdmitAttempts(s: State, tid: nat, kind: Kind, fence: Fence, proceeds: bool, write: bool)
    requires JournalInv(s)
    ensures Attempts(s, StepAdmit(s, tid, kind, fence, proceeds, write))
  {
    var t := StepAdmit(s, tid, kind, fence, proceeds, write);
    if t.log != s.log {
      assert RecordOk(fence.token, s.records[fence.token]);
      assert AttemptsOne(s, t, kind, fence.token);
    }
  }

  lemma EffectAttempts(s: State, e: EffectEvent)
    requires JournalInv(s) && !e.Call?
    ensures Attempts(s, StepEffect(s, e))
  {
    match e
    case Admit(tid, kind, fence, proceeds, write) => AdmitAttempts(s, tid, kind, fence, proceeds, write);
    case Advance(tid, kind, ok, write) => AdvanceSoftens(s, tid, kind, ok, write);
    case Stopped(tid, ticket, writePrior, write) => StoppedSoftens(s, tid, ticket, writePrior, write);
    case FinishReply(tid, committed, playing, write) => FinishedSoftens(s, tid, committed, playing, write);
  }

  /** Every attempt that is logged is durable in its record when its section ends. */
  lemma StepAttempts(s: State, e: Event)
    requires JournalInv(s) && !(e.Effect? && e.effect.Call?)
    ensures Attempts(s, Step(s, e))
  {
    match e
    case Control(control) => ControlSoftens(s, control);
    case Opening(open) => OpenAttempts(s, open);
    case Holding(hold) => HoldingAttempts(s, hold);
    case Effect(effect) => EffectAttempts(s, effect);
    case Read(read) => ReadSoftens(s, read);
    case Recovery(recover) => RecoverSoftens(s, recover);
    case Preemption(preempt) => PreemptSoftens(s, preempt);
  }

  // ----- preemption -----

  /** From s to t, a preempted record stays preempted and nothing more is attempted under its fence. */
  ghost predicate Absorbs(s: State, t: State) {
    forall k :: k in s.records && s.records[k].preempted ==>
      k in t.records && t.records[k].preempted
        && (forall kind :: Attempted(kind, k) in t.log ==> Attempted(kind, k) in s.log)
  }

  lemma StepAbsorbs(s: State, e: Event)
    requires JournalInv(s)
    ensures Absorbs(s, Step(s, e))
  {
    var t := Step(s, e);
    StepJournal(s, e);
    if e.Effect? && e.effect.Call? {
      CallAbsorbs(s, e.effect.tid);
    } else {
      StepAttempts(s, e);
      AttemptsAbsorb(s, t);
    }
  }

  lemma CallAbsorbs(s: State, tid: nat)
    ensures Absorbs(s, StepCall(s, tid))
  {
  }

  lemma AttemptsAbsorb(s: State, t: State)
    requires Attempts(s, t) && Turns(s, t)
    ensures Absorbs(s, t)
  {
    forall k | k in s.records && s.records[k].preempted
      ensures k in t.records && t.records[k].preempted
        && (forall kind :: Attempted(kind, k) in t.log ==> Attempted(kind, k) in s.log)
    {
      assert RecordTurns(s.records[k], t.records[k]);
      if t.log != s.log {
        var kind, l :| AttemptsOne(s, t, kind, l);
      }
    }
  }

  lemma AbsorbsTransitive(s: State, m: State, t: State)
    requires Absorbs(s, m) && Absorbs(m, t)
    ensures Absorbs(s, t)
  {
  }

  /**
    Once preempted, always preempted: whatever happens later, no effect is attempted under that fence, and it
    can only end preempted.
   */
  lemma PreemptionIsAbsorbing(es: seq<Event>, more: seq<Event>, k: nat)
    requires k in Run(es).records && Run(es).records[k].preempted
    ensures k in Run(es + more).records && Run(es + more).records[k].preempted
    ensures Run(es + more).records[k].terminal ==> Run(es + more).records[k].outcome == Preempted
    ensures forall kind :: Attempted(kind, k) in Run(es + more).log ==> Attempted(kind, k) in Run(es).log
  {
    var inv := (s: State) => JournalInv(s);
    var rel := (s: State, t: State) => Absorbs(s, t);
    forall s: State, e: Event | inv(s) ensures inv(Step(s, e)) { StepJournal(s, e); }
    forall s: State, t: State, e: Event | inv(t) && rel(s, t) ensures rel(s, Step(t, e)) {
      StepAbsorbs(t, e);
      AbsorbsTransitive(s, t, Step(t, e));
    }
    Runs.Connected(Step, Init(), inv, rel, es, more);
    RunJournal(es + more);
    assert RecordOk(k, Run(es + more).records[k]);
  }

  // ----- the journal -----

  /** In every reachable state at most one record is neither settled nor preempted. */
  lemma OneUnsettledRecord(es: seq<Event>, k: nat, l: nat)
    requires k in Run(es).records && l in Run(es).records && k != l
    ensures !(Open(Run(es).records[k]) && Open(Run(es).records[l]))
  {
    RunJournal(es);
  }
}
