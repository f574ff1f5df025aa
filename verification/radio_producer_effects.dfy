/**
  Write-ahead effects: each effect of an operation is attempted once, its port call is issued at
  most once and only after the attempt is durable, over all interleavings, late replies and restarts.
 */
module RadioProducerEffects {
  import opened RadioProducerModel
  import opened RadioProducerProofs

  /** How far an unsettled record has come. A passive rejection stands past everything. */
  function Rank(stage: Stage): nat {
    match stage
    case PreflightAttempted => 0
    case PreflightPrepared => 1
    case NativeReserveAttempted => 2
    case CandidateCancelAttempted => 2
    case SenderReserveAttempted => 3
    case ReservedStage => 4
    case StopAttempted => 5
    case VolumeAttempted => 5
    case StoppedStage => 6
    case VolumeObserved => 6
    case PauseAttempted => 7
    case Suspended => 8
    case StartAttempted => 9
    case Started => 10
    case FinishAttempted => 11
    case _ => 100
  }

  function KindRank(kind: Kind): nat {
    Rank(AttemptedStage(kind))
  }

  /** The stages an unsettled record can be in while its reservation is under way. */
  predicate Early(stage: Stage) {
    stage == NativeReserveAttempted || stage == CandidateCancelAttempted || stage == SenderReserveAttempted
      || stage == RejectionObserved
  }

  predicate InReserve(t: Task) {
    t.AwaitingNative? || (t.Effecting? && (t.kind == NativeReserve || t.kind == SenderReserve))
  }

  function Limit(t: Task): nat {
    if t.Effecting? && t.kind == SenderReserve then 3 else 2
  }

  /** A reservation under way: nothing later has been attempted, and the record has not moved past it. */
  ghost predicate ReserveOk(s: State, t: Task) {
    InReserve(t) ==>
      && t.fence.token in s.records && (Open(s.records[t.fence.token]) ==> Early(s.records[t.fence.token].stage))
      && forall kind :: Attempted(kind, t.fence.token) in s.log ==> KindRank(kind) <= Limit(t)
  }

  /** A call under way was attempted, and is issued only once. */
  ghost predicate CallOk(s: State, t: Task) {
    t.Effecting? ==> Attempted(t.kind, t.fence.token) in s.log && (t.called || Called(t.kind, t.fence.token) !in s.log)
  }

  predicate Apart(t: Task, u: Task) {
    && (t.Effecting? && u.Effecting? && t.kind == u.kind ==> t.fence.token != u.fence.token)
    && (InReserve(t) && InReserve(u) ==> t.fence.token != u.fence.token)
  }

  /** An unsettled record has come at least as far as every effect attempted for it. */
  ghost predicate RankInv(s: State) {
    forall kind, k :: Attempted(kind, k) in s.log ==>
      k in s.records && (Open(s.records[k]) ==> KindRank(kind) <= Rank(s.records[k].stage))
  }

  ghost predicate LogInv(log: seq<Entry>) {
    && (forall i, j :: 0 <= i < j < |log| ==> log[i] != log[j])
    && (forall i :: 0 <= i < |log| && log[i].Called? ==> Attempted(log[i].kind, log[i].token) in log[..i])
  }

  ghost predicate TasksInv(s: State) {
    && (forall tid :: tid in s.tasks ==> ReserveOk(s, s.tasks[tid]) && CallOk(s, s.tasks[tid]))
    && (forall t, u :: t in s.tasks && u in s.tasks && t != u ==> Apart(s.tasks[t], s.tasks[u]))
  }

  ghost predicate EffectInv(s: State) {
    RankInv(s) && LogInv(s.log) && TasksInv(s)
  }

  // ----- sections that attempt nothing -----

  predicate Softly(r: Record, q: Record) {
    Open(q) ==> Open(r) && Rank(r.stage) <= Rank(q.stage) && (Early(r.stage) ==> Early(q.stage))
  }

  predicate PlainTask(t: Task) {
    !t.Effecting? && !t.AwaitingNative?
  }

  ghost predicate Softens(s: State, t: State) {
    && t.log == s.log && t.records.Keys == s.records.Keys
    && (forall k :: k in s.records ==> Softly(s.records[k], t.records[k]))
    && (forall tid :: tid in t.tasks ==> (tid in s.tasks && t.tasks[tid] == s.tasks[tid]) || PlainTask(t.tasks[tid]))
  }

  lemma SoftensKeeps(s: State, t: State)
    requires EffectInv(s) && Softens(s, t)
    ensures EffectInv(t)
  {
    forall tid | tid in t.tasks ensures ReserveOk(t, t.tasks[tid]) && CallOk(t, t.tasks[tid]) {
      if !PlainTask(t.tasks[tid]) { assert ReserveOk(s, s.tasks[tid]) && CallOk(s, s.tasks[tid]); }
    }
  }

  lemma SameSoftens(s: State, t: State)
    requires t.records == s.records && t.log == s.log
    requires forall tid :: tid in t.tasks ==>
      (tid in s.tasks && t.tasks[tid] == s.tasks[tid]) || PlainTask(t.tasks[tid])
    ensures Softens(s, t)
  {
  }

  lemma PutSoftens(s: State, t: State, k: nat)
    requires t.log == s.log && k in s.records && k in t.records && t.records == s.records[k := t.records[k]]
      && Softly(s.records[k], t.records[k])
    requires forall tid :: tid in t.tasks ==>
      (tid in s.tasks && t.tasks[tid] == s.tasks[tid]) || PlainTask(t.tasks[tid])
    ensures Softens(s, t)
  {
  }

  lemma EndSoftens(s: State, tid: nat, r: Record, write: bool)
    requires r.fence.token in s.records && Softly(s.records[r.fence.token], r)
    ensures Softens(s, StoreEnd(s, tid, r, write)) && Softens(s, Drop(s, tid))
  {
    SameSoftens(s, Drop(s, tid));
    if Stores(s, r.fence.token, write) { PutSoftens(s, StoreEnd(s, tid, r, write), r.fence.token); }
  }

  lemma DropSoftens(s: State, tid: nat)
    ensures Softens(s, Drop(s, tid)) && Softens(s, s)
  {
    SameSoftens(s, Drop(s, tid));
    SameSoftens(s, s);
  }

  lemma ThenSoftens(s: State, tid: nat, r: Record, write: bool, task: Task)
    requires r.fence.token in s.records && Softly(s.records[r.fence.token], r) && PlainTask(task)
    ensures Softens(s, StoreThen(s, tid, r, write, task))
  {
    DropSoftens(s, tid);
    if Stores(s, r.fence.token, write) { PutSoftens(s, StoreThen(s, tid, r, write, task), r.fence.token); }
  }

  lemma EnterSoftens(s: State, tid: nat, task: Task)
    requires PlainTask(task)
    ensures Softens(s, Enter(s, tid, task))
  {
    SameSoftens(s, Enter(s, tid, task));
  }

  // ----- attempts -----

  lemma LogAppends(log: seq<Entry>, e: Entry)
    requires LogInv(log) && e !in log && (e.Called? ==> Attempted(e.kind, e.token) in log)
    ensures LogInv(log + [e])
  {
    var all := log + [e];
    forall i | 0 <= i < |all| && all[i].Called? ensures Attempted(all[i].kind, all[i].token) in all[..i] {
      assert all[..i] == if i < |log| then log[..i] else log;
    }
  }

  lemma CalledWasAttempted(log: seq<Entry>, kind: Kind, token: nat)
    requires LogInv(log)
    ensures Called(kind, token) in log ==> Attempted(kind, token) in log
  {
    if Called(kind, token) in log {
      var i :| 0 <= i < |log| && log[i] == Called(kind, token);
      assert Attempted(kind, token) in log[..i];
    }
  }

  /** A fresh attempt for record `k`, by task `tid` or by none that goes on. */
  lemma AttemptKeeps(s: State, t: State, tid: nat, kind: Kind, k: nat)
    requires EffectInv(s) && Attempted(kind, k) !in s.log && t.log == s.log + [Attempted(kind, k)]
    requires k in t.records && t.records == s.records[k := t.records[k]]
    requires forall other :: Attempted(other, k) in s.log ==> KindRank(other) <= KindRank(kind)
    requires Rank(t.records[k].stage) == KindRank(kind)
    requires forall u :: u in s.tasks && u != tid && InReserve(s.tasks[u]) ==> s.tasks[u].fence.token != k
    requires t.tasks == s.tasks || (tid in t.tasks && t.tasks == s.tasks[tid := t.tasks[tid]])
    requires t.tasks == s.tasks ==> tid !in s.tasks
    requires tid in t.tasks ==>
      && (t.tasks[tid].Effecting? || t.tasks[tid].AwaitingNative?) && t.tasks[tid].fence.token == k
      && (t.tasks[tid].Effecting? ==> t.tasks[tid].kind == kind && !t.tasks[tid].called)
      && (InReserve(t.tasks[tid]) ==> Early(t.records[k].stage) && KindRank(kind) <= Limit(t.tasks[tid]))
    ensures EffectInv(t)
  {
    LogAppends(s.log, Attempted(kind, k));
    CalledWasAttempted(s.log, kind, k);
    forall u | u in t.tasks ensures ReserveOk(t, t.tasks[u]) && CallOk(t, t.tasks[u]) {
      if u != tid { assert ReserveOk(s, s.tasks[u]) && CallOk(s, s.tasks[u]); }
    }
    forall u, v | u in t.tasks && v in t.tasks && u != v ensures Apart(t.tasks[u], t.tasks[v]) {
      assert u != tid ==> CallOk(s, s.tasks[u]);
      assert v != tid ==> CallOk(s, s.tasks[v]);
      assert u != tid && v != tid ==> Apart(s.tasks[u], s.tasks[v]);
    }
  }

  // ----- opening and reserving -----

  lemma CapturedEffects(s: State, tid: nat, ok: bool, token: nat, write: bool)
    requires EffectInv(s) && JournalInv(s)
    ensures EffectInv(StepCaptured(s, tid, ok, token, write))
  {
    var t := StepCaptured(s, tid, ok, token, write);
    if t.log == s.log {
      SameSoftens(s, t);
      SoftensKeeps(s, t);
    } else {
      forall u | u in s.tasks && InReserve(s.tasks[u]) ensures s.tasks[u].fence.token != token {
        assert ReserveOk(s, s.tasks[u]);
      }
      AttemptKeeps(s, t, tid, SenderPreflight, token);
    }
  }

  lemma PreparedSoftens(s: State, tid: nat, peer: PeerReply, write: bool)
    requires JournalInv(s)
    ensures Softens(s, StepPrepared(s, tid, peer, write))
  {
    DropSoftens(s, tid);
    if tid in s.tasks && s.tasks[tid].Effecting? && s.tasks[tid].fence.token in s.records {
      var r := s.records[s.tasks[tid].fence.token];
      assert RecordOk(s.tasks[tid].fence.token, r);
      if r.stage == PreflightAttempted {
        EndSoftens(s, tid, r.(terminal := true, outcome := Rejected, stage := PreflightRejected), write);
        EndSoftens(s, tid, r.(stage := PreflightPrepared), write);
      }
    }
  }

  /** A prepared or a new record enters its reservation. */
  lemma ReservingEffects(s: State, tid: nat, r: Record, source: bool, keeps: bool, write: bool)
    requires EffectInv(s) && tid !in s.tasks
    requires r.fence.token in s.records ==>
      Open(s.records[r.fence.token]) && s.records[r.fence.token].stage == PreflightPrepared
    ensures EffectInv(Reserving(s, tid, r, source, keeps, write))
  {
    var t := Reserving(s, tid, r, source, keeps, write);
    var k := r.fence.token;
    if t != s {
      forall u | u in s.tasks && InReserve(s.tasks[u]) ensures s.tasks[u].fence.token != k {
        assert ReserveOk(s, s.tasks[u]);
      }
      AttemptKeeps(s, t, tid, NativeReserve, k);
    }
  }

  lemma ReserveEffects(s: State, tid: nat, generation: nat, key: nat, target: nat, source: bool, keeps: bool,
    write: bool)
    requires EffectInv(s) && JournalInv(s)
    ensures EffectInv(StepReserve(s, tid, generation, key, target, source, keeps, write))
  {
    if tid !in s.tasks && key in s.records && s.records[key].stage == PreflightPrepared {
      assert RecordOk(key, s.records[key]);
      ReservingEffects(s, tid, s.records[key], source, keeps, write);
    }
  }

  lemma ReserveSourceEffects(s: State, tid: nat, generation: nat, target: nat, token: nat, keeps: bool, write: bool)
    requires EffectInv(s) && JournalInv(s)
    ensures EffectInv(StepReserveSource(s, tid, generation, target, token, keeps, write))
  {
    if tid !in s.tasks && token !in s.used && generation in s.issued {
      var t := s.(used := s.used + {token});
      SameSoftens(s, t);
      SoftensKeeps(s, t);
      ReservingEffects(t, tid, NewRecord(t, token, s.issued[generation], generation, target, NativeReserveAttempted),
        true, keeps, write);
    }
  }

  lemma OpenEffects(s: State, e: OpenEvent)
    requires EffectInv(s) && JournalInv(s)
    ensures EffectInv(StepOpen(s, e))
  {
    match e
    case Preflight(tid, generation, target) =>
      SameSoftens(s, StepPreflight(s, tid, generation, target));
      SoftensKeeps(s, StepPreflight(s, tid, generation, target));
    case Captured(tid, ok, token, write) => CapturedEffects(s, tid, ok, token, write);
    case PreparedReply(tid, peer, write) =>
      PreparedSoftens(s, tid, peer, write);
      SoftensKeeps(s, StepPrepared(s, tid, peer, write));
    case Reserve(tid, generation, key, target, source, keeps, write) =>
      ReserveEffects(s, tid, generation, key, target, source, keeps, write);
    case ReserveSource(tid, generation, target, token, keeps, write) =>
      ReserveSourceEffects(s, tid, generation, target, token, keeps, write);
  }

  // ----- the reservation -----

  lemma GrantShape(s: State, tid: nat, hold: Hold, write: bool)
    requires AwaitsNative(s, tid) && RecordsOk(s.records) && GrantNative(s, tid, hold, write).log != s.log
    ensures var t := GrantNative(s, tid, hold, write); var k := s.tasks[tid].fence.token;
      && t.log == s.log + [Attempted(SenderReserve, k)]
        && t.tasks == s.tasks[tid := SenderTask(s.records[k], s.tasks[tid])]
      && t.records == s.records[k := s.records[k].(native := Some(hold), stage := SenderReserveAttempted)]
  {
    assert RecordOk(s.tasks[tid].fence.token, s.records[s.tasks[tid].fence.token]);
  }

  lemma GrantEffects(s: State, tid: nat, hold: Hold, write: bool)
    requires EffectInv(s) && JournalInv(s) && AwaitsNative(s, tid)
    ensures EffectInv(GrantNative(s, tid, hold, write))
  {
    var t := GrantNative(s, tid, hold, write);
    var k := s.tasks[tid].fence.token;
    DropSoftens(s, tid);
    if t.log == s.log {
      SoftensKeeps(s, Drop(s, tid));
    } else {
      assert RecordOk(k, s.records[k]) && ReserveOk(s, s.tasks[tid]);
      GrantShape(s, tid, hold, write);
      forall u | u in s.tasks && u != tid && InReserve(s.tasks[u]) ensures s.tasks[u].fence.token != k {
        assert Apart(s.tasks[tid], s.tasks[u]);
      }
      AttemptKeeps(s, t, tid, SenderReserve, k);
    }
  }

  lemma RejectEffects(s: State, tid: nat, write: bool)
    requires EffectInv(s) && JournalInv(s) && AwaitsNative(s, tid)
    ensures EffectInv(RejectCandidate(s, tid, write))
  {
    var k := s.tasks[tid].fence.token;
    var r := s.records[k];
    DropSoftens(s, tid);
    assert RecordOk(k, r);
    if r.stage == NativeReserveAttempted {
      ThenSoftens(s, tid, r.(rejection := true, stage := CandidateCancelAttempted), write, Cancelling(k));
    }
    SoftensKeeps(s, RejectCandidate(s, tid, write));
  }

  lemma NativeEffects(s: State, tid: nat, reply: NativeReply, write: bool)
    requires EffectInv(s) && JournalInv(s)
    ensures EffectInv(StepNative(s, tid, reply, write))
  {
    DropSoftens(s, tid);
    SoftensKeeps(s, Drop(s, tid));
    if AwaitsNative(s, tid) {
      if reply.Granted? { GrantEffects(s, tid, reply.hold, write); }
      if reply.OperationRejected? { RejectEffects(s, tid, write); }
    }
  }

  /** The reservation ends: it may bring a passively rejected record back, but nothing later was attempted. */
  lemma ReservedKeeps(s: State, t: State, tid: nat)
    requires EffectInv(s) && tid in s.tasks && s.tasks[tid].Effecting? && s.tasks[tid].kind == SenderReserve
    requires var k := s.tasks[tid].fence.token;
      k in t.records && t.records == s.records[k := t.records[k]] && t.records[k].stage == ReservedStage
    requires t.log == s.log && t.tasks == s.tasks - {tid}
    ensures EffectInv(t)
  {
    var k := s.tasks[tid].fence.token;
    assert ReserveOk(s, s.tasks[tid]);
    forall u | u in t.tasks ensures ReserveOk(t, t.tasks[u]) && CallOk(t, t.tasks[u]) {
      assert ReserveOk(s, s.tasks[u]) && CallOk(s, s.tasks[u]) && Apart(s.tasks[tid], s.tasks[u]);
    }
  }

  lemma SenderEffects(s: State, tid: nat, hold: Option<Hold>, write: bool)
    requires EffectInv(s) && JournalInv(s)
    ensures EffectInv(StepSender(s, tid, hold, write))
  {
    var t := StepSender(s, tid, hold, write);
    DropSoftens(s, tid);
    SoftensKeeps(s, Drop(s, tid));
    if t != s && t != Drop(s, tid) {
      assert RecordOk(s.tasks[tid].fence.token, s.records[s.tasks[tid].fence.token]);
      ReservedKeeps(s, t, tid);
    }
  }

  lemma HoldingEffects(s: State, e: HoldEvent)
    requires EffectInv(s) && JournalInv(s)
    ensures EffectInv(StepHolding(s, e))
  {
    match e
    case NativeAnswer(tid, native, write) => NativeEffects(s, tid, native, write);
    case SenderAnswer(tid, hold, write) => SenderEffects(s, tid, hold, write);
    case CancelReply(tid, ok, write) =>
      DropSoftens(s, tid);
      if tid in s.tasks && s.tasks[tid].Cancelling? && s.tasks[tid].token in s.records {
        var r := s.records[s.tasks[tid].token];
        assert RecordOk(s.tasks[tid].token, r);
        EndSoftens(s, tid, r.(terminal := true, outcome := Rejected, stage := NoEffectsRejected), write);
      }
      SoftensKeeps(s, StepCancelled(s, tid, ok, write));
  }

  // ----- effects under a fence -----

  lemma AdmitShape(s: State, tid: nat, kind: Kind, fence: Fence, proceeds: bool, write: bool)
    requires RecordsOk(s.records) && StepAdmit(s, tid, kind, fence, proceeds, write).log != s.log
    ensures var t := StepAdmit(s, tid, kind, fence, proceeds, write); var k := fence.token;
      && tid !in s.tasks && k in s.records && t.log == s.log + [Attempted(kind, k)]
      && t.records == s.records[k := s.records[k].(stage := AttemptedStage(kind))]
      && (t.tasks == s.tasks || t.tasks == s.tasks[tid := Effecting(kind, fence, false, Ask)])
      && Rank(s.records[k].stage) < KindRank(kind) && !Early(s.records[k].stage) && Open(s.records[k])
  {
    assert RecordOk(fence.token, s.records[fence.token]);
  }

  lemma AdmitEffects(s: State, tid: nat, kind: Kind, fence: Fence, proceeds: bool, write: bool)
    requires EffectInv(s) && JournalInv(s)
    ensures EffectInv(StepAdmit(s, tid, kind, fence, proceeds, write))
  {
    var t := StepAdmit(s, tid, kind, fence, proceeds, write);
    if t.log != s.log {
      var k := fence.token;
      AdmitShape(s, tid, kind, fence, proceeds, write);
      forall u | u in s.tasks && InReserve(s.tasks[u]) ensures s.tasks[u].fence.token != k {
        assert ReserveOk(s, s.tasks[u]);
      }
      AttemptKeeps(s, t, tid, kind, k);
    }
  }

  lemma CallEffects(s: State, tid: nat)
    requires EffectInv(s)
    ensures EffectInv(StepCall(s, tid))
  {
    var t := StepCall(s, tid);
    if t.log != s.log {
      var e := Called(s.tasks[tid].kind, s.tasks[tid].fence.token);
      assert CallOk(s, s.tasks[tid]);
      LogAppends(s.log, e);
      forall u | u in t.tasks ensures ReserveOk(t, t.tasks[u]) && CallOk(t, t.tasks[u]) {
        assert ReserveOk(s, s.tasks[u]) && CallOk(s, s.tasks[u]);
        assert u != tid ==> Apart(s.tasks[tid], s.tasks[u]);
      }
      forall u, v | u in t.tasks && v in t.tasks && u != v ensures Apart(t.tasks[u], t.tasks[v]) {
        assert Apart(s.tasks[u], s.tasks[v]);
      }
    }
  }

  lemma AdvancedSoftens(s: State, tid: nat, kind: Kind, r: Record, write: bool)
    requires r.fence.token in s.records && r == s.records[r.fence.token] && r.stage == AttemptedStage(kind)
    requires kind.PauseSuspend? || kind.StartSource? || kind.SetVolume?
    ensures Softens(s, StoreEnd(s, tid, r.(stage := AdvancedStage(kind)), write))
  {
    EndSoftens(s, tid, r.(stage := AdvancedStage(kind)), write);
  }

  lemma AdvanceSoftens(s: State, tid: nat, kind: Kind, ok: bool, write: bool)
    requires JournalInv(s)
    ensures Softens(s, StepAdvance(s, tid, kind, ok, write))
  {
    DropSoftens(s, tid);
    if (kind.PauseSuspend? || kind.StartSource? || kind.SetVolume?) && Replied(s, tid, kind) {
      var r := s.records[s.tasks[tid].fence.token];
      assert RecordOk(s.tasks[tid].fence.token, r);
      if r.stage == AttemptedStage(kind) { AdvancedSoftens(s, tid, kind, r, write); }
    }
  }

  lemma SoftensTransitive(s: State, m: State, t: State)
    requires Softens(s, m) && Softens(m, t) && m.tasks == s.tasks
    ensures Softens(s, t)
  {
    forall k | k in s.records ensures Softly(s.records[k], t.records[k]) {
      assert Softly(s.records[k], m.records[k]) && Softly(m.records[k], t.records[k]);
    }
  }

  lemma StoreStoppedSoftens(s: State, tid: nat, r: Record, ticket: Option<nat>, writePrior: bool, write: bool)
    requires r.fence.token in s.records && r == s.records[r.fence.token] && r.stage == StopAttempted
    ensures Softens(s, StoreStopped(s, tid, r, ticket, writePrior, write))
  {
    var prior := DrainedKey(r);
    var after := r.(ticket := ticket, stage := StoppedStage);
    DropSoftens(s, tid);
    if r.prior.None? || prior !in s.records {
      EndSoftens(s, tid, after, write);
    } else if Stores(s, prior, writePrior) {
      var m := s.(records := s.records[prior := s.records[prior].(ticket := ticket)]);
      PutSoftens(s, m, prior);
      EndSoftens(m, tid, after, write);
      SoftensTransitive(s, m, StoreEnd(m, tid, after, write));
    }
  }

  lemma StoppedSoftens(s: State, tid: nat, ticket: Option<nat>, writePrior: bool, write: bool)
    requires JournalInv(s)
    ensures Softens(s, StepStopped(s, tid, ticket, writePrior, write))
  {
    DropSoftens(s, tid);
    if Replied(s, tid, StopDrain) {
      var r := s.records[s.tasks[tid].fence.token];
      assert RecordOk(s.tasks[tid].fence.token, r);
      if r.stage == StopAttempted { StoreStoppedSoftens(s, tid, r, ticket, writePrior, write); }
    }
  }

  lemma FinishedSoftens(s: State, tid: nat, committed: bool, playing: bool, write: bool)
    requires JournalInv(s)
    ensures Softens(s, StepFinished(s, tid, committed, playing, write))
  {
    var t := StepFinished(s, tid, committed, playing, write);
    DropSoftens(s, tid);
    if Replied(s, tid, FinishOperation) && t != Drop(s, tid) {
      assert RecordOk(s.tasks[tid].fence.token, s.records[s.tasks[tid].fence.token]);
      PutSoftens(s, t, s.tasks[tid].fence.token);
    }
  }

  lemma EffectEffects(s: State, e: EffectEvent)
    requires EffectInv(s) && JournalInv(s)
    ensures EffectInv(StepEffect(s, e))
  {
    match e
    case Admit(tid, kind, fence, proceeds, write) => AdmitEffects(s, tid, kind, fence, proceeds, write);
    case Call(tid) => CallEffects(s, tid);
    case Advance(tid, kind, ok, write) => AdvanceSoftens(s, tid, kind, ok, write);
      SoftensKeeps(s, StepAdvance(s, tid, kind, ok, write));
    case Stopped(tid, ticket, writePrior, write) => StoppedSoftens(s, tid, ticket, writePrior, write);
      SoftensKeeps(s, StepStopped(s, tid, ticket, writePrior, write));
    case FinishReply(tid, committed, playing, write) => FinishedSoftens(s, tid, committed, playing, write);
      SoftensKeeps(s, StepFinished(s, tid, committed, playing, write));
  }

  // ----- passive reads, preemption, control -----

  /** A finished read that settled its record. */
  lemma ResolvedSoftens(s: State, tid: nat, q: Record, recovers: Option<Record>, outcome: Outcome)
    requires q.fence.token in s.records && q.terminal
    ensures Softens(s, Resolved(Put(s, q), tid, recovers, outcome))
  {
    PutSoftens(s, Resolved(Put(s, q), tid, recovers, outcome), q.fence.token);
  }

  lemma NativeResultSoftens(s: State, tid: nat, reply: NativeResult, write: bool)
    requires JournalInv(s)
    ensures Softens(s, StepNativeResult(s, tid, reply, write))
  {
    DropSoftens(s, tid);
    if tid in s.tasks && s.tasks[tid].Reading? && s.tasks[tid].read.fence.token in s.records {
      var r, recovers := s.tasks[tid].read, s.tasks[tid].recovers;
      match reply
      case ResultRejected =>
        var c := s.records[r.fence.token];
        assert RecordOk(r.fence.token, c);
        if !c.preempted { RejectionSoftens(s, tid, c, recovers, write); }
      case ResultUnknown =>
      case ResultTerminal(outcome, ticket) =>
        EnterSoftens(s, tid, ReadingSender(r, recovers));
        if recovers.Some? { EnterSoftens(s, tid, Recovering(recovers.value, Preempted)); }
    }
  }

  lemma RejectionSoftens(s: State, tid: nat, c: Record, recovers: Option<Record>, write: bool)
    requires c.fence.token in s.records && c == s.records[c.fence.token] && !c.preempted
    ensures var q := c.(rejection := true, stage := RejectionObserved);
      Softens(s, StoreThen(s, tid, q, write, ReadingRejected(q, recovers)))
  {
    var q := c.(rejection := true, stage := RejectionObserved);
    ThenSoftens(s, tid, q, write, ReadingRejected(q, recovers));
  }

  lemma SenderResultSoftens(s: State, tid: nat, outcome: Outcome, playing: bool, matches: bool, current: bool,
    write: bool)
    requires JournalInv(s)
    ensures Softens(s, StepSenderResult(s, tid, outcome, playing, matches, current, write))
  {
    DropSoftens(s, tid);
    if tid in s.tasks && s.tasks[tid].ReadingSender? && s.tasks[tid].read.fence.token in s.records {
      var r, recovers := s.tasks[tid].read, s.tasks[tid].recovers;
      var c := s.records[r.fence.token];
      assert RecordOk(r.fence.token, c);
      ResolvedSoftens(s, tid, c.(terminal := true, outcome := outcome, stage := Reconciled), recovers, outcome);
      if recovers.Some? { EnterSoftens(s, tid, Recovering(recovers.value, outcome)); }
    }
  }

  lemma RejectedResultSoftens(s: State, tid: nat, ok: bool, write: bool)
    requires JournalInv(s)
    ensures Softens(s, StepRejectedResult(s, tid, ok, write))
  {
    DropSoftens(s, tid);
    if tid in s.tasks && s.tasks[tid].ReadingRejected? && s.tasks[tid].read.fence.token in s.records {
      var r, recovers := s.tasks[tid].read, s.tasks[tid].recovers;
      var c := s.records[r.fence.token];
      assert RecordOk(r.fence.token, c);
      var stage := if r.native.None? && IsPreflightStage(r.stage) then PreflightReconciled else RejectedReconciled;
      ResolvedSoftens(s, tid, c.(terminal := true, outcome := Rejected, stage := stage), recovers, Rejected);
    }
  }

  lemma ReadSoftens(s: State, e: ReadEvent)
    requires JournalInv(s)
    ensures Softens(s, StepRead(s, e))
  {
    match e
    case Reconcile(tid, token) =>
      DropSoftens(s, tid);
      if token in s.records { EnterSoftens(s, tid, ReconcileTask(s.records[token], None)); }
    case NativeResultReply(tid, result, write) => NativeResultSoftens(s, tid, result, write);
    case SenderResultReply(tid, outcome, playing, matches, current, write) =>
      SenderResultSoftens(s, tid, outcome, playing, matches, current, write);
    case RejectedResultReply(tid, ok, write) => RejectedResultSoftens(s, tid, ok, write);
  }

  lemma SettleSoftens(s: State, tid: nat, outcome: Outcome, stage: Stage, write: bool)
    requires JournalInv(s) && tid in s.tasks && (s.tasks[tid].Pending? || s.tasks[tid].Recovering?)
      && s.tasks[tid].snapshot.fence.token in s.records
    ensures Softens(s, StoreEnd(s, tid, s.records[s.tasks[tid].snapshot.fence.token].(terminal := true,
      outcome := outcome, stage := stage), write))
  {
    var k := s.tasks[tid].snapshot.fence.token;
    assert RecordOk(k, s.records[k]);
    EndSoftens(s, tid, s.records[k].(terminal := true, outcome := outcome, stage := stage), write);
  }

  lemma RecoverSoftens(s: State, e: RecoverEvent)
    requires JournalInv(s)
    ensures Softens(s, StepRecover(s, e))
  {
    DropSoftens(s, e.tid);
    match e
    case Remember(tid, token) =>
      if token in s.records { EnterSoftens(s, tid, Pending(s.records[token])); }
    case RecoverCandidate(tid, rejected, write) =>
      if tid in s.tasks && s.tasks[tid].Pending? && s.tasks[tid].snapshot.fence.token in s.records {
        SettleSoftens(s, tid, Rejected, PreflightReconciled, write);
      }
    case RecoverReconcile(tid) =>
      if tid in s.tasks && s.tasks[tid].Pending? && s.tasks[tid].snapshot.fence.token in s.records {
        EnterSoftens(s, tid, ReconcileTask(s.records[s.tasks[tid].snapshot.fence.token], Some(s.tasks[tid].snapshot)));
      }
    case RecoveredReply(tid, write) =>
      if tid in s.tasks && s.tasks[tid].Recovering? && s.tasks[tid].snapshot.fence.token in s.records {
        SettleSoftens(s, tid, s.tasks[tid].outcome, Reconciled, write);
      }
  }

  /** What a preempted record becomes does not matter to the ranks. */
  lemma PreemptedSoftens(s: State, t: State, k: nat)
    requires t.log == s.log && k in s.records && k in t.records && t.records == s.records[k := t.records[k]]
      && t.records[k].preempted
    requires forall tid :: tid in t.tasks ==>
      (tid in s.tasks && t.tasks[tid] == s.tasks[tid]) || PlainTask(t.tasks[tid])
    ensures Softens(s, t)
  {
    PutSoftens(s, t, k);
  }

  lemma HoldSoftens(s: State, tid: nat, hold: Option<Hold>, write: bool)
    ensures Softens(s, StepHold(s, tid, hold, write))
  {
    var t := StepHold(s, tid, hold, write);
    DropSoftens(s, tid);
    if t != s && t != Drop(s, tid) { PreemptedSoftens(s, t, s.tasks[tid].token); }
  }

  lemma DrainedSoftens(s: State, tid: nat, ticket: Option<nat>, write: bool)
    ensures Softens(s, StepDrained(s, tid, ticket, write))
  {
    var t := StepDrained(s, tid, ticket, write);
    DropSoftens(s, tid);
    if t != s && t != Drop(s, tid) { PreemptedSoftens(s, t, s.tasks[tid].token); }
  }

  lemma PreemptSoftens(s: State, e: PreemptEvent)
    ensures Softens(s, StepPreemption(s, e))
  {
    match e
    case Preempt(tid, request, key, write) =>
      var t := StepPreempt(s, tid, request, key, write);
      if t != s { PreemptedSoftens(s, t, key); } else { SameSoftens(s, t); }
    case HoldReply(tid, hold, write) => HoldSoftens(s, tid, hold, write);
    case DrainReply(tid, ticket, write) => DrainedSoftens(s, tid, ticket, write);
    case ReleaseReceipt(token, receipt, write) =>
      var t := StepReleased(s, token, receipt, write);
      if t != s { PreemptedSoftens(s, t, token); } else { SameSoftens(s, t); }
  }

  lemma ControlSoftens(s: State, e: ControlEvent)
    ensures Softens(s, StepControl(s, e))
  {
    SameSoftens(s, StepControl(s, e));
  }

  lemma StepEffects(s: State, e: Event)
    requires EffectInv(s) && JournalInv(s)
    ensures EffectInv(Step(s, e))
  {
    match e
    case Control(control) => ControlSoftens(s, control); SoftensKeeps(s, StepControl(s, control));
    case Opening(open) => OpenEffects(s, open);
    case Holding(hold) => HoldingEffects(s, hold);
    case Effect(effect) => EffectEffects(s, effect);
    case Read(read) => ReadSoftens(s, read); SoftensKeeps(s, StepRead(s, read));
    case Recovery(recover) => RecoverSoftens(s, recover); SoftensKeeps(s, StepRecover(s, recover));
    case Preemption(preempt) => PreemptSoftens(s, preempt); SoftensKeeps(s, StepPreemption(s, preempt));
  }
}
