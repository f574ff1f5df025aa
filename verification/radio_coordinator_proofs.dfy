/** What a user operation of the radio coordinator publishes, restores or leaves unknown, over every run. */
module RadioCoordinatorProofs {
  import Runs
  import opened RadioCoordinatorModel

  // ----- generations -----

  predicate Bumps(e: Entry) {
    e.Admitted? || e.PreemptedAt? || e.Moved?
  }

  /** The log is in generation order, and every bump is a new generation. */
  ghost predicate LogInv(s: State) {
    && (forall i :: 0 <= i < |s.log| ==> s.log[i].generation <= s.radio.generation)
    && (forall i, j :: 0 <= i < j < |s.log| ==>
          s.log[i].generation <= s.log[j].generation && (Bumps(s.log[j]) ==> s.log[i].generation < s.log[j].generation))
  }

  /** At most one entry more, for the current generation or for a new one. */
  ghost predicate Logs(s: State, t: State) {
    && s.radio.generation <= t.radio.generation
    && (t.log == s.log
        || (|t.log| == |s.log| + 1 && t.log[..|s.log|] == s.log && LogsOne(s, t, t.log[|s.log|]))
        || (|t.log| == |s.log| + 2 && t.log[..|s.log|] == s.log && LogsOne(s, t, t.log[|s.log|])
          && LogsOne(s, t, t.log[|s.log| + 1])
            && !Bumps(t.log[|s.log|]) && !Bumps(t.log[|s.log| + 1])))
  }

  predicate LogsOne(s: State, t: State, e: Entry) {
    e.generation == (if Bumps(e) then t.radio.generation else s.radio.generation)
      && (Bumps(e) ==> s.radio.generation < t.radio.generation)
  }

  lemma LogsKeep(s: State, t: State)
    requires LogInv(s) && Logs(s, t)
    ensures LogInv(t)
  {
    forall i | 0 <= i < |s.log| ensures t.log[i] == s.log[i] {
      assert t.log[..|s.log|][i] == t.log[i];
    }
  }

  /** What an execute call does before its first backend call. */
  ghost predicate AdmitTurns(s: State, t: State, tid: nat, q: Command) {
    t == s
    || (tid !in s.threads && !s.pending && q.id !in s.seen
        && (t == s.(seen := s.seen + {q.id}) || t == AdmittedState(s.(seen := s.seen + {q.id}), tid, q)))
  }

  lemma AdmitIsTurn(s: State, tid: nat, command: Command)
    ensures AdmitTurns(s, StepAdmit(s, tid, command), tid, Resolved(s.radio, command))
  {
  }

  lemma TurnLogs(s: State, t: State, tid: nat, q: Command)
    requires AdmitTurns(s, t, tid, q)
    ensures Logs(s, t)
  {
  }

  lemma ThreadLogs(s: State, e: Event)
    requires e.PreflightReply? || e.Check?
    ensures Logs(s, Step(s, e))
  {
  }

  lemma ReserveLogs(s: State, e: Event)
    requires e.ReserveAnswer?
    ensures Logs(s, Step(s, e))
  {
  }

  lemma CallLogs(s: State, e: Event)
    requires e.CallReply? || e.FinishReply?
    ensures Logs(s, Step(s, e))
  {
  }

  lemma OtherLogs(s: State, e: Event)
    requires !(e.Admit? || e.PreflightReply? || e.Check? || e.ReserveAnswer? || e.CallReply? || e.FinishReply?)
    ensures Logs(s, Step(s, e))
  {
  }

  lemma StepLogs(s: State, e: Event)
    ensures Logs(s, Step(s, e))
  {
    if e.Admit? {
      AdmitIsTurn(s, e.tid, e.command);
      TurnLogs(s, StepAdmit(s, e.tid, e.command), e.tid, Resolved(s.radio, e.command));
    } else if e.PreflightReply? || e.Check? {
      ThreadLogs(s, e);
    } else if e.ReserveAnswer? {
      ReserveLogs(s, e);
    } else if e.CallReply? || e.FinishReply? {
      CallLogs(s, e);
    } else {
      OtherLogs(s, e);
    }
  }

  // ----- threads and refreshers -----

  ghost predicate ThreadOk(s: State, th: Thread) {
    && th.generation <= s.radio.generation && (th.generation == s.radio.generation ==> s.pending)
    && Admitted(th.generation, th.command, th.before) in s.log
  }

  ghost predicate RefresherOk(s: State, r: Refresher) {
    && r.generation <= s.radio.generation
    && (r.generation == s.radio.generation ==>
          !s.pending && r.operation == s.operation && (r.unknown <==> s.radio.playback == UnknownPlayback))
  }

  /** An operation that could still publish owns the pending flag; an unknown state has no such operation. */
  ghost predicate OwnersInv(s: State) {
    && (forall tid :: tid in s.threads ==> ThreadOk(s, s.threads[tid]))
    && (forall t, u :: t in s.threads && u in s.threads && t != u ==>
      s.threads[t].generation != s.threads[u].generation)
    && (forall rid :: rid in s.refreshers ==> RefresherOk(s, s.refreshers[rid]))
    && (s.radio.playback == UnknownPlayback ==> !s.pending)
  }

  lemma CompleteOwners(s: State, tid: nat, r: Radio, f: Fence, failed: bool, effected: bool)
    requires OwnersInv(s) && tid in s.threads
    ensures OwnersInv(Complete(s, tid, r, f, failed, effected))
  {
    var t := Complete(s, tid, r, f, failed, effected);
    forall u | u in t.threads ensures ThreadOk(t, t.threads[u]) { assert ThreadOk(s, s.threads[u]); }
    forall rid | rid in t.refreshers ensures RefresherOk(t, t.refreshers[rid]) {
      assert RefresherOk(s, s.refreshers[rid]) && ThreadOk(s, s.threads[tid]);
    }
  }

  lemma AdmitOwners(s: State, tid: nat, q: Command)
    requires OwnersInv(s)
    ensures OwnersInv(StepAdmit(s, tid, q))
  {
    AdmitIsTurn(s, tid, q);
    TurnOwners(s, StepAdmit(s, tid, q), tid, Resolved(s.radio, q));
  }

  lemma TurnOwners(s: State, t: State, tid: nat, q: Command)
    requires OwnersInv(s) && AdmitTurns(s, t, tid, q)
    ensures OwnersInv(t)
  {
    forall u | u in t.threads ensures ThreadOk(t, t.threads[u]) {
      if u in s.threads { assert ThreadOk(s, s.threads[u]); }
    }
    forall rid | rid in t.refreshers ensures RefresherOk(t, t.refreshers[rid]) {
      assert RefresherOk(s, s.refreshers[rid]);
    }
  }

  /** A thread that only changes phase. */
  lemma PhaseOwners(s: State, t: State, tid: nat)
    requires OwnersInv(s) && tid in s.threads && s.log <= t.log
      && t == s.(threads := t.threads, log := t.log, fence := t.fence)
    requires t.threads == s.threads - {tid} || exists phase ::
      t.threads == s.threads[tid := s.threads[tid].(phase := phase)]
    ensures OwnersInv(t)
  {
    forall u | u in t.threads ensures ThreadOk(t, t.threads[u]) { assert ThreadOk(s, s.threads[u]); }
    forall rid | rid in t.refreshers ensures RefresherOk(t, t.refreshers[rid]) {
      assert RefresherOk(s, s.refreshers[rid]);
    }
  }

  lemma PreflightOwners(s: State, tid: nat, ok: bool)
    requires OwnersInv(s)
    ensures OwnersInv(StepPreflight(s, tid, ok))
  {
    if tid in s.threads && s.threads[tid].phase.Preflight? {
      if ok {
        PhaseOwners(s, StepPreflight(s, tid, ok), tid);
      } else {
        CompleteOwners(s, tid, s.threads[tid].before, BareFence(s.threads[tid]), true, false);
      }
    }
  }

  lemma CheckOwners(s: State, tid: nat)
    requires OwnersInv(s)
    ensures OwnersInv(StepCheck(s, tid))
  {
    if tid in s.threads && s.threads[tid].phase.Checking? { PhaseOwners(s, StepCheck(s, tid), tid); }
  }

  lemma FenceOwners(s: State, f: Fence)
    requires OwnersInv(s)
    ensures OwnersInv(s.(fence := f))
  {
    var t := s.(fence := f);
    forall u | u in t.threads ensures ThreadOk(t, t.threads[u]) { assert ThreadOk(s, s.threads[u]); }
    forall rid | rid in t.refreshers ensures RefresherOk(t, t.refreshers[rid]) {
      assert RefresherOk(s, s.refreshers[rid]);
    }
  }

  lemma ReserveOwners(s: State, tid: nat, reply: ReserveReply)
    requires OwnersInv(s)
    ensures OwnersInv(StepReserve(s, tid, reply))
  {
    if tid in s.threads && s.threads[tid].phase.Reserve? {
      var th := s.threads[tid];
      match reply
      case NoEffects(f) => CompleteOwners(s, tid, th.before, f, true, false);
      case ReserveFailed => CompleteOwners(s, tid, th.before, BareFence(th), true, true);
      case Granted(f) =>
        FenceOwners(s, f);
        if f.token == 0 || f.generation != th.generation || f.action != th.command.id {
          CompleteOwners(s.(fence := f), tid, th.before, f, true, true);
        } else {
          PhaseOwners(s, StepReserve(s, tid, reply), tid);
        }
    }
  }

  lemma CalledOwners(s: State, e: Entry)
    requires OwnersInv(s)
    ensures OwnersInv(s.(log := s.log + [e]))
  {
    var t := s.(log := s.log + [e]);
    forall u | u in t.threads ensures ThreadOk(t, t.threads[u]) { assert ThreadOk(s, s.threads[u]); }
    forall rid | rid in t.refreshers ensures RefresherOk(t, t.refreshers[rid]) {
      assert RefresherOk(s, s.refreshers[rid]);
    }
  }

  lemma CallOwners(s: State, tid: nat, ok: bool)
    requires OwnersInv(s)
    ensures OwnersInv(StepCall(s, tid, ok))
  {
    if tid in s.threads && s.threads[tid].phase.Effects? && |s.threads[tid].phase.todo| >= 2 {
      var th := s.threads[tid];
      var called := Called(s.radio.generation, th.phase.todo[0], th.command.id);
      if ok {
        PhaseOwners(s, StepCall(s, tid, ok), tid);
      } else {
        CalledOwners(s, called);
        CompleteOwners(s.(log := s.log + [called]), tid, th.before, th.phase.fence, true, true);
      }
    }
  }

  lemma FinishOwners(s: State, tid: nat, reply: Option<Observation>)
    requires OwnersInv(s)
    ensures OwnersInv(StepFinish(s, tid, reply))
  {
    if tid in s.threads && s.threads[tid].phase.Effects? && |s.threads[tid].phase.todo| == 1 {
      var th := s.threads[tid];
      var called := Called(s.radio.generation, th.phase.todo[0], th.command.id);
      CalledOwners(s, called);
      var t := s.(log := s.log + [called]);
      if reply.None? || !Fulfils(reply.value, th, th.phase.fence, s.now) {
        CompleteOwners(t, tid, th.before, th.phase.fence, true, true);
      } else {
        CompleteOwners(t, tid, Apply(th.before, reply.value, s.now), th.phase.fence, false, false);
      }
    }
  }

  /** Outside the operations the threads stay, and the generation and the unknown state move together. */
  ghost predicate Around(s: State, t: State) {
    && t.threads == s.threads && s.log <= t.log && s.radio.generation <= t.radio.generation && (t.pending ==> s.pending)
    && (t.radio.generation == s.radio.generation ==>
          t.pending == s.pending && t.operation == s.operation
            && (t.radio.playback == UnknownPlayback <==> s.radio.playback == UnknownPlayback))
    && (t.radio.playback == UnknownPlayback && s.radio.playback != UnknownPlayback ==> !t.pending)
    && (forall rid :: rid in t.refreshers ==>
          (rid in s.refreshers && t.refreshers[rid] == s.refreshers[rid])
          || (!t.pending && t.radio == s.radio && t.refreshers[rid].generation == t.radio.generation
              && t.refreshers[rid].operation == t.operation
              && (t.refreshers[rid].unknown <==> t.radio.playback == UnknownPlayback)))
  }

  lemma AroundOwners(s: State, t: State)
    requires OwnersInv(s) && Around(s, t)
    ensures OwnersInv(t)
  {
    forall u | u in t.threads ensures ThreadOk(t, t.threads[u]) { assert ThreadOk(s, s.threads[u]); }
    forall rid | rid in t.refreshers ensures RefresherOk(t, t.refreshers[rid]) {
      if rid in s.refreshers && t.refreshers[rid] == s.refreshers[rid] { assert RefresherOk(s, s.refreshers[rid]); }
    }
  }

  lemma RefreshAround(s: State, e: Event)
    requires e.Refresh? || e.RefreshTargets? || e.ObserveFailed? || e.Observed? || e.Reconciled?
    ensures Around(s, Step(s, e))
  {
  }

  lemma OwnerAround(s: State, e: Event)
    requires e.Enable? || e.Preempt? || e.Pass?
    ensures Around(s, Step(s, e))
  {
  }

  lemma StepOwners(s: State, e: Event)
    requires OwnersInv(s)
    ensures OwnersInv(Step(s, e))
  {
    match e
    case Admit(tid, command) => AdmitOwners(s, tid, command);
    case PreflightReply(tid, ok) => PreflightOwners(s, tid, ok);
    case Check(tid) => CheckOwners(s, tid);
    case ReserveAnswer(tid, reserve) => ReserveOwners(s, tid, reserve);
    case CallReply(tid, ok) => CallOwners(s, tid, ok);
    case FinishReply(tid, finished) => FinishOwners(s, tid, finished);
    case _ =>
      if e.Enable? || e.Preempt? || e.Pass? { OwnerAround(s, e); } else { RefreshAround(s, e); }
      AroundOwners(s, Step(s, e));
  }

  // ----- action identities -----

  predicate BeforeReserve(th: Thread) {
    th.phase.Preflight? || th.phase.Checking?
  }

  ghost predicate Unreserved(log: seq<Entry>, id: nat) {
    forall e :: e in log && e.Reserved? ==> e.action != id
  }

  /** An action identity that has been spent is known, and it reaches Reserve once. */
  ghost predicate IdsInv(s: State) {
    && (forall e :: e in s.log && e.Reserved? ==> e.action in s.seen)
    && (forall i, j :: 0 <= i < j < |s.log| && s.log[i].Reserved? && s.log[j].Reserved? ==>
      s.log[i].action != s.log[j].action)
    && (forall tid :: tid in s.threads ==>
          s.threads[tid].command.id in s.seen
          && (BeforeReserve(s.threads[tid]) ==> Unreserved(s.log, s.threads[tid].command.id)))
    && (forall t, u :: t in s.threads && u in s.threads && t != u ==>
      s.threads[t].command.id != s.threads[u].command.id)
  }

  /** Nothing new is reserved, and no thread goes back before its reservation. */
  ghost predicate NoReserve(s: State, t: State) {
    && t.seen == s.seen && s.log <= t.log && (forall i :: |s.log| <= i < |t.log| ==> !t.log[i].Reserved?)
    && (forall tid :: tid in t.threads ==>
          tid in s.threads && t.threads[tid].command == s.threads[tid].command
          && (BeforeReserve(t.threads[tid]) ==> BeforeReserve(s.threads[tid])))
  }

  lemma NoReserveIds(s: State, t: State)
    requires IdsInv(s) && NoReserve(s, t)
    ensures IdsInv(t)
  {
    assert forall e :: e in t.log && e.Reserved? ==> e in s.log;
  }

  lemma AdmitIds(s: State, tid: nat, q: Command)
    requires IdsInv(s)
    ensures IdsInv(StepAdmit(s, tid, q))
  {
    AdmitIsTurn(s, tid, q);
    TurnIds(s, StepAdmit(s, tid, q), tid, Resolved(s.radio, q));
  }

  lemma TurnIds(s: State, t: State, tid: nat, q: Command)
    requires IdsInv(s) && AdmitTurns(s, t, tid, q)
    ensures IdsInv(t)
  {
    assert forall e :: e in t.log && e.Reserved? ==> e in s.log;
  }

  lemma CheckIds(s: State, tid: nat)
    requires IdsInv(s)
    ensures IdsInv(StepCheck(s, tid))
  {
    var t := StepCheck(s, tid);
    if t.log != s.log {
      var reserved := t.log[|s.log|];
      assert forall e :: e in t.log && e.Reserved? ==> e in s.log || e == reserved;
      forall i, j | 0 <= i < j < |t.log| && t.log[i].Reserved? && t.log[j].Reserved?
        ensures t.log[i].action != t.log[j].action
      {
        assert t.log[i] in s.log;
      }
    }
  }

  lemma CompleteNoReserve(s: State, tid: nat, r: Radio, f: Fence, failed: bool, effected: bool)
    requires tid in s.threads
    ensures NoReserve(s, Complete(s, tid, r, f, failed, effected))
  {
  }

  lemma ReplyNoReserve(s: State, e: Event)
    requires e.PreflightReply? || e.ReserveAnswer?
    ensures NoReserve(s, Step(s, e))
  {
    if e.PreflightReply? { PreflightNoReserve(s, e.tid, e.ok); } else { AnswerNoReserve(s, e.tid, e.reserve); }
  }

  lemma PreflightNoReserve(s: State, tid: nat, ok: bool)
    ensures NoReserve(s, StepPreflight(s, tid, ok))
  {
    if tid in s.threads { CompleteNoReserve(s, tid, s.threads[tid].before, BareFence(s.threads[tid]), true, false); }
  }

  lemma AnswerNoReserve(s: State, tid: nat, reply: ReserveReply)
    ensures NoReserve(s, StepReserve(s, tid, reply))
  {
    if tid in s.threads && s.threads[tid].phase.Reserve? {
      var th := s.threads[tid];
      match reply
      case NoEffects(f) => CompleteNoReserve(s, tid, th.before, f, true, false);
      case ReserveFailed => CompleteNoReserve(s, tid, th.before, BareFence(th), true, true);
      case Granted(f) => CompleteNoReserve(s.(fence := f), tid, th.before, f, true, true);
    }
  }

  lemma CallNoReserve(s: State, e: Event)
    requires e.CallReply? || e.FinishReply?
    ensures NoReserve(s, Step(s, e))
  {
    if e.tid in s.threads && s.threads[e.tid].phase.Effects? && |s.threads[e.tid].phase.todo| >= 1 {
      var th := s.threads[e.tid];
      var u := s.(log := s.log + [Called(s.radio.generation, th.phase.todo[0], th.command.id)]);
      CompleteNoReserve(u, e.tid, th.before, th.phase.fence, true, true);
      if e.FinishReply? && e.finished.Some? {
        CompleteNoReserve(u, e.tid, Apply(th.before, e.finished.value, s.now), th.phase.fence, false, false);
      }
    }
  }

  lemma OtherNoReserve(s: State, e: Event)
    requires !(e.Admit? || e.Check? || e.PreflightReply? || e.ReserveAnswer? || e.CallReply? || e.FinishReply?)
    ensures NoReserve(s, Step(s, e))
  {
  }

  lemma StepIds(s: State, e: Event)
    requires IdsInv(s)
    ensures IdsInv(Step(s, e))
  {
    if e.Admit? {
      AdmitIds(s, e.tid, e.command);
    } else if e.Check? {
      CheckIds(s, e.tid);
    } else {
      if e.PreflightReply? || e.ReserveAnswer? {
        ReplyNoReserve(s, e);
      } else if e.CallReply? || e.FinishReply? {
        CallNoReserve(s, e);
      } else {
        OtherNoReserve(s, e);
      }
      NoReserveIds(s, Step(s, e));
    }
  }

  // ----- completions -----

  /** A failed completion without effects is the state before the admission, with an error. */
  ghost predicate Restores(log: seq<Entry>, e: Entry)
    requires e.Completed?
  {
    exists q, r :: Admitted(e.generation, q, r) in log
      && (e.failed && !e.effected ==>
        e.after == r.(revision := e.after.revision, generation := e.generation, error := true))
      && (e.failed && e.effected ==>
        e.after.playback == UnknownPlayback && e.after.kind == UnknownKind && e.after.observedAt.None?)
  }

  ghost predicate CompletedInv(s: State) {
    forall e :: e in s.log && e.Completed? ==> Restores(s.log, e)
  }

  lemma RestoresLater(log: seq<Entry>, more: seq<Entry>, e: Entry)
    requires e.Completed? && Restores(log, e) && log <= more
    ensures Restores(more, e)
  {
    var q, r :| Admitted(e.generation, q, r) in log
      && (e.failed && !e.effected ==>
        e.after == r.(revision := e.after.revision, generation := e.generation, error := true))
      && (e.failed && e.effected ==>
        e.after.playback == UnknownPlayback && e.after.kind == UnknownKind && e.after.observedAt.None?);
    assert Admitted(e.generation, q, r) in more;
  }

  /** Every completion a section logs is the one of its thread. */
  ghost predicate CompletesOwn(s: State, t: State) {
    && s.log <= t.log
    && forall i :: |s.log| <= i < |t.log| && t.log[i].Completed? ==>
         t.log[i].after == t.radio && exists tid :: tid in s.threads && CompletionOf(s.threads[tid], t.log[i])
  }

  predicate CompletionOf(th: Thread, e: Entry)
    requires e.Completed?
  {
    && e.generation == th.generation
    && (e.failed && !e.effected ==>
      e.after == th.before.(revision := e.after.revision, generation := e.generation, error := true))
    && (e.failed && e.effected ==>
      e.after.playback == UnknownPlayback && e.after.kind == UnknownKind && e.after.observedAt.None?)
  }

  lemma CompletesKeep(s: State, t: State)
    requires OwnersInv(s) && CompletedInv(s) && CompletesOwn(s, t)
    ensures CompletedInv(t)
  {
    forall e | e in t.log && e.Completed? ensures Restores(t.log, e) {
      if e in s.log {
        RestoresLater(s.log, t.log, e);
      } else {
        var i :| |s.log| <= i < |t.log| && t.log[i] == e;
        var tid :| tid in s.threads && CompletionOf(s.threads[tid], t.log[i]);
        assert ThreadOk(s, s.threads[tid]);
        assert Admitted(e.generation, s.threads[tid].command, s.threads[tid].before) in t.log;
      }
    }
  }

  /** Complete logs what it publishes, and nothing for a generation that has moved on. */
  lemma CompleteLogs(s: State, tid: nat, r: Radio, f: Fence, failed: bool, effected: bool)
    requires tid in s.threads && (failed ==> r == s.threads[tid].before)
    ensures var t := Complete(s, tid, r, f, failed, effected);
      t.log == s.log
      || (|t.log| == |s.log| + 1 && s.log <= t.log && t.log[|s.log|].Completed?
        && CompletionOf(s.threads[tid], t.log[|s.log|])
          && t.log[|s.log|].after == t.radio)
  {
  }

  lemma ReplyCompletes(s: State, e: Event)
    requires e.PreflightReply? || e.ReserveAnswer?
    ensures CompletesOwn(s, Step(s, e))
  {
    var t := Step(s, e);
    if e.tid in s.threads {
      var th := s.threads[e.tid];
      CompleteLogs(s, e.tid, th.before, BareFence(th), true, false);
      CompleteLogs(s, e.tid, th.before, BareFence(th), true, true);
      if e.ReserveAnswer? && e.reserve.NoEffects? { CompleteLogs(s, e.tid, th.before, e.reserve.fence, true, false); }
      if e.ReserveAnswer? && e.reserve.Granted? {
        CompleteLogs(s.(fence := e.reserve.fence), e.tid, th.before, e.reserve.fence, true, true);
      }
    }
  }

  lemma CallCompletes(s: State, e: Event)
    requires e.CallReply? || e.FinishReply?
    ensures CompletesOwn(s, Step(s, e))
  {
    if e.CallReply? { CalledCompletes(s, e.tid, e.ok); } else { FinishCompletes(s, e.tid, e.finished); }
  }

  lemma CalledCompletes(s: State, tid: nat, ok: bool)
    ensures CompletesOwn(s, StepCall(s, tid, ok))
  {
    if tid in s.threads && s.threads[tid].phase.Effects? && |s.threads[tid].phase.todo| >= 2 {
      var th := s.threads[tid];
      var u := s.(log := s.log + [Called(s.radio.generation, th.phase.todo[0], th.command.id)]);
      CompleteLogs(u, tid, th.before, th.phase.fence, true, true);
    }
  }

  lemma FinishCompletes(s: State, tid: nat, finished: Option<Observation>)
    ensures CompletesOwn(s, StepFinish(s, tid, finished))
  {
    if tid in s.threads && s.threads[tid].phase.Effects? && |s.threads[tid].phase.todo| == 1 {
      var th := s.threads[tid];
      var u := s.(log := s.log + [Called(s.radio.generation, th.phase.todo[0], th.command.id)]);
      CompleteLogs(u, tid, th.before, th.phase.fence, true, true);
      if finished.Some? { CompleteLogs(u, tid, Apply(th.before, finished.value, s.now), th.phase.fence, false, false); }
    }
  }

  /** A section that logs no completion. */
  ghost predicate CompletesNothing(s: State, t: State) {
    s.log <= t.log && forall i :: |s.log| <= i < |t.log| ==> !t.log[i].Completed?
  }

  lemma RefreshCompletes(s: State, e: Event)
    requires e.Refresh? || e.RefreshTargets? || e.ObserveFailed? || e.Observed? || e.Reconciled?
    ensures CompletesNothing(s, Step(s, e))
  {
  }

  lemma OtherCompletes(s: State, e: Event)
    requires e.Admit? || e.Check? || e.Enable? || e.Preempt? || e.Pass?
    ensures CompletesNothing(s, Step(s, e))
  {
    if e.Admit? {
      AdmitIsTurn(s, e.tid, e.command);
      TurnCompletes(s, StepAdmit(s, e.tid, e.command), e.tid, Resolved(s.radio, e.command));
    } else {
      MoveCompletes(s, e);
    }
  }

  lemma TurnCompletes(s: State, t: State, tid: nat, q: Command)
    requires AdmitTurns(s, t, tid, q)
    ensures CompletesNothing(s, t)
  {
  }

  lemma MoveCompletes(s: State, e: Event)
    requires e.Check? || e.Enable? || e.Preempt? || e.Pass?
    ensures CompletesNothing(s, Step(s, e))
  {
  }

  ghost predicate Inv(s: State) {
    LogInv(s) && OwnersInv(s) && IdsInv(s) && CompletedInv(s) && UnknownInv(s)
  }

  /** While an effected failure's generation lasts, so does the unknown state it left. */
  ghost predicate UnknownInv(s: State) {
    forall e :: e in s.log && e.Completed? && e.failed && e.effected && e.generation == s.radio.generation ==>
      s.radio.playback == UnknownPlayback
  }

  lemma UnknownHolds(s: State, e: Event)
    requires OwnersInv(s) && s.radio.playback == UnknownPlayback
    ensures Step(s, e).radio.playback == UnknownPlayback
      || (e.Reconciled? && Step(s, e).radio.generation > s.radio.generation)
  {
    if e.Reconciled? || e.Observed? || e.ObserveFailed? || e.Refresh? || e.RefreshTargets? {
      if e.Observed? && e.rid in s.refreshers { assert RefresherOk(s, s.refreshers[e.rid]); }
    } else {
      UnknownStays(s, e);
    }
  }

  lemma UnknownKeeps(s: State, t: State)
    requires LogInv(s) && UnknownInv(s) && CompletesOwn(s, t) && s.radio.generation <= t.radio.generation
    requires s.radio.playback == UnknownPlayback ==>
      t.radio.playback == UnknownPlayback || t.radio.generation > s.radio.generation
    ensures UnknownInv(t)
  {
    forall e | e in t.log && e.Completed? && e.failed && e.effected && e.generation == t.radio.generation
      ensures t.radio.playback == UnknownPlayback
    {
      if e !in s.log {
        var i :| |s.log| <= i < |t.log| && t.log[i] == e;
        var tid :| tid in s.threads && CompletionOf(s.threads[tid], t.log[i]);
      }
    }
  }

  lemma StepCompletes(s: State, e: Event)
    ensures CompletesOwn(s, Step(s, e))
  {
    if e.PreflightReply? || e.ReserveAnswer? {
      ReplyCompletes(s, e);
    } else if e.CallReply? || e.FinishReply? {
      CallCompletes(s, e);
    } else if e.Refresh? || e.RefreshTargets? || e.ObserveFailed? || e.Observed? || e.Reconciled? {
      RefreshCompletes(s, e);
    } else {
      OtherCompletes(s, e);
    }
  }

  lemma StepInv(s: State, e: Event)
    requires Inv(s)
    ensures Inv(Step(s, e))
  {
    StepLogs(s, e);
    LogsKeep(s, Step(s, e));
    StepOwners(s, e);
    StepIds(s, e);
    StepCompletes(s, e);
    CompletesKeep(s, Step(s, e));
    if s.radio.playback == UnknownPlayback { UnknownHolds(s, e); }
    UnknownKeeps(s, Step(s, e));
  }

  lemma RunInv(es: seq<Event>)
    ensures Inv(Run(es))
  {
    forall s: State, e: Event | Inv(s) ensures Inv(Step(s, e)) { StepInv(s, e); }
    Runs.Invariant(Step, Init(), (s: State) => Inv(s), es);
  }

  // ----- what a run shows -----

  /**
    An operation publishes only if nothing moved the generation since its admission: no preemption, no other
    operation, no refresh.
   */
  lemma PublishedUnpreempted(es: seq<Event>, i: nat, j: nat)
    requires i < |Run(es).log| && j < |Run(es).log| && Run(es).log[i].Admitted? && Run(es).log[j].Completed?
    requires Run(es).log[i].generation == Run(es).log[j].generation
    ensures i < j && forall k :: i < k <= j ==> !Bumps(Run(es).log[k])
  {
    RunInv(es);
  }

  /** A failure without effects restores the state of the admission apart from revision, generation and error. */
  lemma NoEffectRestores(es: seq<Event>, i: nat, j: nat)
    requires i < |Run(es).log| && j < |Run(es).log| && Run(es).log[i].Admitted? && Run(es).log[j].Completed?
    requires Run(es).log[i].generation == Run(es).log[j].generation && Run(es).log[j].failed && !Run(es).log[j].effected
    ensures var r := Run(es).log[j].after;
      r == Run(es).log[i].before.(revision := r.revision, generation := r.generation, error := true)
  {
    RunInv(es);
    var log := Run(es).log;
    var e := log[j];
    assert Restores(log, e);
    var q, r :| Admitted(e.generation, q, r) in log
      && (e.failed && !e.effected ==>
        e.after == r.(revision := e.after.revision, generation := e.generation, error := true));
    var k :| 0 <= k < |log| && log[k] == Admitted(e.generation, q, r);
    assert k == i;
  }

  /** An effected failure leaves unknown with no offered action, for as long as the generation does not move. */
  lemma EffectedFailureLeavesUnknown(es: seq<Event>, j: nat)
    requires j < |Run(es).log| && Run(es).log[j].Completed? && Run(es).log[j].failed && Run(es).log[j].effected
    ensures var r := Run(es).log[j].after; r.playback == UnknownPlayback && r.kind == UnknownKind && r.observedAt.None?
    ensures Run(es).log[j].generation == Run(es).radio.generation ==>
              Run(es).radio.playback == UnknownPlayback && Offers(Run(es)) == {}
  {
    RunInv(es);
    var e := Run(es).log[j];
    assert Restores(Run(es).log, e);
  }

  /** An action identity reaches Reserve at most once. */
  lemma ReservedOnce(es: seq<Event>, i: nat, j: nat)
    requires i < j < |Run(es).log| && Run(es).log[i].Reserved? && Run(es).log[j].Reserved?
    ensures Run(es).log[i].action != Run(es).log[j].action
  {
    RunInv(es);
  }

  /**
    While the state is unknown, nothing is offered or admitted, and only an exact reconciliation of the captured
    fence ends it. That receipt is the current operation's if and only if the captured fence carries its action.
   */
  lemma UnknownEndsByReconciliation(es: seq<Event>, e: Event)
    requires Run(es).radio.playback == UnknownPlayback
    ensures var s := Run(es); var t := Step(s, e);
      && Offers(s) == {} && (e.Admit? ==> t == s)
      && (t.radio.playback != UnknownPlayback ==>
            e.Reconciled? && e.rid in s.refreshers
            && var c := s.refreshers[e.rid];
               c.unknown && c.generation == s.radio.generation
                 && ValidReconciliation(e.reconciliation, c.fence, s.operation, s.now)
               && (s.operation.Some? ==>
                     (e.reconciliation.action == s.operation.value.id <==> c.fence.action == s.operation.value.id)))
  {
    RunInv(es);
    var s := Run(es);
    UnknownHolds(s, e);
    if e.Reconciled? && e.rid in s.refreshers { assert RefresherOk(s, s.refreshers[e.rid]); }
  }

  lemma UnknownStays(s: State, e: Event)
    requires OwnersInv(s) && s.radio.playback == UnknownPlayback
    requires !(e.Reconciled? || e.Observed? || e.ObserveFailed? || e.Refresh? || e.RefreshTargets?)
    ensures Step(s, e).radio.playback == UnknownPlayback
  {
    if (e.PreflightReply? || e.ReserveAnswer? || e.CallReply? || e.FinishReply?) && e.tid in s.threads {
      assert ThreadOk(s, s.threads[e.tid]);
    }
  }

  // ----- whose receipt ends an unknown state -----

  const FIRST := Fence(5, 9, 7, 1)
  const DRAINED := Observation(StoppedPlayback, 0, 0, NoneKind, 5, 6, 99, None)
  const PLAYED := Observation(Playing, 1, 1, RadioKind, 5, 5, 99, None)

  /** A radio that a first operation, with action 7, has started. */
  predicate Started(s: State) {
    && s.radio.enabled && s.radio.process == 1 && s.radio.targets == [Target(1, true, true)]
      && s.radio.playback == Playing
    && s.radio.kind == RadioKind && s.radio.owner == 5 && s.radio.station == 1 && s.radio.target == 1
    && s.radio.observedAt == Some(5) && s.radio.validUntil == Some(99) && s.radio.generation == 1
    && s.now == 10 && !s.pending && s.fence == FIRST && s.seen == {7} && s.threads == map[] && s.refreshers == map[]
  }

  /** Enabled at time 10, before any operation. */
  predicate Ready(s: State) {
    && s.radio == Init().radio.(enabled := true, targets := [Target(1, true, true)]) && s.now == 10 && !s.pending
    && s.seen == {} && s.threads == map[] && s.refreshers == map[]
  }

  const FIRST_COMMAND := Command(7, Start, 1, 1, None, 1, 1, 0, 0)

  predicate Underway(s: State, phase: Phase) {
    && s.threads == map[1 := Thread(FIRST_COMMAND, Init().radio.(enabled := true, targets := [Target(1, true, true)]),
      1, phase)]
    && s.radio.generation == 1 && s.pending && s.seen == {7} && s.refreshers == map[] && s.now == 10
  }

  lemma EnableInit(t: seq<Target>)
    requires t == [Target(1, true, true)]
    ensures Ready(StepEnable(Init(), t, 0).(now := 10))
  {
    assert forall x :: x in t ==> x.id != 0;
  }

  lemma ReadyRun()
    ensures exists es :: Ready(Run(es))
  {
    var t := [Target(1, true, true)];
    var e1 := [] + [Enable(t, 0)];
    Runs.Append(Step, Init(), [], Enable(t, 0));
    Runs.Append(Step, Init(), e1, Pass(10));
    EnableInit(t);
    assert Run(e1 + [Pass(10)]) == StepEnable(Init(), t, 0).(now := 10);
  }

  lemma AdmitReady(s: State)
    requires Ready(s)
    ensures Underway(Step(s, Admit(1, FIRST_COMMAND)), Preflight)
  {
    var t := s.radio.targets[0];
    assert t in s.radio.targets && Selectable(t);
    assert Admissible(s, FIRST_COMMAND);
  }

  lemma CheckUnderway(s: State)
    requires Underway(s, Preflight)
    ensures Underway(Step(Step(s, PreflightReply(1, true)), Check(1)), Reserve)
  {
    var t := Step(s, PreflightReply(1, true));
    assert Underway(t, Checking);
  }

  lemma ReserveUnderway(s: State)
    requires Underway(s, Reserve)
    ensures var t := Step(s, ReserveAnswer(1, Granted(FIRST)));
      Underway(t, Effects(FIRST, [CallPause, CallStart, CallFinish])) && t.fence == FIRST
  {
    assert Plan(s.threads[1]) == [CallPause, CallStart, CallFinish];
  }

  lemma UnderwayRun()
    ensures exists es :: Underway(Run(es), Effects(FIRST, [CallPause, CallStart, CallFinish])) && Run(es).fence == FIRST
  {
    ReadyRun();
    var es :| Ready(Run(es));
    var e1 := es + [Admit(1, FIRST_COMMAND)];
    var e2 := e1 + [PreflightReply(1, true)];
    var e3 := e2 + [Check(1)];
    var e4 := e3 + [ReserveAnswer(1, Granted(FIRST))];
    Runs.Append(Step, Init(), es, Admit(1, FIRST_COMMAND));
    AdmitReady(Run(es));
    Runs.Append(Step, Init(), e1, PreflightReply(1, true));
    Runs.Append(Step, Init(), e2, Check(1));
    CheckUnderway(Run(e1));
    Runs.Append(Step, Init(), e3, ReserveAnswer(1, Granted(FIRST)));
    ReserveUnderway(Run(e3));
    assert Underway(Run(e4), Effects(FIRST, [CallPause, CallStart, CallFinish])) && Run(e4).fence == FIRST;
  }

  lemma FinishUnderway(s: State)
    requires Underway(s, Effects(FIRST, [CallFinish])) && s.fence == FIRST
    ensures Started(StepFinish(s, 1, Some(PLAYED)))
  {
    assert StepFinish(s, 1, Some(PLAYED)).threads == map[];
  }

  lemma FinishingRun()
    ensures exists es :: Underway(Run(es), Effects(FIRST, [CallFinish])) && Run(es).fence == FIRST
  {
    UnderwayRun();
    var es :| Underway(Run(es), Effects(FIRST, [CallPause, CallStart, CallFinish])) && Run(es).fence == FIRST;
    AppendTwo(es, CallReply(1, true), CallReply(1, true));
    var e2 := es + [CallReply(1, true)] + [CallReply(1, true)];
    assert [CallPause, CallStart, CallFinish][1..] == [CallStart, CallFinish]
      && [CallStart, CallFinish][1..] == [CallFinish];
    assert Underway(Run(e2), Effects(FIRST, [CallFinish])) && Run(e2).fence == FIRST;
  }

  lemma StartedRun()
    ensures exists es :: Started(Run(es))
  {
    FinishingRun();
    var es :| Underway(Run(es), Effects(FIRST, [CallFinish])) && Run(es).fence == FIRST;
    Runs.Append(Step, Init(), es, FinishReply(1, Some(PLAYED)));
    FinishUnderway(Run(es));
    assert Started(Run(es + [FinishReply(1, Some(PLAYED))]));
  }

  predicate Stopping(s: State, q: Command) {
    && s.radio.generation == 2 && s.radio.target == 1 && s.fence == FIRST && s.operation == Some(q)
      && s.refreshers == map[]
    && s.radio.enabled && s.now == 10
  }

  lemma AdmitStop(s: State, q: Command)
    requires Started(s) && q == Command(8, Stop, 0, 0, None, s.radio.revision, 1, 1, 5)
    ensures Stopping(StepAdmit(s, 2, q), q)
  {
    assert s.radio.targets[0] in s.radio.targets && OnRoute(s.radio);
    assert Stop in Offers(s);
    assert Admissible(s, q);
  }

  predicate Preempted2(s: State, q: Command) {
    && s.radio.playback == UnknownPlayback && s.radio.generation == 3 && !s.pending && s.now == 10
    && s.refreshers == map[3 := Refresher(3, true, FIRST, Some(q))]
  }

  /** The stop is preempted before its Reserve, and a refresh begins. */
  lemma PreemptStop(s: State, q: Command)
    requires Stopping(s, q)
    ensures Preempted2(StepRefresh(StepPreempt(s, 1, 2), 3), q)
  {
  }

  lemma StoppingRun()
    ensures exists es, q :: Stopping(Run(es), q) && q.id == 8
  {
    StartedRun();
    var es :| Started(Run(es));
    var q := Command(8, Stop, 0, 0, None, Run(es).radio.revision, 1, 1, 5);
    AdmitStop(Run(es), q);
    Runs.Append(Step, Init(), es, Admit(2, q));
    assert Stopping(Run(es + [Admit(2, q)]), q);
  }

  lemma PreemptedRun()
    ensures exists es, q :: Preempted2(Run(es), q) && q.id == 8
  {
    StoppingRun();
    var es, q :| Stopping(Run(es), q) && q.id == 8;
    PreemptStop(Run(es), q);
    AppendTwo(es, Preempt(1, 2), Refresh(3));
    assert Preempted2(Run(es + [Preempt(1, 2)] + [Refresh(3)]), q);
  }

  lemma AppendTwo(es: seq<Event>, d: Event, e: Event)
    ensures Run(es + [d] + [e]) == Step(Step(Run(es), d), e)
  {
    Runs.Append(Step, Init(), es, d);
    Runs.Append(Step, Init(), es + [d], e);
  }

  lemma ForeignReceipt(s: State, q: Command)
    requires Preempted2(s, q)
    ensures StepReconciled(s, 3, Reconciliation(7, 1, 9, true, Preempted, DRAINED)).radio.playback == StoppedPlayback
  {
  }

  /** This receipt ends the unknown state of this run, and it is not that of the run's operation. */
  ghost predicate EndsByForeign(es: seq<Event>, rid: nat, r: Reconciliation) {
    && Run(es).radio.playback == UnknownPlayback && rid in Run(es).refreshers && Run(es).refreshers[rid].operation.Some?
    && StepReconciled(Run(es), rid, r).radio.playback != UnknownPlayback
      && r.action != Run(es).refreshers[rid].operation.value.id
  }

  /**
    A second operation that is preempted before its Reserve leaves the fence of the first, so the
    unknown state is ended by the receipt of the first: action 7, while the operation is action 8.
   */
  lemma ForeignReceiptEndsUnknown()
    ensures exists es, rid, r :: EndsByForeign(es, rid, r)
  {
    PreemptedRun();
    var es, q :| Preempted2(Run(es), q) && q.id == 8;
    ForeignReceipt(Run(es), q);
    assert EndsByForeign(es, 3, Reconciliation(7, 1, 9, true, Preempted, DRAINED));
  }
}
