/** What the log of any run of the ledger says: the theorems over whole runs. */
module LedgerHistory {
  import Runs
  import opened LedgerModel
  import opened LedgerProofs

  // ----- the history invariant -----

  ghost predicate AdmittedOnce(s: State) {
    && (forall i :: 0 <= i < |s.log| && s.log[i].Admitted? ==> s.log[i].sequence <= s.sequence)
    && (forall i, j :: 0 <= i < j < |s.log| && s.log[i].Admitted? && s.log[j].Admitted? ==>
      s.log[i].sequence < s.log[j].sequence)
  }

  /** The terminal outcome of a record is the one and only `Closed` entry about it. */
  ghost predicate ClosedOnce(s: State) {
    && (forall i :: 0 <= i < |s.log| && s.log[i].Closed? ==>
          s.log[i].key in s.records && s.records[s.log[i].key].terminal == Some(s.log[i].outcome))
    && (forall i, j :: 0 <= i < j < |s.log| && s.log[i].Closed? && s.log[j].Closed? ==> s.log[i].key != s.log[j].key)
    && (forall k :: k in s.records && s.records[k].terminal.Some? ==> Closed(k, s.records[k].terminal.value) in s.log)
  }

  predicate SendsRecord(e: Entry, k: Key) {
    e.Sent? && e.record == Some(k)
  }

  ghost predicate SentOk(s: State, e: Entry) {
    e.Sent? ==>
      && e.sequence <= s.sequence
      && (e.record.Some? ==> e.record.value.sequence == e.sequence && e.record.value in s.records
                             && s.records[e.record.value].possibleSend)
      && (e.record.None? ==> forall k :: k in s.records ==> k.sequence != e.sequence)
  }

  ghost predicate SentOnce(s: State) {
    && (forall i :: 0 <= i < |s.log| ==> SentOk(s, s.log[i]))
    && (forall i, j :: 0 <= i < j < |s.log| && s.log[i].Sent? && s.log[j].Sent? ==>
      s.log[i].sequence < s.log[j].sequence)
    && (forall t, i :: t in s.tasks && s.tasks[t].Exec? && !s.tasks[t].sent && 0 <= i < |s.log| && s.log[i].Sent?
          ==> s.log[i].sequence < s.tasks[t].sequence)
    && (forall k :: k in s.records && s.records[k].possibleSend ==> exists i ::
      0 <= i < |s.log| && SendsRecord(s.log[i], k))
  }

  /** Between positions i and j the sender of `q` finished, at a poll older than `b`. */
  ghost predicate FinishedBetween(log: seq<Entry>, i: int, j: int, q: nat, b: nat) {
    exists m :: i < m < j && 0 <= m < |log| && log[m].Finished? && log[m].sequence == q && log[m].pollAt < b
  }

  predicate Outstanding(t: Task, q: nat) {
    (t.Exec? && t.sent && t.sequence == q) || (t.Starting? && t.sent && t.key.sequence == q)
  }

  ghost predicate SenderLive(s: State, q: nat) {
    exists t :: t in s.tasks && Outstanding(s.tasks[t], q)
  }

  ghost predicate Floor(s: State) {
    && s.pollFloor <= s.poll
    && (forall i :: 0 <= i < |s.log| && s.log[i].Sent? && !SenderLive(s, s.log[i].sequence) ==>
          FinishedBetween(s.log, i, |s.log|, s.log[i].sequence, s.pollFloor + 1))
    && (forall i, j :: 0 <= i < j < |s.log| && s.log[i].Sent? && s.log[j].Sent? ==>
          FinishedBetween(s.log, i, j, s.log[i].sequence, s.log[j].basis))
  }

  /** Before position j a validated completion of `k` arrived, and before that its commit left. */
  ghost predicate ValidatedBefore(log: seq<Entry>, j: int, k: Key) {
    exists h, i :: 0 <= h < i < j <= |log| && SendsRecord(log[h], k) && log[i] == Validated(k)
  }

  ghost predicate AcceptedIsValidated(s: State) {
    forall j :: 0 <= j < |s.log| && s.log[j].Closed? && s.log[j].outcome == Accepted ==>
      ValidatedBefore(s.log, j, s.log[j].key)
  }

  ghost predicate History(s: State) {
    AdmittedOnce(s) && ClosedOnce(s) && SentOnce(s) && Floor(s) && AcceptedIsValidated(s)
  }

  // ----- growing the log by at most one entry -----

  ghost predicate Grows(s: State, t: State, e: Entry) {
    t.log == s.log + [e]
  }

  lemma AdmittedGrows(s: State, t: State, e: Entry)
    requires AdmittedOnce(s) && Grows(s, t, e) && s.sequence <= t.sequence
    requires e.Admitted? ==> s.sequence < e.sequence <= t.sequence
    ensures AdmittedOnce(t)
  {
  }

  /** Terminal outcomes persist; only `e` may add one. */
  lemma ClosedGrows(s: State, t: State, e: Entry)
    requires ClosedOnce(s) && Grows(s, t, e) && s.records.Keys <= t.records.Keys
    requires forall k :: k in t.records ==>
      if e.Closed? && k == e.key then t.records[k].terminal == Some(e.outcome) && k in s.records
        && s.records[k].terminal.None?
      else t.records[k].terminal == if k in s.records then s.records[k].terminal else None
    requires e.Closed? ==> e.key in t.records
    ensures ClosedOnce(t)
  {
    forall k | k in t.records && t.records[k].terminal.Some? ensures Closed(k, t.records[k].terminal.value) in t.log {
      if e.Closed? && k == e.key {
        assert t.log[|s.log|] == e;
      } else {
        assert Closed(k, s.records[k].terminal.value) in s.log;
      }
    }
  }

  /** Old records keep having been sent or not; new ones carry a fresh sequence. */
  ghost predicate SendsKept(s: State, t: State) {
    && s.sequence <= t.sequence && s.records.Keys <= t.records.Keys
    && (forall k :: k in s.records && s.records[k].possibleSend ==> t.records[k].possibleSend)
    && (forall k :: k in t.records && k !in s.records ==> k.sequence > s.sequence && !t.records[k].possibleSend)
    && (forall id :: id in t.tasks && t.tasks[id].Exec? && !t.tasks[id].sent ==>
          t.tasks[id].sequence > s.sequence || (id in s.tasks && s.tasks[id] == t.tasks[id]))
  }

  ghost predicate FreshSend(s: State, t: State, e: Entry)
    requires e.Sent?
  {
    && SentOk(t, e)
    && (forall i :: 0 <= i < |s.log| && s.log[i].Sent? ==> s.log[i].sequence < e.sequence)
    && (forall id :: id in t.tasks && t.tasks[id].Exec? && !t.tasks[id].sent ==> e.sequence < t.tasks[id].sequence)
  }

  lemma SentGrows(s: State, t: State, e: Entry)
    requires SentOnce(s) && Grows(s, t, e) && SendsKept(s, t)
    requires e.Sent? ==> FreshSend(s, t, e)
    requires forall k :: k in t.records && t.records[k].possibleSend ==>
      SendsRecord(e, k) || (k in s.records && s.records[k].possibleSend)
    ensures SentOnce(t)
  {
    forall i | 0 <= i < |t.log| ensures SentOk(t, t.log[i]) {
      if i < |s.log| { assert SentOk(s, s.log[i]); }
    }
    forall id, i | id in t.tasks && t.tasks[id].Exec? && !t.tasks[id].sent && 0 <= i < |t.log| && t.log[i].Sent?
      ensures t.log[i].sequence < t.tasks[id].sequence
    {
      if i < |s.log| { assert SentOk(s, s.log[i]); }
    }
    forall k | k in t.records && t.records[k].possibleSend
      ensures exists i :: 0 <= i < |t.log| && SendsRecord(t.log[i], k)
    {
      if SendsRecord(e, k) {
        assert SendsRecord(t.log[|s.log|], k);
      } else {
        var i :| 0 <= i < |s.log| && SendsRecord(s.log[i], k);
        assert SendsRecord(t.log[i], k);
      }
    }
  }

  lemma BetweenGrows(log: seq<Entry>, e: Entry, i: int, j: int, j': int, q: nat, b: nat, b': nat)
    requires FinishedBetween(log, i, j, q, b) && j <= j' && b <= b'
    ensures FinishedBetween(log + [e], i, j', q, b')
  {
    var m :| i < m < j && 0 <= m < |log| && log[m].Finished? && log[m].sequence == q && log[m].pollAt < b;
    assert (log + [e])[m] == log[m];
  }

  lemma FloorGrows(s: State, t: State, e: Entry)
    requires Floor(s) && Grows(s, t, e) && s.pollFloor <= t.pollFloor <= t.poll
    requires e.Finished? ==> e.pollAt <= t.pollFloor
    requires forall q :: SenderLive(s, q) ==> SenderLive(t, q) || (e.Finished? && e.sequence == q)
    requires e.Sent? ==> SenderLive(t, e.sequence) && s.pollFloor < e.basis && forall q :: !SenderLive(s, q)
    ensures Floor(t)
  {
    forall i | 0 <= i < |t.log| && t.log[i].Sent? && !SenderLive(t, t.log[i].sequence)
      ensures FinishedBetween(t.log, i, |t.log|, t.log[i].sequence, t.pollFloor + 1)
    {
      var q := t.log[i].sequence;
      if SenderLive(s, q) {
        assert t.log[|s.log|] == e;
      } else {
        BetweenGrows(s.log, e, i, |s.log|, |t.log|, q, s.pollFloor + 1, t.pollFloor + 1);
      }
    }
    forall i, j | 0 <= i < j < |t.log| && t.log[i].Sent? && t.log[j].Sent?
      ensures FinishedBetween(t.log, i, j, t.log[i].sequence, t.log[j].basis)
    {
      if j < |s.log| {
        BetweenGrows(s.log, e, i, j, j, s.log[i].sequence, s.log[j].basis, s.log[j].basis);
      } else {
        BetweenGrows(s.log, e, i, j, j, s.log[i].sequence, s.pollFloor + 1, e.basis);
      }
    }
  }

  lemma ValidatedGrows(s: State, t: State, e: Entry)
    requires AcceptedIsValidated(s) && Grows(s, t, e)
    requires e.Closed? && e.outcome == Accepted ==> ValidatedBefore(s.log, |s.log|, e.key)
    ensures AcceptedIsValidated(t)
  {
    forall j | 0 <= j < |t.log| && t.log[j].Closed? && t.log[j].outcome == Accepted
      ensures ValidatedBefore(t.log, j, t.log[j].key)
    {
      var k := t.log[j].key;
      assert ValidatedBefore(s.log, j, k);
      var h, i :| 0 <= h < i < j <= |s.log| && SendsRecord(s.log[h], k) && s.log[i] == Validated(k);
      assert SendsRecord(t.log[h], k) && t.log[i] == Validated(k);
    }
  }

  /** A step that writes nothing to the log. */
  lemma Quiet(s: State, t: State)
    requires History(s) && t.log == s.log && SendsKept(s, t) && s.pollFloor <= t.pollFloor <= t.poll
    requires forall k :: k in t.records ==>
      t.records[k].terminal == if k in s.records then s.records[k].terminal else None
    requires forall k :: k in t.records && t.records[k].possibleSend ==> k in s.records && s.records[k].possibleSend
    requires forall q :: SenderLive(s, q) ==> SenderLive(t, q)
    ensures History(t)
  {
    forall i | 0 <= i < |t.log| ensures SentOk(t, t.log[i]) { assert SentOk(s, s.log[i]); }
    forall id, i | id in t.tasks && t.tasks[id].Exec? && !t.tasks[id].sent && 0 <= i < |t.log| && t.log[i].Sent?
      ensures t.log[i].sequence < t.tasks[id].sequence
    {
      assert SentOk(s, s.log[i]);
    }
    assert Floor(t) by { FloorQuiet(s, t); }
  }

  lemma FloorQuiet(s: State, t: State)
    requires Floor(s) && t.log == s.log && s.pollFloor <= t.pollFloor <= t.poll
    requires forall q :: SenderLive(s, q) ==> SenderLive(t, q)
    ensures Floor(t)
  {
    forall i | 0 <= i < |t.log| && t.log[i].Sent? && !SenderLive(t, t.log[i].sequence)
      ensures FinishedBetween(t.log, i, |t.log|, t.log[i].sequence, t.pollFloor + 1)
    {
      var q := t.log[i].sequence;
      var m :| i < m < |s.log| && 0 <= m < |s.log| && s.log[m].Finished? && s.log[m].sequence == q
        && s.log[m].pollAt < s.pollFloor + 1;
    }
  }

  // ----- every event keeps the history -----

  /** Writing an outcome keeps the history only on a record that has none. */
  lemma WriteKeeps(s: State, key: Key, outcome: Outcome)
    requires History(s) && key in s.records && s.records[key].terminal.None?
    requires outcome == Accepted ==> ValidatedBefore(s.log, |s.log|, key)
    ensures History(WriteTerminal(s, key, outcome))
  {
    var t := WriteTerminal(s, key, outcome);
    var e := Closed(key, outcome);
    AdmittedGrows(s, t, e);
    ClosedGrows(s, t, e);
    SentGrows(s, t, e);
    assert forall q :: SenderLive(s, q) ==> SenderLive(t, q);
    FloorGrows(s, t, e);
    ValidatedGrows(s, t, e);
  }

  lemma CloseKeeps(s: State, key: Key, outcome: Outcome)
    requires History(s) && key in s.records
    requires outcome == Accepted ==> ValidatedBefore(s.log, |s.log|, key)
    ensures History(Close(s, key, outcome))
  {
    if s.records[key].terminal.None? { WriteKeeps(s, key, outcome); }
  }

  lemma StageAndPublishKeep(s: State, key: Key, stage: Stage)
    requires History(s) && key in s.records
    ensures History(SetStage(s, key, stage))
    ensures s.records[key].terminal.Some? ==> History(Publish(s, key))
  {
    var t := SetStage(s, key, stage);
    assert forall q :: SenderLive(s, q) ==> SenderLive(t, q);
    Quiet(s, t);
    if s.records[key].terminal.Some? {
      assert forall q :: SenderLive(s, q) ==> SenderLive(Publish(s, key), q);
      Quiet(s, Publish(s, key));
    }
  }

  /** A record moves to a stage and is closed and published there. */
  lemma SettleInHistory(s: State, key: Key, stage: Stage, outcome: Outcome)
    requires History(s) && key in s.records && outcome != Accepted
    ensures History(Publish(Close(SetStage(s, key, stage), key, outcome), key))
    ensures History(Close(SetStage(s, key, stage), key, outcome))
  {
    var m := SetStage(s, key, stage);
    StageAndPublishKeep(s, key, stage);
    CloseKeeps(m, key, outcome);
    StageAndPublishKeep(Close(m, key, outcome), key, stage);
  }

  /** Close, publish, then move to the final stage. */
  lemma SettleHistory(s: State, key: Key, outcome: Outcome, stage: Stage)
    requires History(s) && key in s.records
    requires outcome == Accepted ==> ValidatedBefore(s.log, |s.log|, key)
    ensures History(SetStage(Publish(Close(s, key, outcome), key), key, stage))
  {
    var c := Close(s, key, outcome);
    CloseKeeps(s, key, outcome);
    StageAndPublishKeep(c, key, stage);
    StageAndPublishKeep(Publish(c, key), key, stage);
  }

  /** What is staging or staged has no outcome yet, so expiring it writes the first one. */
  lemma ExpireHistory(s: State, key: Key)
    requires Records(s) && History(s) && key in s.records && Retirable(s.records[key])
    ensures History(Expire(s, key))
  {
    assert RecordOk(s, key);
    var m := SetStage(s, key, Expired);
    StageAndPublishKeep(s, key, Expired);
    WriteKeeps(m, key, Rejected);
    StageAndPublishKeep(WriteTerminal(m, key, Rejected), key, Expired);
  }

  lemma RetireOneKeepsHistory(s: State, key: Key, sequence: nat)
    requires Records(s) && History(s)
    ensures History(RetireOne(s, key, sequence))
  {
    if key in s.records && key.sequence < sequence && Retirable(s.records[key]) { ExpireHistory(s, key); }
  }

  lemma {:induction false} RetireInKeepsHistory(s: State, kind: Kind, sequences: seq<nat>, sequence: nat)
    requires Inv(s) && History(s)
    ensures History(RetireIn(s, kind, sequences, sequence))
    decreases |sequences|
  {
    if sequences != [] {
      RetireOneKeepsHistory(s, Key(kind, sequences[0]), sequence);
      RetireOneKeeps(s, Key(kind, sequences[0]), sequence);
      RetireInKeepsHistory(RetireOne(s, Key(kind, sequences[0]), sequence), kind, sequences[1..], sequence);
    }
  }

  lemma RetireBeforeKeepsHistory(s: State, sequence: nat)
    requires Inv(s) && History(s)
    ensures History(RetireBefore(s, sequence))
  {
    var t := RetireIn(s, Content, s.content, sequence);
    RetireInKeepsHistory(s, Content, s.content, sequence);
    RetireInKeeps(s, Content, s.content, sequence);
    RetireInKeepsHistory(t, Move, t.moves, sequence);
  }

  /** The state after an admission: one new task, perhaps one new record, and the log entry. */
  lemma AdmissionKeeps(r: State, t: State, task: nat, key: Key)
    requires History(r) && task !in r.tasks && t.sequence == r.sequence + 1 && key.sequence == t.sequence
    requires t.log == r.log + [Admitted(t.sequence)] && t.pollFloor == r.pollFloor && t.poll == r.poll
    requires task in t.tasks && t.tasks == r.tasks[task := t.tasks[task]]
    requires t.tasks[task].Exec? ==> t.tasks[task].sequence == t.sequence
    requires t.records == r.records
             || (key !in r.records && key in t.records && t.records == r.records[key := t.records[key]]
                 && t.records[key].terminal.None? && !t.records[key].possibleSend)
    ensures History(t)
  {
    var e := Admitted(t.sequence);
    AdmittedGrows(r, t, e);
    ClosedGrows(r, t, e);
    SentGrows(r, t, e);
    forall q | SenderLive(r, q) ensures SenderLive(t, q) {
      var id :| id in r.tasks && Outstanding(r.tasks[id], q);
      assert id in t.tasks && Outstanding(t.tasks[id], q);
    }
    FloorGrows(r, t, e);
    ValidatedGrows(r, t, e);
  }

  lemma AdmissionHistory(s: State, e: Event)
    requires Inv(s) && History(s) && (e.ExecBegin? || e.PrepareBegin?)
    ensures History(Step(s, e))
  {
    var t := Step(s, e);
    if t != s {
      var sequence := if e.ExecBegin? then e.sequence else e.key.sequence;
      BeforeAdmission(s, sequence);
      RetireBeforeKeepsHistory(s, sequence);
      var r := RetireBefore(s, sequence);
      assert forall k :: k in r.records ==> RecordOk(r, k);
      AdmissionKeeps(r, t, e.task, if e.ExecBegin? then Key(Content, sequence) else e.key);
    }
  }

  /** Only the busy task can have sent without having finished. */
  lemma OnlyBusySends(s: State, task: nat, q: nat)
    requires Tasks(s) && task in s.tasks && HoldsBusy(s.tasks[task]) && !Outstanding(s.tasks[task], q)
    ensures !SenderLive(s, q)
  {
  }

  lemma SendHistory(s: State, t: State, task: nat, e: Entry)
    requires Inv(s) && History(s) && task in s.tasks && HoldsBusy(s.tasks[task]) && e.Sent? && t.log == s.log + [e]
    requires forall q :: !Outstanding(s.tasks[task], q)
    requires SendsKept(s, t) && FreshSend(s, t, e) && t.pollFloor == s.pollFloor && t.poll == s.poll
    requires s.pollFloor < e.basis && SenderLive(t, e.sequence)
    requires forall k :: k in t.records ==>
      t.records[k].terminal == if k in s.records then s.records[k].terminal else None
    requires forall k :: k in t.records && t.records[k].possibleSend ==>
      SendsRecord(e, k) || (k in s.records && s.records[k].possibleSend)
    ensures History(t)
  {
    forall q ensures !SenderLive(s, q) { OnlyBusySends(s, task, q); }
    AdmittedGrows(s, t, e);
    ClosedGrows(s, t, e);
    SentGrows(s, t, e);
    FloorGrows(s, t, e);
    ValidatedGrows(s, t, e);
  }

  lemma ExecSendIsFresh(s: State, t: State, task: nat, e: Entry)
    requires Tasks(s) && SentOnce(s) && task in s.tasks && s.tasks[task].Exec? && !s.tasks[task].sent
    requires e.Sent? && e.sequence == s.tasks[task].sequence && e.record.None?
    requires t.sequence == s.sequence && t.records == s.records
    requires t.tasks == s.tasks[task := Exec(e.sequence, s.tasks[task].fingerprint, s.tasks[task].expectedPoll, true)]
    ensures SendsKept(s, t) && FreshSend(s, t, e)
  {
    assert TaskOk(s, s.tasks[task]);
    assert forall id :: id in t.tasks && t.tasks[id].Exec? ==> HoldsBusy(t.tasks[id]);
    assert forall id :: id in s.tasks && HoldsBusy(s.tasks[id]) ==> id == task;
  }

  lemma ExecSendHistory(s: State, task: nat, guardOk: bool, roomPause: bool, observed: nat)
    requires Inv(s) && History(s)
    ensures History(StepExecSend(s, task, guardOk, roomPause, observed))
  {
    var t := StepExecSend(s, task, guardOk, roomPause, observed);
    if t != s {
      var x := s.tasks[task];
      var e := Sent(x.sequence, x.expectedPoll, None);
      assert Outstanding(t.tasks[task], x.sequence);
      ExecSendIsFresh(s, t, task, e);
      SendHistory(s, t, task, e);
    }
  }

  /** Everything sent so far has an older sequence than a record that has not been sent. */
  lemma UnsentIsLast(s: State, key: Key, i: int)
    requires Records(s) && SentOnce(s) && key in s.records && !s.records[key].possibleSend && key.sequence == s.sequence
    requires 0 <= i < |s.log| && s.log[i].Sent?
    ensures s.log[i].sequence < key.sequence
  {
    assert SentOk(s, s.log[i]);
  }

  lemma StartSendIsFresh(s: State, t: State, task: nat, key: Key, e: Entry)
    requires Records(s) && Tasks(s) && SentOnce(s) && task in s.tasks && s.tasks[task] == Starting(key, false)
    requires key in s.records && e.Sent? && e.sequence == key.sequence && e.record == Some(key)
    requires t.sequence == s.sequence && t.records == s.records[key := s.records[key].(possibleSend := true)]
    requires t.tasks == s.tasks[task := Starting(key, true)]
    ensures SendsKept(s, t) && FreshSend(s, t, e)
  {
    assert TaskOk(s, s.tasks[task]);
    assert forall id :: id in t.tasks && t.tasks[id].Exec? ==> HoldsBusy(t.tasks[id]);
    assert forall id :: id in s.tasks && HoldsBusy(s.tasks[id]) ==> id == task;
    forall i | 0 <= i < |s.log| && s.log[i].Sent? ensures s.log[i].sequence < key.sequence { UnsentIsLast(s, key, i); }
  }

  lemma StartSendHistory(s: State, task: nat, ownerOk: bool, observed: nat)
    requires Inv(s) && History(s)
    ensures History(StepStartSend(s, task, ownerOk, observed))
  {
    var t := StepStartSend(s, task, ownerOk, observed);
    if t != s {
      var key := s.tasks[task].key;
      var e := Sent(key.sequence, observed, Some(key));
      assert TaskOk(s, s.tasks[task]) && RecordOk(s, key);
      assert Outstanding(t.tasks[task], key.sequence);
      StartSendIsFresh(s, t, task, key, e);
      SendHistory(s, t, task, e);
    }
  }

  /** The busy task ends; if it had sent, the end is logged with the poll of that moment. */
  lemma FinishHistory(s: State, t: State, task: nat, q: nat, sent: bool)
    requires History(s) && task in s.tasks && HoldsBusy(s.tasks[task])
    requires t.tasks == s.tasks - {task} && t.records == s.records && t.sequence == s.sequence && t.poll == s.poll
    requires t.log == if sent then s.log + [Finished(q, s.poll)] else s.log
    requires t.pollFloor == if sent then Max(s.pollFloor, s.poll) else s.pollFloor
    requires forall p :: Outstanding(s.tasks[task], p) ==> sent && p == q
    ensures History(t)
  {
    forall p | SenderLive(s, p) ensures SenderLive(t, p) || (sent && p == q) {
      var id :| id in s.tasks && Outstanding(s.tasks[id], p);
      if id != task { assert id in t.tasks && Outstanding(t.tasks[id], p); }
    }
    if sent {
      var e := Finished(q, s.poll);
      AdmittedGrows(s, t, e);
      ClosedGrows(s, t, e);
      SentGrows(s, t, e);
      FloorGrows(s, t, e);
      ValidatedGrows(s, t, e);
    } else {
      Quiet(s, t);
    }
  }

  lemma ExecFinishHistory(s: State, task: nat, outcome: Outcome)
    requires History(s)
    ensures History(StepExecFinish(s, task, outcome))
  {
    var t := StepExecFinish(s, task, outcome);
    if t != s {
      FinishHistory(s, t, task, s.tasks[task].sequence, s.tasks[task].sent);
    }
  }

  lemma ValidationHistory(s: State, key: Key)
    requires History(s) && key in s.records && s.records[key].possibleSend
    ensures var v := s.(log := s.log + [Validated(key)]); History(v) && ValidatedBefore(v.log, |v.log|, key)
  {
    var v := s.(log := s.log + [Validated(key)]);
    var e := Validated(key);
    AdmittedGrows(s, v, e);
    ClosedGrows(s, v, e);
    SentGrows(s, v, e);
    assert forall q :: SenderLive(s, q) ==> SenderLive(v, q);
    FloorGrows(s, v, e);
    ValidatedGrows(s, v, e);
    var i :| 0 <= i < |s.log| && SendsRecord(s.log[i], key);
    assert SendsRecord(v.log[i], key) && v.log[|s.log|] == Validated(key);
  }

  lemma StartResumeHistory(s: State, task: nat, commit: CommitReply)
    requires Inv(s) && History(s)
    ensures History(Step(s, StartResume(task, commit)))
  {
    if task in s.tasks && s.tasks[task].Starting? && s.tasks[task].key in s.records && !commit.ReplyPending? {
      var key := s.tasks[task].key;
      var sent := s.tasks[task].sent;
      assert TaskOk(s, s.tasks[task]);
      var complete := sent && commit.ReplyComplete?;
      if complete { ValidationHistory(s, key); }
      var v := if complete then s.(log := s.log + [Validated(key)]) else s;
      var outcome := if complete then Accepted else if sent then Unknown else Rejected;
      var p := Publish(Close(v, key, outcome), key);
      var stage := if p.records[key].terminal == Some(Accepted) then Complete else if sent then Uncertain else Refused;
      SettleHistory(v, key, outcome, stage);
      FinishHistory(SetStage(p, key, stage), StepStartResume(s, task, commit), task, key.sequence, sent);
    }
  }

  lemma FailPreparationHistory(s: State, task: nat, key: Key, stage: Stage)
    requires History(s) && task in s.tasks && s.tasks[task] == Preparing(key) && key in s.records
    ensures History(FailPreparation(s, task, key, stage))
  {
    SettleInHistory(s, key, stage, Rejected);
    var c := Close(SetStage(s, key, stage), key, Rejected);
    var p := if key.sequence in c.receipts.items then Publish(c, key) else c;
    PreparationLeaves(p, p.(tasks := p.tasks - {task}), task);
  }

  lemma PreparationLeaves(s: State, t: State, task: nat)
    requires History(s) && task in s.tasks && s.tasks[task].Preparing? && t.tasks == s.tasks - {task}
    requires t.log == s.log && t.sequence == s.sequence && t.pollFloor == s.pollFloor && t.poll == s.poll
    requires t.records.Keys == s.records.Keys
    requires forall k :: k in s.records ==>
      t.records[k].terminal == s.records[k].terminal && t.records[k].possibleSend == s.records[k].possibleSend
    ensures History(t)
  {
    forall q | SenderLive(s, q) ensures SenderLive(t, q) {
      var id :| id in s.tasks && Outstanding(s.tasks[id], q);
      assert id in t.tasks && Outstanding(t.tasks[id], q);
    }
    Quiet(s, t);
  }

  lemma PrepareResumeHistory(s: State, task: nat, preparation: PrepareReply)
    requires History(s)
    ensures History(Step(s, PrepareResume(task, preparation)))
  {
    if task in s.tasks && s.tasks[task].Preparing? && s.tasks[task].key in s.records {
      var key := s.tasks[task].key;
      var stage := s.records[key].stage;
      if preparation.PrepareCancelled? {
        FailPreparationHistory(s, task, key, Cancelled);
      } else if stage != Staging || preparation.ReplyFailed? {
        FailPreparationHistory(s, task, key, if stage == Cancelled || stage == Expired then stage else Uncertain);
      } else if preparation.ReplyStaged? {
        PreparationLeaves(s, StepPrepareResume(s, task, preparation), task);
      }
    }
  }

  lemma CancelHistory(s: State, key: Key, matches: bool)
    requires History(s)
    ensures History(Step(s, CancelCall(key, matches)))
  {
    if IsLinked(s, key) && matches && s.records[key].stage != Complete {
      var possible := s.records[key].possibleSend;
      var stage := if possible then Uncertain else Cancelled;
      if s.records[key].terminal.None? {
        SettleInHistory(s, key, stage, if possible then Unknown else Rejected);
      } else {
        StageAndPublishKeep(s, key, stage);
      }
    }
  }

  lemma StartBeginHistory(s: State, task: nat, key: Key, fingerprint: nat, valid: bool, now: int)
    requires Records(s) && History(s)
    ensures History(Step(s, StartBegin(task, key, fingerprint, valid, now)))
  {
    var t := StepStartBegin(s, task, key, fingerprint, valid, now);
    if t != s {
      if now - s.records[key].stagedAt >= STAGED_COMMIT_TTL_S {
        ExpireHistory(s, key);
      } else {
        NewTask(s, t, task);
      }
    }
  }

  /** A task that has not sent anything appears. */
  lemma NewTask(s: State, t: State, task: nat)
    requires History(s) && task !in s.tasks && task in t.tasks && t.tasks == s.tasks[task := t.tasks[task]]
      && !t.tasks[task].Exec?
    requires t.log == s.log && t.sequence == s.sequence && t.pollFloor == s.pollFloor && t.poll == s.poll
    requires t.records.Keys == s.records.Keys
    requires forall k :: k in s.records ==>
      t.records[k].terminal == s.records[k].terminal && t.records[k].possibleSend == s.records[k].possibleSend
    ensures History(t)
  {
    forall q | SenderLive(s, q) ensures SenderLive(t, q) {
      var id :| id in s.tasks && Outstanding(s.tasks[id], q);
      assert id in t.tasks && Outstanding(t.tasks[id], q);
    }
    Quiet(s, t);
  }

  lemma PollKeeps(s: State)
    requires Inv(s)
    ensures Inv(Step(s, PollBegin))
  {
    var t := Step(s, PollBegin);
    assert Records(t) by { forall k | k in t.records ensures RecordOk(t, k) { assert RecordOk(s, k); } }
    assert Tasks(t) by { forall id | id in t.tasks ensures TaskOk(t, t.tasks[id]) { assert TaskOk(s, s.tasks[id]); } }
    CommittersKept(s, t);
  }

  lemma PollHistory(s: State)
    requires History(s)
    ensures History(Step(s, PollBegin))
  {
    var t := Step(s, PollBegin);
    assert forall q :: SenderLive(s, q) ==> SenderLive(t, q);
    Quiet(s, t);
  }

  lemma QueueHistory(s: State, e: Event)
    requires History(s) && (e.QueueBegin? || e.QueueEnd?)
    ensures History(Step(s, e))
  {
    var t := Step(s, e);
    if t != s {
      if e.QueueBegin? { NewTask(s, t, e.task); } else { FinishHistory(s, t, e.task, 0, false); }
    }
  }

  lemma StepKeepsInv(s: State, e: Event)
    requires Inv(s)
    ensures Inv(Step(s, e))
  {
    match e
    case PollBegin => PollKeeps(s);
    case ExecBegin(task, sequence, fingerprint, expectedPoll, valid) =>
      ExecBeginKeeps(s, task, sequence, fingerprint, expectedPoll, valid);
    case ExecSend(task, guardOk, roomPause, observed) => ExecSendKeeps(s, task, guardOk, roomPause, observed);
    case ExecFinish(task, outcome) => ExecFinishKeeps(s, task, outcome);
    case PrepareBegin(task, key, fingerprint, expectedPoll, valid, ownerOk, observed) =>
      PrepareBeginKeeps(s, task, key, fingerprint, expectedPoll, valid, ownerOk, observed);
    case PrepareResume(task, preparation) => PrepareResumeKeeps(s, task, preparation);
    case StartBegin(task, key, fingerprint, valid, now) => StartBeginKeeps(s, task, key, fingerprint, valid, now);
    case StartSend(task, ownerOk, observed) => StartSendKeeps(s, task, ownerOk, observed);
    case StartResume(task, commit) => StartResumeKeeps(s, task, commit);
    case CancelCall(key, matches) => CancelKeeps(s, key, matches);
    case QueueBegin(task, sequence, valid) => QueueBeginKeeps(s, task, sequence, valid);
    case QueueEnd(task) => QueueEndKeeps(s, task);
  }

  lemma StepKeepsHistory(s: State, e: Event)
    requires Inv(s) && History(s)
    ensures History(Step(s, e))
  {
    match e
    case PollBegin => PollHistory(s);
    case ExecBegin(_, _, _, _, _) => AdmissionHistory(s, e);
    case ExecSend(task, guardOk, roomPause, observed) => ExecSendHistory(s, task, guardOk, roomPause, observed);
    case ExecFinish(task, outcome) => ExecFinishHistory(s, task, outcome);
    case PrepareBegin(_, _, _, _, _, _, _) => AdmissionHistory(s, e);
    case QueueBegin(_, _, _) => QueueHistory(s, e);
    case QueueEnd(_) => QueueHistory(s, e);
    case _ => RecordEventHistory(s, e);
  }

  lemma RecordEventHistory(s: State, e: Event)
    requires Inv(s) && History(s)
    requires e.PrepareResume? || e.StartBegin? || e.StartSend? || e.StartResume? || e.CancelCall?
    ensures History(Step(s, e))
  {
    match e
    case PrepareResume(task, preparation) => PrepareResumeHistory(s, task, preparation);
    case StartBegin(task, key, fingerprint, valid, now) => StartBeginHistory(s, task, key, fingerprint, valid, now);
    case StartSend(_, _, _) => CommitSentHistory(s, e);
    case StartResume(task, commit) => StartResumeHistory(s, task, commit);
    case CancelCall(key, matches) => CancelHistory(s, key, matches);
  }

  lemma CommitSentHistory(s: State, e: Event)
    requires Inv(s) && History(s) && e.StartSend?
    ensures History(Step(s, e))
  {
    StartSendHistory(s, e.task, e.ownerOk, e.observed);
  }

  lemma RunKeeps(es: seq<Event>)
    ensures Inv(Run(es)) && History(Run(es))
  {
    var inv := (s: State) => Inv(s) && History(s);
    forall s: State, e: Event | inv(s) ensures inv(Step(s, e)) {
      StepKeepsInv(s, e);
      StepKeepsHistory(s, e);
    }
    Runs.Invariant(Step, Init(), inv, es);
  }

  // ----- theorems over every run -----

  /** A command sequence is admitted at most once, by execute, content prepare or move prepare, evicted or not. */
  lemma SequenceAdmittedOnce(es: seq<Event>, i: nat, j: nat)
    requires i < j < |Run(es).log| && Run(es).log[i].Admitted? && Run(es).log[j].Admitted?
    ensures Run(es).log[i].sequence < Run(es).log[j].sequence
  {
    RunKeeps(es);
  }

  /** One holder of the busy flag, at most 128 receipts, and only the current sequence is unresolved. */
  lemma LedgerBounds(es: seq<Event>)
    ensures var s := Run(es);
      && (forall t, u :: t in s.tasks && u in s.tasks && HoldsBusy(s.tasks[t]) && HoldsBusy(s.tasks[u]) ==> t == u)
      && (s.busy <==> exists t :: t in s.tasks && HoldsBusy(s.tasks[t]))
      && |s.receipts.order| <= MAX_RECEIPTS && (forall q :: q in s.receipts.items <==> q in s.receipts.order)
      && (forall k :: k in s.records && s.records[k].terminal.None? ==> k.sequence == s.sequence)
  {
    RunKeeps(es);
    var s := Run(es);
    forall t | t in s.tasks && HoldsBusy(s.tasks[t]) ensures s.busy { assert TaskOk(s, s.tasks[t]); }
    forall k | k in s.records && s.records[k].terminal.None? ensures k.sequence == s.sequence { assert RecordOk(s, k); }
    forall q | q in s.receipts.items ensures q in s.receipts.order {
      assert s.receipts.order[q - (s.sequence - |s.receipts.order| + 1)] == q;
    }
  }

  /** The second of two sends rests on a poll that began after the first sender finished. */
  lemma SendsRestOnFreshPolls(es: seq<Event>, i: nat, j: nat)
    requires i < j < |Run(es).log| && Run(es).log[i].Sent? && Run(es).log[j].Sent?
    ensures var log := Run(es).log;
      log[i].sequence < log[j].sequence
      && exists m :: i < m < j && log[m].Finished? && log[m].sequence == log[i].sequence && log[m].pollAt < log[j].basis
  {
    RunKeeps(es);
    assert FinishedBetween(Run(es).log, i, j, Run(es).log[i].sequence, Run(es).log[j].basis);
  }

  /** The terminal outcome of a content or move record is written once. */
  lemma OutcomeWrittenOnce(es: seq<Event>, i: nat, j: nat)
    requires i < j < |Run(es).log| && Run(es).log[i].Closed? && Run(es).log[j].Closed?
    ensures Run(es).log[i].key != Run(es).log[j].key
  {
    RunKeeps(es);
  }

  /** "rejected" means that no commit of this record was ever dispatched. */
  lemma RejectedWasNeverSent(es: seq<Event>, k: Key, i: nat)
    requires k in Run(es).records && Run(es).records[k].terminal == Some(Rejected) && i < |Run(es).log|
    ensures !SendsRecord(Run(es).log[i], k)
  {
    RunKeeps(es);
    assert RecordOk(Run(es), k) && SentOk(Run(es), Run(es).log[i]);
  }

  /** One dispatched commit at h, a validated completion at i, the outcome at j, in that order. */
  ghost predicate AcceptedStory(log: seq<Entry>, k: Key, h: int, i: int, j: int) {
    && 0 <= h < i < j < |log| && SendsRecord(log[h], k) && log[i] == Validated(k) && log[j] == Closed(k, Accepted)
    && forall g :: 0 <= g < |log| && SendsRecord(log[g], k) ==> g == h
  }

  lemma OneSendPerRecord(s: State, k: Key, g: int, h: int)
    requires SentOnce(s) && 0 <= g < |s.log| && 0 <= h < |s.log| && SendsRecord(s.log[g], k) && SendsRecord(s.log[h], k)
    ensures g == h
  {
    assert SentOk(s, s.log[g]) && SentOk(s, s.log[h]);
  }

  /** "accepted" means one dispatched commit, then a validated completion, then the outcome. */
  lemma AcceptedWasSentOnce(es: seq<Event>, k: Key)
    requires k in Run(es).records && Run(es).records[k].terminal == Some(Accepted)
    ensures exists h, i, j :: AcceptedStory(Run(es).log, k, h, i, j)
  {
    RunKeeps(es);
    var s := Run(es);
    assert Closed(k, Accepted) in s.log;
    var j :| 0 <= j < |s.log| && s.log[j] == Closed(k, Accepted);
    assert ValidatedBefore(s.log, j, k);
    var h, i :| 0 <= h < i < j <= |s.log| && SendsRecord(s.log[h], k) && s.log[i] == Validated(k);
    forall g | 0 <= g < |s.log| && SendsRecord(s.log[g], k) ensures g == h { OneSendPerRecord(s, k, g, h); }
    assert AcceptedStory(s.log, k, h, i, j);
  }

  lemma {:induction false} RetireInLog(s: State, kind: Kind, sequences: seq<nat>, sequence: nat)
    ensures s.log <= RetireIn(s, kind, sequences, sequence).log
    decreases |sequences|
  {
    if sequences != [] {
      RetireInLog(RetireOne(s, Key(kind, sequences[0]), sequence), kind, sequences[1..], sequence);
    }
  }

  lemma StepLog(s: State, e: Event)
    ensures s.log <= Step(s, e).log
  {
    if e.ExecBegin? || e.PrepareBegin? {
      var sequence := if e.ExecBegin? then e.sequence else e.key.sequence;
      var t := RetireIn(s, Content, s.content, sequence);
      RetireInLog(s, Content, s.content, sequence);
      RetireInLog(t, Move, t.moves, sequence);
    }
  }

  lemma RunLog(es: seq<Event>, more: seq<Event>)
    ensures Run(es).log <= Run(es + more).log
  {
    var rel := (s: State, t: State) => s.log <= t.log;
    forall s: State, t: State, e: Event | rel(s, t) ensures rel(s, Step(t, e)) { StepLog(t, e); }
    Runs.Connected(Step, Init(), (_: State) => true, rel, es, more);
  }

  /** Whatever happens later, a terminal outcome stays, and the record never offers a commit again. */
  lemma OutcomeIsFinal(es: seq<Event>, more: seq<Event>, k: Key)
    requires k in Run(es).records && Run(es).records[k].terminal.Some?
    ensures k in Run(es + more).records && Run(es + more).records[k].terminal == Run(es).records[k].terminal
    ensures Run(es + more).records[k].stage !in {Staging, Staged, Committing}
  {
    RunKeeps(es);
    RunKeeps(es + more);
    RunLog(es, more);
    var c := Closed(k, Run(es).records[k].terminal.value);
    assert c in Run(es).log;
    assert c in Run(es + more).log;
    assert RecordOk(Run(es + more), k);
  }

  /** A cancelled or expired record never becomes staged. */
  lemma CancelledNeverStaged(es: seq<Event>, more: seq<Event>, k: Key)
    requires k in Run(es).records && Run(es).records[k].stage in {Cancelled, Expired}
    ensures k in Run(es + more).records && Run(es + more).records[k].stage != Staged
  {
    RunKeeps(es);
    assert RecordOk(Run(es), k);
    OutcomeIsFinal(es, more, k);
  }
}
