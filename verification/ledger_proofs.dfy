/** What every run of the command ledger keeps, and what follows for whole runs. */
module LedgerProofs {
  import opened LedgerModel

  // ----- the invariant -----

  /** The receipts are exactly the last sequences admitted, at most 128 of them, oldest first. */
  ghost predicate Window(s: State) {
    var n := |s.receipts.order|;
    && n <= MAX_RECEIPTS && n <= s.sequence && (s.sequence > 0 ==> n > 0)
    && (forall i :: 0 <= i < n ==> s.receipts.order[i] == s.sequence - n + 1 + i)
    && (forall k :: k in s.receipts.items <==> s.sequence - n < k <= s.sequence)
  }

  predicate IsOpen(r: Record) {
    r.terminal.None?
  }

  /** Facts about one record that need only the counters. */
  ghost predicate RecordOk(s: State, k: Key)
    requires k in s.records
  {
      var r := s.records[k];
      && 0 < k.sequence <= s.sequence
      && (IsOpen(r) <==> Retirable(r) || r.stage == Committing)
      && (IsOpen(r) ==> k.sequence == s.sequence && r.floor == s.pollFloor && k.sequence in Linked(s, k.kind))
      && (Retirable(r) ==> !r.possibleSend)
      && (r.stage == Committing ==> s.busy)
      && (r.terminal == Some(Rejected) ==> !r.possibleSend)
      && (r.terminal == Some(Accepted) ==> r.possibleSend)
  }

  ghost predicate Records(s: State) {
    && (forall k :: k in s.records ==> RecordOk(s, k))
    && (forall k, l :: k in s.records && l in s.records && k.sequence == l.sequence ==> k == l)
    && (forall q :: q in s.content ==> Key(Content, q) in s.records)
    && (forall q :: q in s.moves ==> Key(Move, q) in s.records)
  }

  ghost predicate TaskOk(s: State, t: Task) {
    match t
    case Exec(sequence, _, _, _) =>
      s.busy && sequence == s.sequence && sequence > 0 && forall k :: k in s.records ==> k.sequence != sequence
    case Preparing(key) =>
      key in s.records && s.records[key].stage in {Staging, Cancelled, Expired} && !s.records[key].possibleSend
    case Starting(key, sent) =>
      s.busy && key in s.records && key.sequence == s.sequence && sent == s.records[key].possibleSend
      && s.records[key].stage in {Committing, Cancelled, Uncertain}
      && (!sent ==> s.records[key].stage != Uncertain)
    case QueuePreparing => s.busy
  }

  predicate SameRecord(a: Task, b: Task) {
    (a.Preparing? || a.Starting?) && (b.Preparing? || b.Starting?) && a.key == b.key
  }

  predicate Commits(t: Task, k: Key) {
    t.Starting? && t.key == k
  }

  ghost predicate Tasks(s: State) {
    && (forall t :: t in s.tasks ==> TaskOk(s, s.tasks[t]))
    && (forall t, u :: t in s.tasks && u in s.tasks && HoldsBusy(s.tasks[t]) && HoldsBusy(s.tasks[u]) ==> t == u)
    && (forall t, u :: t in s.tasks && u in s.tasks && SameRecord(s.tasks[t], s.tasks[u]) ==> t == u)
    && (s.busy ==> exists t :: t in s.tasks && HoldsBusy(s.tasks[t]))
  }

  predicate IsCommitting(s: State, k: Key) {
    k in s.records && s.records[k].stage == Committing
  }

  /** A committing record has the coroutine that will finish it. */
  ghost predicate Committers(s: State) {
    forall k :: IsCommitting(s, k) ==> exists t :: t in s.tasks && Commits(s.tasks[t], k)
  }

  ghost predicate Inv(s: State) {
    Window(s) && Records(s) && Tasks(s) && Committers(s)
  }

  lemma CommittersKept(s: State, t: State)
    requires Committers(s)
    requires forall k :: IsCommitting(t, k) ==> IsCommitting(s, k)
    requires forall id, k :: id in s.tasks && Commits(s.tasks[id], k) && IsCommitting(t, k) ==>
      id in t.tasks && Commits(t.tasks[id], k)
    ensures Committers(t)
  {
    forall k | IsCommitting(t, k) ensures exists id :: id in t.tasks && Commits(t.tasks[id], k) {
      var id :| id in s.tasks && Commits(s.tasks[id], k);
      assert id in t.tasks && Commits(t.tasks[id], k);
    }
  }

  // ----- retirement -----

  /** Two states that retirement may connect. */
  ghost predicate Frame(s: State, t: State) {
    && t.sequence == s.sequence && t.busy == s.busy && t.pollFloor == s.pollFloor && t.poll == s.poll
    && t.tasks == s.tasks && t.content == s.content && t.moves == s.moves && t.receipts.order == s.receipts.order
    && t.receipts.items.Keys == s.receipts.items.Keys && t.records.Keys == s.records.Keys
    && forall k :: k in s.records ==>
         t.records[k] == s.records[k] || (Retirable(s.records[k]) && t.records[k].stage == Expired)
  }

  lemma RetireOneWindow(s: State, key: Key, sequence: nat)
    requires Inv(s)
    ensures var t := RetireOne(s, key, sequence); Window(t) && Frame(s, t)
  {
    if key in s.records && key.sequence < sequence && Retirable(s.records[key]) {
      assert RecordOk(s, key);
      CurrentHasReceipt(s);
      RetireOneFrame(s, key, sequence);
      RewrittenWindow(s, RetireOne(s, key, sequence), key);
    }
  }

  lemma RetireOneFrame(s: State, key: Key, sequence: nat)
    requires key in s.records && key.sequence in s.receipts.items
    ensures Frame(s, RetireOne(s, key, sequence))
  {
  }

  lemma RetireOneRecords(s: State, key: Key, sequence: nat)
    requires Inv(s)
    ensures var t := RetireOne(s, key, sequence); Records(t)
  {
    if key in s.records && key.sequence < sequence && Retirable(s.records[key]) {
      assert RecordOk(s, key);
      CurrentHasReceipt(s);
      ExpireShape(s, key);
      OneRecordKeeps(s, Expire(s, key), key);
    }
  }

  lemma ExpireShape(s: State, key: Key)
    requires key in s.records && RecordOk(s, key) && Retirable(s.records[key]) && key.sequence in s.receipts.items
    ensures var t := Expire(s, key);
            OneRecord(s, t, key) && t.busy == s.busy && t.pollFloor == s.pollFloor && RecordOk(t, key)
  {
  }

  lemma RetireOneTasks(s: State, key: Key, sequence: nat)
    requires Inv(s)
    ensures var t := RetireOne(s, key, sequence); Tasks(t)
  {
    var t := RetireOne(s, key, sequence);
    forall id | id in t.tasks ensures TaskOk(t, t.tasks[id]) {
      assert TaskOk(s, s.tasks[id]);
    }
  }

  lemma RetireOneKeeps(s: State, key: Key, sequence: nat)
    requires Inv(s)
    ensures Inv(RetireOne(s, key, sequence)) && Frame(s, RetireOne(s, key, sequence))
  {
    RetireOneWindow(s, key, sequence);
    RetireOneRecords(s, key, sequence);
    RetireOneTasks(s, key, sequence);
    CommittersKept(s, RetireOne(s, key, sequence));
  }

  lemma {:induction false} RetireInKeeps(s: State, kind: Kind, sequences: seq<nat>, sequence: nat)
    requires Inv(s)
    ensures var t := RetireIn(s, kind, sequences, sequence); Inv(t) && Frame(s, t)
    ensures var t := RetireIn(s, kind, sequences, sequence);
            forall q :: q in sequences && q < sequence && Key(kind, q) in s.records ==>
              !Retirable(t.records[Key(kind, q)])
    decreases |sequences|
  {
    if sequences != [] {
      var r := RetireOne(s, Key(kind, sequences[0]), sequence);
      RetireOneKeeps(s, Key(kind, sequences[0]), sequence);
      RetireInKeeps(r, kind, sequences[1..], sequence);
    }
  }

  lemma NotRetirableStays(s: State, t: State, u: State, sequence: nat, k: Key)
    requires Frame(s, t) && Frame(t, u) && k in s.records && RecordOk(s, k) && RecordOk(u, k)
    requires s.records[k].stage != Committing && k.sequence < sequence
    requires forall q :: q in s.content && q < sequence && Key(Content, q) in s.records ==>
      !Retirable(t.records[Key(Content, q)])
    requires forall q :: q in s.moves && q < sequence && Key(Move, q) in s.records ==>
      !Retirable(u.records[Key(Move, q)])
    ensures !IsOpen(u.records[k])
  {
    assert k == Key(k.kind, k.sequence);
    assert k.sequence in Linked(s, k.kind) ==>
      if k.kind == Content then k.sequence in s.content else k.sequence in s.moves;
  }

  /** A new admission leaves no open record behind. */
  lemma RetireBeforeClosesAll(s: State, sequence: nat)
    requires Inv(s) && sequence == s.sequence + 1
    requires forall k :: k in s.records ==> s.records[k].stage != Committing
    ensures var t := RetireBefore(s, sequence); Inv(t) && Frame(s, t) && forall k :: k in t.records ==>
      !IsOpen(t.records[k])
  {
    var t := RetireIn(s, Content, s.content, sequence);
    RetireInKeeps(s, Content, s.content, sequence);
    RetireInKeeps(t, Move, t.moves, sequence);
    var u := RetireBefore(s, sequence);
    assert u == RetireIn(t, Move, t.moves, sequence);
    forall k | k in u.records ensures !IsOpen(u.records[k]) {
      assert RecordOk(s, k) && RecordOk(u, k);
      NotRetirableStays(s, t, u, sequence, k);
    }
  }

  // ----- the dict of receipts -----

  lemma {:induction false} EvictKeepsWindow<V>(d: Dict<V>, high: nat, cap: nat)
    requires |d.order| <= high && cap > 0
    requires forall i :: 0 <= i < |d.order| ==> d.order[i] == high - |d.order| + 1 + i
    requires forall k :: k in d.items <==> high - |d.order| < k <= high
    ensures var r := EvictOldest(d, cap);
            && |r.order| <= cap && |r.order| <= high && (|d.order| > 0 ==> |r.order| > 0)
            && (forall i :: 0 <= i < |r.order| ==> r.order[i] == high - |r.order| + 1 + i)
            && (forall k :: k in r.items <==> high - |r.order| < k <= high)
    decreases |d.order|
  {
    if |d.order| > cap {
      EvictKeepsWindow(Dict(d.order[1..], d.items - {d.order[0]}), high, cap);
    }
  }

  lemma AdmitWindow(s: State, t: State, v: Receipt)
    requires Window(s) && t.sequence == s.sequence + 1
    requires t.receipts == EvictOldest(Put(s.receipts, t.sequence, v), MAX_RECEIPTS)
    ensures Window(t)
  {
    EvictKeepsWindow(Put(s.receipts, t.sequence, v), t.sequence, MAX_RECEIPTS);
  }

  // ----- every event keeps the invariant -----

  ghost predicate AllClosed(s: State) {
    forall k :: k in s.records ==> !IsOpen(s.records[k])
  }

  /** What an admission finds: nothing busy, everything older retired. */
  lemma BeforeAdmission(s: State, sequence: nat)
    requires Inv(s) && sequence == s.sequence + 1 && !s.busy
    ensures var r := RetireBefore(s, sequence); Inv(r) && Frame(s, r) && AllClosed(r)
  {
    assert forall k :: k in s.records ==> RecordOk(s, k);
    RetireBeforeClosesAll(s, sequence);
  }

  lemma ExecAdmitted(r: State, task: nat, t: State, x: Task)
    requires Inv(r) && AllClosed(r) && !r.busy && task !in r.tasks
    requires x.Exec? && x.sequence == r.sequence + 1
    requires t.records == r.records && t.content == r.content && t.moves == r.moves && t.pollFloor == r.pollFloor
    requires t.busy && t.sequence == r.sequence + 1 && t.tasks == r.tasks[task := x]
    ensures Records(t) && Tasks(t)
  {
    forall k | k in t.records ensures RecordOk(t, k) {
      assert RecordOk(r, k);
    }
    forall id | id in t.tasks ensures TaskOk(t, t.tasks[id]) {
      if id != task { assert TaskOk(r, r.tasks[id]); }
    }
    assert task in t.tasks && HoldsBusy(t.tasks[task]);
  }

  lemma ExecBeginKeeps(s: State, task: nat, sequence: nat, fingerprint: nat, expectedPoll: nat, valid: bool)
    requires Inv(s)
    ensures Inv(StepExecBegin(s, task, sequence, fingerprint, expectedPoll, valid))
  {
    var t := StepExecBegin(s, task, sequence, fingerprint, expectedPoll, valid);
    if t != s {
      BeforeAdmission(s, sequence);
      var r := RetireBefore(s, sequence);
      AdmitWindow(r, t, Terminal(fingerprint, Unknown));
      ExecAdmitted(r, task, t, Exec(sequence, fingerprint, expectedPoll, false));
    }
  }

  lemma LinkedLast(linked: seq<nat>, sequence: nat)
    ensures var r := LinkLast(linked, sequence);
            sequence in r && forall q :: q in r ==> q == sequence || q in linked
  {
    var r := LinkLast(linked, sequence);
    assert r[|r| - 1] == sequence;
  }

  lemma PrepareAdmittedRecords(r: State, t: State, key: Key, rec: Record)
    requires Records(r) && AllClosed(r)
    requires key.sequence == r.sequence + 1 && rec.stage == Staging && rec.terminal.None? && !rec.possibleSend
      && rec.floor == r.pollFloor
    requires t.records == r.records[key := rec] && t.pollFloor == r.pollFloor && t.busy == r.busy
      && t.sequence == r.sequence + 1
    requires t.content == if key.kind == Content then LinkLast(r.content, key.sequence) else r.content
    requires t.moves == if key.kind == Move then LinkLast(r.moves, key.sequence) else r.moves
    ensures Records(t)
  {
    LinkedLast(Linked(r, key.kind), key.sequence);
    forall k | k in t.records ensures RecordOk(t, k) {
      if k != key { assert RecordOk(r, k); }
    }
    forall k, l | k in t.records && l in t.records && k.sequence == l.sequence ensures k == l {
      if k != key { assert RecordOk(r, k); }
      if l != key { assert RecordOk(r, l); }
    }
  }

  lemma PrepareAdmittedTasks(r: State, task: nat, t: State, key: Key, rec: Record)
    requires Inv(r) && AllClosed(r) && !r.busy && task !in r.tasks && key !in r.records
    requires rec.stage == Staging && !rec.possibleSend && t.records == r.records[key := rec] && t.busy == r.busy
    requires t.tasks == r.tasks[task := Preparing(key)]
    ensures Tasks(t)
  {
    assert forall id :: id in r.tasks ==> TaskOk(r, r.tasks[id]);
    forall id | id in t.tasks ensures TaskOk(t, t.tasks[id]) {
      if id != task { assert TaskOk(r, r.tasks[id]); }
    }
  }

  lemma PrepareBeginKeeps(s: State, task: nat, key: Key, fingerprint: nat, expectedPoll: nat,
                          valid: bool, ownerOk: bool, observed: nat)
    requires Inv(s)
    ensures Inv(StepPrepareBegin(s, task, key, fingerprint, expectedPoll, valid, ownerOk, observed))
  {
    var t := StepPrepareBegin(s, task, key, fingerprint, expectedPoll, valid, ownerOk, observed);
    if t != s {
      BeforeAdmission(s, key.sequence);
      var r := RetireBefore(s, key.sequence);
      var rec := Record(fingerprint, expectedPoll, r.pollFloor, Staging, 0, None, false);
      assert forall k :: k in r.records ==> RecordOk(r, k);
      AdmitWindow(r, t, Reservation(fingerprint));
      PrepareAdmittedRecords(r, t, key, rec);
      PrepareAdmittedTasks(r, task, t, key, rec);
    }
  }

  lemma ExecSendKeeps(s: State, task: nat, guardOk: bool, roomPause: bool, observed: nat)
    requires Inv(s)
    ensures Inv(StepExecSend(s, task, guardOk, roomPause, observed))
  {
    var t := StepExecSend(s, task, guardOk, roomPause, observed);
    if t != s {
      assert TaskOk(s, s.tasks[task]);
      forall k | k in t.records ensures RecordOk(t, k) { assert RecordOk(s, k); }
      forall id | id in t.tasks ensures TaskOk(t, t.tasks[id]) { assert TaskOk(s, s.tasks[id]); }
      assert task in t.tasks && HoldsBusy(t.tasks[task]);
    }
  }

  /** While a direct command runs, every record is closed. */
  lemma ExecMeansClosed(s: State, task: nat)
    requires Records(s) && task in s.tasks && s.tasks[task].Exec? && TaskOk(s, s.tasks[task])
    ensures AllClosed(s)
  {
    forall k | k in s.records ensures !IsOpen(s.records[k]) { assert RecordOk(s, k); }
  }

  lemma ExecFinishKeeps(s: State, task: nat, outcome: Outcome)
    requires Inv(s)
    ensures Inv(StepExecFinish(s, task, outcome))
  {
    var t := StepExecFinish(s, task, outcome);
    if t != s {
      assert TaskOk(s, s.tasks[task]);
      ExecMeansClosed(s, task);
      assert s.sequence in s.receipts.items;
      assert Window(t);
      forall k | k in t.records ensures RecordOk(t, k) { assert RecordOk(s, k); }
      forall id | id in t.tasks ensures TaskOk(t, t.tasks[id]) { assert TaskOk(s, s.tasks[id]); }
    }
  }

  /** Only the record `key` may differ. */
  ghost predicate OneRecord(s: State, t: State, key: Key) {
    && key in s.records && t.records.Keys == s.records.Keys
    && (forall k :: k in s.records && k != key ==> t.records[k] == s.records[k])
    && t.content == s.content && t.moves == s.moves && t.sequence == s.sequence
  }

  /** The receipts keep their keys, and `key` is among them if its receipt was written. */
  ghost predicate ReceiptRewritten(s: State, t: State, key: Key) {
    t.receipts == s.receipts
    || (key.sequence in s.receipts.items && t.receipts.order == s.receipts.order
        && t.receipts.items.Keys == s.receipts.items.Keys)
  }

  lemma OneRecordKeeps(s: State, t: State, key: Key)
    requires Records(s) && OneRecord(s, t, key) && RecordOk(t, key)
    requires t.pollFloor == s.pollFloor || (forall k :: k in t.records ==> !IsOpen(t.records[k]))
    requires s.busy ==> t.busy || (forall k :: k in t.records ==> t.records[k].stage != Committing)
    ensures Records(t)
  {
    forall k | k in t.records ensures RecordOk(t, k) { assert RecordOk(s, k); }
  }

  lemma RewrittenWindow(s: State, t: State, key: Key)
    requires Window(s) && t.sequence == s.sequence && ReceiptRewritten(s, t, key)
    ensures Window(t)
  {
  }

  lemma CurrentHasReceipt(s: State)
    requires Window(s) && s.sequence > 0
    ensures s.sequence in s.receipts.items
  {
  }

  /** A task of another record does not notice that one record changed. */
  lemma OtherTaskOk(s: State, t: State, key: Key, x: Task)
    requires TaskOk(s, x) && OneRecord(s, t, key) && t.busy == s.busy
    requires !(x.Preparing? || x.Starting?) || x.key != key
    ensures TaskOk(t, x)
  {
  }

  /** Task `task`, which works on `key` and does not hold the flag, ends. */
  lemma PreparationEndsTasks(s: State, t: State, task: nat, key: Key)
    requires Tasks(s) && task in s.tasks && s.tasks[task] == Preparing(key)
    requires OneRecord(s, t, key) && t.tasks == s.tasks - {task} && t.busy == s.busy
    ensures Tasks(t)
  {
    forall id | id in t.tasks ensures TaskOk(t, t.tasks[id]) { OtherTaskOk(s, t, key, s.tasks[id]); }
    if s.busy {
      var h :| h in s.tasks && HoldsBusy(s.tasks[h]);
      assert h in t.tasks && HoldsBusy(t.tasks[h]);
    }
  }

  lemma PreparationEnds(s: State, t: State, task: nat, key: Key)
    requires Inv(s) && task in s.tasks && s.tasks[task] == Preparing(key)
    requires OneRecord(s, t, key) && t.tasks == s.tasks - {task} && t.busy == s.busy && t.pollFloor == s.pollFloor
    requires ReceiptRewritten(s, t, key) && RecordOk(t, key) && t.records[key].stage != Committing
    ensures Inv(t)
  {
    RewrittenWindow(s, t, key);
    OneRecordKeeps(s, t, key);
    PreparationEndsTasks(s, t, task, key);
    CommittersKept(s, t);
  }

  lemma FailPreparationShape(s: State, task: nat, key: Key, stage: Stage)
    requires key in s.records && RecordOk(s, key) && TaskOk(s, Preparing(key))
    requires stage == Cancelled || stage == Expired || (stage == Uncertain && s.records[key].stage == Staging)
    ensures var t := FailPreparation(s, task, key, stage);
            OneRecord(s, t, key) && t.tasks == s.tasks - {task} && t.busy == s.busy && t.pollFloor == s.pollFloor
            && ReceiptRewritten(s, t, key) && RecordOk(t, key) && t.records[key].stage != Committing
  {
  }

  lemma FailPreparationKeeps(s: State, task: nat, key: Key, stage: Stage)
    requires Inv(s) && task in s.tasks && s.tasks[task] == Preparing(key) && key in s.records
    requires stage == Cancelled || stage == Expired || (stage == Uncertain && s.records[key].stage == Staging)
    ensures Inv(FailPreparation(s, task, key, stage))
  {
    assert TaskOk(s, s.tasks[task]) && RecordOk(s, key);
    FailPreparationShape(s, task, key, stage);
    PreparationEnds(s, FailPreparation(s, task, key, stage), task, key);
  }

  lemma PrepareResumeKeeps(s: State, task: nat, preparation: PrepareReply)
    requires Inv(s)
    ensures Inv(StepPrepareResume(s, task, preparation))
  {
    if task in s.tasks && s.tasks[task].Preparing? && s.tasks[task].key in s.records {
      var key := s.tasks[task].key;
      var stage := s.records[key].stage;
      assert TaskOk(s, s.tasks[task]) && RecordOk(s, key);
      if preparation.PrepareCancelled? {
        FailPreparationKeeps(s, task, key, Cancelled);
      } else if stage != Staging || preparation.ReplyFailed? {
        FailPreparationKeeps(s, task, key, if stage == Staging then Uncertain else stage);
      } else if preparation.ReplyStaged? {
        PreparationEnds(s, StepPrepareResume(s, task, preparation), task, key);
      }
    }
  }

  /** No task works on a record that is staged. */
  lemma StagedIsIdle(s: State, key: Key, id: nat)
    requires Tasks(s) && key in s.records && s.records[key].stage == Staged && id in s.tasks
    ensures !(s.tasks[id].Preparing? || s.tasks[id].Starting?) || s.tasks[id].key != key
  {
    assert TaskOk(s, s.tasks[id]);
  }

  lemma StartExpires(s: State, t: State, key: Key)
    requires Inv(s) && key in s.records && s.records[key].stage == Staged
    requires OneRecord(s, t, key) && t.tasks == s.tasks && t.busy == s.busy && t.pollFloor == s.pollFloor
    requires ReceiptRewritten(s, t, key) && RecordOk(t, key) && t.records[key].stage != Committing
    ensures Inv(t)
  {
    RewrittenWindow(s, t, key);
    OneRecordKeeps(s, t, key);
    forall id | id in t.tasks ensures TaskOk(t, t.tasks[id]) {
      StagedIsIdle(s, key, id);
      OtherTaskOk(s, t, key, s.tasks[id]);
    }
    CommittersKept(s, t);
  }

  /** The busy task `task` of record `key` changes its record, itself, or both. */
  lemma StartingTasks(s: State, t: State, task: nat, key: Key)
    requires Tasks(s) && OneRecord(s, t, key)
    requires forall id :: id in s.tasks && id != task && (s.tasks[id].Preparing? || s.tasks[id].Starting?) ==>
      s.tasks[id].key != key
    requires t.busy && task in t.tasks && t.tasks[task].Starting? && t.tasks[task].key == key
      && TaskOk(t, t.tasks[task])
    requires t.tasks == s.tasks[task := t.tasks[task]]
    requires forall id :: id in s.tasks && id != task ==> !HoldsBusy(s.tasks[id])
    ensures Tasks(t)
  {
    forall id | id in t.tasks ensures TaskOk(t, t.tasks[id]) {
      if id != task {
        assert TaskOk(s, s.tasks[id]);
        OtherTaskOk(s, s.(records := t.records), key, s.tasks[id]);
      }
    }
    assert task in t.tasks && HoldsBusy(t.tasks[task]);
  }

  lemma StartingCommitters(s: State, t: State, task: nat, key: Key)
    requires Committers(s) && OneRecord(s, t, key) && task in t.tasks && Commits(t.tasks[task], key)
    requires t.tasks == s.tasks[task := t.tasks[task]] && (task in s.tasks ==> Commits(s.tasks[task], key))
    ensures Committers(t)
  {
    forall k | IsCommitting(t, k) ensures exists id :: id in t.tasks && Commits(t.tasks[id], k) {
      if k != key {
        assert IsCommitting(s, k);
        var id :| id in s.tasks && Commits(s.tasks[id], k);
        assert id in t.tasks && Commits(t.tasks[id], k);
      }
    }
  }

  lemma StartCommits(s: State, t: State, task: nat, key: Key)
    requires Inv(s) && task !in s.tasks && key in s.records && s.records[key].stage == Staged && !s.busy
    requires OneRecord(s, t, key) && t.receipts == s.receipts && t.pollFloor == s.pollFloor && t.busy
    requires RecordOk(t, key) && t.tasks == s.tasks[task := Starting(key, false)] && TaskOk(t, Starting(key, false))
    ensures Inv(t)
  {
    assert forall id :: id in s.tasks ==> TaskOk(s, s.tasks[id]);
    OneRecordKeeps(s, t, key);
    StartingTasks(s, t, task, key);
    StartingCommitters(s, t, task, key);
    RewrittenWindow(s, t, key);
  }

  lemma StartBeginKeeps(s: State, task: nat, key: Key, fingerprint: nat, valid: bool, now: int)
    requires Inv(s)
    ensures Inv(StepStartBegin(s, task, key, fingerprint, valid, now))
  {
    var t := StepStartBegin(s, task, key, fingerprint, valid, now);
    if t != s {
      assert RecordOk(s, key);
      if now - s.records[key].stagedAt >= STAGED_COMMIT_TTL_S { StartExpires(s, t, key); }
      else { StartCommits(s, t, task, key); }
    }
  }

  lemma StartSends(s: State, t: State, task: nat, key: Key)
    requires Inv(s) && task in s.tasks && s.tasks[task] == Starting(key, false) && s.busy && t.busy
    requires OneRecord(s, t, key) && t.receipts == s.receipts && t.pollFloor == s.pollFloor
    requires RecordOk(t, key) && t.tasks == s.tasks[task := Starting(key, true)] && TaskOk(t, Starting(key, true))
    ensures Inv(t)
  {
    OneRecordKeeps(s, t, key);
    StartingTasks(s, t, task, key);
    StartingCommitters(s, t, task, key);
    RewrittenWindow(s, t, key);
  }

  lemma StartSendKeeps(s: State, task: nat, ownerOk: bool, observed: nat)
    requires Inv(s)
    ensures Inv(StepStartSend(s, task, ownerOk, observed))
  {
    var t := StepStartSend(s, task, ownerOk, observed);
    if t != s {
      var key := s.tasks[task].key;
      assert RecordOk(s, key) && TaskOk(s, s.tasks[task]);
      StartSends(s, t, task, key);
    }
  }

  lemma BusyTaskEnds(s: State, t: State, task: nat)
    requires Tasks(s) && task in s.tasks && HoldsBusy(s.tasks[task]) && t.tasks == s.tasks - {task} && !t.busy
    requires forall id :: id in t.tasks ==> TaskOk(t, t.tasks[id])
    ensures Tasks(t)
  {
  }

  /** Only the busy task can be committing a record. */
  lemma CommittingIsBusyTask(s: State, task: nat, k: Key)
    requires Tasks(s) && Committers(s) && task in s.tasks && HoldsBusy(s.tasks[task]) && IsCommitting(s, k)
    ensures Commits(s.tasks[task], k)
  {
  }

  lemma StartResumeShape(s: State, task: nat, commit: CommitReply)
    requires task in s.tasks && s.tasks[task].Starting? && !commit.ReplyPending? && s.tasks[task].key in s.records
    requires RecordOk(s, s.tasks[task].key) && TaskOk(s, s.tasks[task]) && s.sequence in s.receipts.items
    ensures var t := StepStartResume(s, task, commit);
            var key := s.tasks[task].key;
            OneRecord(s, t, key) && t.tasks == s.tasks - {task} && !t.busy && ReceiptRewritten(s, t, key)
            && RecordOk(t, key) && !IsOpen(t.records[key]) && t.records[key].stage != Committing
  {
  }

  lemma StartEnds(s: State, t: State, task: nat, key: Key)
    requires Inv(s) && task in s.tasks && s.tasks[task].Starting? && s.tasks[task].key == key
    requires OneRecord(s, t, key) && t.tasks == s.tasks - {task} && !t.busy && ReceiptRewritten(s, t, key)
    requires RecordOk(t, key) && !IsOpen(t.records[key]) && t.records[key].stage != Committing
    ensures Inv(t)
  {
    assert TaskOk(s, s.tasks[task]);
    forall k | k in t.records ensures !IsOpen(t.records[k]) && t.records[k].stage != Committing {
      assert RecordOk(s, k);
    }
    assert Records(t) by { OneRecordKeeps(s, t, key); }
    assert Tasks(t) by {
      forall id | id in t.tasks ensures TaskOk(t, t.tasks[id]) {
        assert TaskOk(s, s.tasks[id]);
        OtherTaskOk(s, s.(records := t.records), key, s.tasks[id]);
      }
      BusyTaskEnds(s, t, task);
    }
    RewrittenWindow(s, t, key);
  }

  lemma StartResumeKeeps(s: State, task: nat, commit: CommitReply)
    requires Inv(s)
    ensures Inv(StepStartResume(s, task, commit))
  {
    if task in s.tasks && s.tasks[task].Starting? && s.tasks[task].key in s.records && !commit.ReplyPending? {
      assert TaskOk(s, s.tasks[task]) && RecordOk(s, s.tasks[task].key);
      CurrentHasReceipt(s);
      StartResumeShape(s, task, commit);
      StartEnds(s, StepStartResume(s, task, commit), task, s.tasks[task].key);
    }
  }

  lemma CancelShape(s: State, key: Key)
    requires IsLinked(s, key) && s.records[key].stage != Complete && RecordOk(s, key)
    requires IsOpen(s.records[key]) ==> key.sequence in s.receipts.items
    ensures var t := StepCancel(s, key, true);
            OneRecord(s, t, key) && t.tasks == s.tasks && t.busy == s.busy && t.pollFloor == s.pollFloor
            && ReceiptRewritten(s, t, key) && RecordOk(t, key)
              && t.records[key].possibleSend == s.records[key].possibleSend
            && t.records[key].stage == if s.records[key].possibleSend then Uncertain else Cancelled
  {
  }

  lemma Cancels(s: State, t: State, key: Key)
    requires Inv(s) && OneRecord(s, t, key) && t.tasks == s.tasks && t.busy == s.busy && t.pollFloor == s.pollFloor
    requires ReceiptRewritten(s, t, key) && RecordOk(t, key)
      && t.records[key].possibleSend == s.records[key].possibleSend
    requires t.records[key].stage == if s.records[key].possibleSend then Uncertain else Cancelled
    ensures Inv(t)
  {
    RewrittenWindow(s, t, key);
    OneRecordKeeps(s, t, key);
    forall id | id in t.tasks ensures TaskOk(t, t.tasks[id]) { assert TaskOk(s, s.tasks[id]); }
    CommittersKept(s, t);
  }

  lemma CancelKeeps(s: State, key: Key, matches: bool)
    requires Inv(s)
    ensures Inv(StepCancel(s, key, matches))
  {
    if IsLinked(s, key) && matches && s.records[key].stage != Complete {
      assert RecordOk(s, key);
      if IsOpen(s.records[key]) { CurrentHasReceipt(s); }
      CancelShape(s, key);
      Cancels(s, StepCancel(s, key, true), key);
    }
  }

  lemma QueueBeginKeeps(s: State, task: nat, sequence: nat, valid: bool)
    requires Inv(s)
    ensures Inv(StepQueueBegin(s, task, sequence, valid))
  {
    var t := StepQueueBegin(s, task, sequence, valid);
    if t != s {
      forall k | k in t.records ensures RecordOk(t, k) { assert RecordOk(s, k); }
      forall id | id in t.tasks ensures TaskOk(t, t.tasks[id]) {
        if id != task { assert TaskOk(s, s.tasks[id]); }
      }
      assert task in t.tasks && HoldsBusy(t.tasks[task]);
    }
  }

  lemma QueueEndKeeps(s: State, task: nat)
    requires Inv(s)
    ensures Inv(StepQueueEnd(s, task))
  {
    var t := StepQueueEnd(s, task);
    if t != s {
      forall k | k in t.records ensures RecordOk(t, k) && t.records[k].stage != Committing {
        assert RecordOk(s, k);
        if s.records[k].stage == Committing { CommittingIsBusyTask(s, task, k); }
      }
      forall id | id in t.tasks ensures TaskOk(t, t.tasks[id]) { assert TaskOk(s, s.tasks[id]); }
      BusyTaskEnds(s, t, task);
    }
  }
}
