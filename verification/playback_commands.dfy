/**
  The ledger as the integration runs it: one object whose fields the coroutines update.
  Every method is one uninterrupted segment and is proved to be the matching step of LedgerModel;
  Interleave shows that any sequence of segments leaves the object in the state of the model's run.
 */
module PlaybackCommandLedger {
  import Runs
  import opened LedgerModel
  import LedgerProofs
  import LedgerHistory

  class PlaybackCommands {
    var commandSequence: nat
    var busy: bool
    var pollFloor: nat
    var poll: nat
    var receiptOrder: seq<nat>
    var receipts: map<nat, Receipt>
    var records: map<Key, Record>
    var content: seq<nat>
    var moves: seq<nat>
    var tasks: map<nat, Task>
    ghost var log: seq<Entry>

    ghost function View(): State
      reads this
    {
      State(commandSequence, busy, pollFloor, poll, Dict(receiptOrder, receipts), records, content, moves, tasks, log)
    }

    constructor ()
      ensures View() == Init()
    {
      commandSequence, busy, pollFloor, poll := 0, false, 0, 0;
      receiptOrder, receipts, records := [], map[], map[];
      content, moves, tasks, log := [], [], map[], [];
    }

    method PollBegin()
      modifies this`poll
      ensures View() == Step(old(View()), Event.PollBegin)
    {
      poll := poll + 1;
    }

    method PutReceipt(sequence: nat, receipt: Receipt)
      modifies this`receiptOrder, this`receipts
      ensures View() == old(View()).(receipts := Put(old(View()).receipts, sequence, receipt))
    {
      if sequence !in receipts {
        receiptOrder := receiptOrder + [sequence];
      }
      receipts := receipts[sequence := receipt];
    }

    method EvictReceipts()
      modifies this`receiptOrder, this`receipts
      ensures View() == old(View()).(receipts := EvictOldest(old(View()).receipts, MAX_RECEIPTS))
    {
      while |receiptOrder| > MAX_RECEIPTS
        invariant EvictOldest(View().receipts, MAX_RECEIPTS) == EvictOldest(old(View()).receipts, MAX_RECEIPTS)
        invariant View() == old(View()).(receipts := View().receipts)
        decreases |receiptOrder|
      {
        receipts := receipts - {receiptOrder[0]};
        receiptOrder := receiptOrder[1..];
      }
    }

    /** A record's outcome is kept if it has one, then its receipt is the published outcome. */
    method CloseAndPublish(key: Key, outcome: Outcome)
      requires key in records
      modifies this`records, this`receiptOrder, this`receipts, this`log
      ensures View() == Publish(Close(old(View()), key, outcome), key)
    {
      if records[key].terminal.None? {
        records := records[key := records[key].(terminal := Some(outcome))];
        log := log + [Closed(key, outcome)];
      }
      PutReceipt(key.sequence, Terminal(records[key].fingerprint, records[key].terminal.value));
    }

    /** The outcome is written whether or not there was one. */
    method ExpireRecord(key: Key)
      requires key in records
      modifies this`records, this`receiptOrder, this`receipts, this`log
      ensures View() == Expire(old(View()), key)
    {
      SetRecordStage(key, Expired);
      records := records[key := records[key].(terminal := Some(Rejected))];
      log := log + [Closed(key, Rejected)];
      PutReceipt(key.sequence, Terminal(records[key].fingerprint, Rejected));
    }

    method SetRecordStage(key: Key, stage: Stage)
      requires key in records
      modifies this`records
      ensures View() == SetStage(old(View()), key, stage)
    {
      records := records[key := records[key].(stage := stage)];
    }

    /** RoomContent.retire_before of one kind: walks the dict in insertion order. */
    method RetireKind(kind: Kind, sequence: nat)
      modifies this`records, this`receiptOrder, this`receipts, this`log
      ensures View() == RetireIn(old(View()), kind, Linked(old(View()), kind), sequence)
    {
      var linked := if kind == Content then content else moves;
      var i := 0;
      while i < |linked|
        invariant 0 <= i <= |linked|
        invariant RetireIn(View(), kind, linked[i..], sequence) == RetireIn(old(View()), kind, linked, sequence)
      {
        var key := Key(kind, linked[i]);
        ghost var before := View();
        if key in records && key.sequence < sequence && Retirable(records[key]) {
          ExpireRecord(key);
        }
        assert View() == RetireOne(before, key, sequence);
        assert linked[i..][0] == linked[i] && linked[i..][1..] == linked[i + 1..];
        i := i + 1;
      }
      assert linked[|linked|..] == [];
    }

    method RetirePreparationsBefore(sequence: nat)
      modifies this`records, this`receiptOrder, this`receipts, this`log
      ensures View() == RetireBefore(old(View()), sequence)
    {
      RetireKind(Content, sequence);
      RetireKind(Move, sequence);
    }

    /** PlaybackCommands.execute up to its first await; `admitted` tells whether it owns the flag. */
    method Execute(task: nat, sequence: nat, fingerprint: nat, expectedPoll: nat, valid: bool) returns (admitted: bool)
      modifies this
      ensures View() == StepExecBegin(old(View()), task, sequence, fingerprint, expectedPoll, valid)
      ensures admitted ==> busy && commandSequence == sequence == old(commandSequence) + 1
    {
      admitted := false;
      if task in tasks || !valid || sequence in receipts { return; }
      if sequence <= commandSequence || sequence != commandSequence + 1 || busy { return; }
      RetirePreparationsBefore(sequence);
      busy := true;
      commandSequence := sequence;
      PutReceipt(sequence, Terminal(fingerprint, Unknown));
      EvictReceipts();
      tasks := tasks[task := Exec(sequence, fingerprint, expectedPoll, false)];
      log := log + [Admitted(sequence)];
      admitted := true;
    }

    /** The execution guard followed by `on_send`. */
    method Sending(task: nat, guardOk: bool, roomPause: bool, observed: nat) returns (sent: bool)
      modifies this`tasks, this`log
      ensures View() == StepExecSend(old(View()), task, guardOk, roomPause, observed)
      ensures sent ==> pollFloor < observed <= poll
    {
      sent := false;
      if task !in tasks || !tasks[task].Exec? || tasks[task].sent { return; }
      var t := tasks[task];
      if guardOk && observed <= poll && t.expectedPoll > pollFloor
         && (observed == t.expectedPoll || (roomPause && observed > t.expectedPoll)) {
        tasks := tasks[task := Exec(t.sequence, t.fingerprint, t.expectedPoll, true)];
        log := log + [Sent(t.sequence, t.expectedPoll, None)];
        sent := true;
      }
    }

    /** The `finally` of execute. */
    method ExecuteFinally(task: nat, outcome: Outcome)
      modifies this
      ensures View() == StepExecFinish(old(View()), task, outcome)
    {
      if task !in tasks || !tasks[task].Exec? { return; }
      var t := tasks[task];
      if t.sent {
        pollFloor := if pollFloor < poll then poll else pollFloor;
        log := log + [Finished(t.sequence, poll)];
      }
      PutReceipt(t.sequence, Terminal(t.fingerprint, outcome));
      busy := false;
      tasks := tasks - {task};
    }

    /** The new record goes last in its dict; the oldest leave beyond the cap. */
    method Link(key: Key)
      modifies this`content, this`moves
      ensures View() == old(View()).(
        content := if key.kind == Content then LinkLast(old(content), key.sequence) else old(content),
        moves := if key.kind == Move then LinkLast(old(moves), key.sequence) else old(moves))
    {
      var grown := (if key.kind == Content then content else moves) + [key.sequence];
      ghost var whole, dropped := grown, 0;
      while |grown| > MAX_CONTENT_RECORDS
        invariant 0 <= dropped <= |whole| && grown == whole[dropped..]
        invariant dropped > 0 ==> |grown| >= MAX_CONTENT_RECORDS
      {
        grown := grown[1..];
        dropped := dropped + 1;
      }
      if key.kind == Content {
        content := grown;
      } else {
        moves := grown;
      }
    }

    /** RoomContent.prepare up to its first await. */
    method Prepare(task: nat, key: Key, fingerprint: nat, expectedPoll: nat, valid: bool, ownerOk: bool, observed: nat)
      modifies this
      ensures View() == StepPrepareBegin(old(View()), task, key, fingerprint, expectedPoll, valid, ownerOk, observed)
    {
      var linked := key in records && if key.kind == Content then key.sequence in content else key.sequence in moves;
      if task in tasks || !valid || linked || key.sequence in receipts { return; }
      if key.sequence != commandSequence + 1 || busy { return; }
      if !ownerOk || observed != expectedPoll || observed > poll || observed <= pollFloor { return; }
      RetirePreparationsBefore(key.sequence);
      Reserve(task, key, fingerprint, expectedPoll);
    }

    method Reserve(task: nat, key: Key, fingerprint: nat, expectedPoll: nat)
      modifies this
      ensures View() == ReserveRecord(old(View()), task, key, fingerprint, expectedPoll)
    {
      commandSequence := key.sequence;
      records := records[key := Record(fingerprint, expectedPoll, pollFloor, Staging, 0, None, false)];
      PutReceipt(key.sequence, Reservation(fingerprint));
      EvictReceipts();
      Link(key);
      tasks := tasks[task := Preparing(key)];
      log := log + [Admitted(key.sequence)];
    }

    method PrepareFinally(task: nat, key: Key, stage: Stage)
      requires key in records
      modifies this
      ensures View() == FailPreparation(old(View()), task, key, stage)
    {
      SetRecordStage(key, stage);
      if key.sequence in receipts {
        CloseAndPublish(key, Rejected);
      } else if records[key].terminal.None? {
        records := records[key := records[key].(terminal := Some(Rejected))];
        log := log + [Closed(key, Rejected)];
      }
      tasks := tasks - {task};
    }

    /** RoomContent.prepare after a reply from the staging client. */
    method PrepareResumes(task: nat, preparation: PrepareReply)
      modifies this
      ensures View() == StepPrepareResume(old(View()), task, preparation)
    {
      if task !in tasks || !tasks[task].Preparing? || tasks[task].key !in records { return; }
      var key := tasks[task].key;
      var stage := records[key].stage;
      if preparation.PrepareCancelled? {
        PrepareFinally(task, key, Cancelled);
      } else if stage != Staging || preparation.ReplyFailed? {
        PrepareFinally(task, key, if stage == Cancelled || stage == Expired then stage else Uncertain);
      } else if preparation.ReplyStaged? {
        records := records[key := records[key].(stage := Staged, stagedAt := preparation.now)];
        tasks := tasks - {task};
      }
    }

    /** RoomContent.start up to consuming the commit eligibility. */
    method Start(task: nat, key: Key, fingerprint: nat, valid: bool, now: int)
      modifies this
      ensures View() == StepStartBegin(old(View()), task, key, fingerprint, valid, now)
    {
      var linked := key in records && if key.kind == Content then key.sequence in content else key.sequence in moves;
      if task in tasks || !valid || !linked || key.sequence !in receipts { return; }
      var r := records[key];
      if fingerprint != r.fingerprint || r.terminal.Some? || r.stage != Staged { return; }
      if key.sequence != commandSequence || busy { return; }
      if now - r.stagedAt >= STAGED_COMMIT_TTL_S {
        ExpireRecord(key);
      } else {
        SetRecordStage(key, Committing);
        busy := true;
        tasks := tasks[task := Starting(key, false)];
      }
    }

    /** The fresh observation and the dispatch of the commit. */
    method StartSends(task: nat, ownerOk: bool, observed: nat) returns (sent: bool)
      modifies this
      ensures View() == StepStartSend(old(View()), task, ownerOk, observed)
    {
      sent := false;
      if task !in tasks || !tasks[task].Starting? || tasks[task].sent || tasks[task].key !in records { return; }
      var key := tasks[task].key;
      var r := records[key];
      if ownerOk && r.expectedPoll <= observed <= poll && observed > r.floor && r.stage == Committing {
        records := records[key := r.(possibleSend := true)];
        tasks := tasks[task := Starting(key, true)];
        log := log + [Sent(key.sequence, observed, Some(key))];
        sent := true;
      }
    }

    /** RoomContent.start after the commit reply, with its `finally`. */
    method StartResumes(task: nat, commit: CommitReply)
      modifies this
      ensures View() == StepStartResume(old(View()), task, commit)
    {
      if task !in tasks || !tasks[task].Starting? || tasks[task].key !in records || commit.ReplyPending? { return; }
      var key, sent := tasks[task].key, tasks[task].sent;
      var complete := sent && commit.ReplyComplete?;
      if complete {
        log := log + [Validated(key)];
      }
      CloseAndPublish(key, if complete then Accepted else if sent then Unknown else Rejected);
      SetRecordStage(key, if records[key].terminal == Some(Accepted) then Complete else if sent then Uncertain
        else Refused);
      StartFinally(task, key, sent);
    }

    /** A commit that was sent moves the observation floor; the flag is given back. */
    method StartFinally(task: nat, key: Key, sent: bool)
      modifies this`pollFloor, this`log, this`busy, this`tasks
      ensures View() == old(View()).(
        pollFloor := if sent then Max(old(pollFloor), poll) else old(pollFloor),
        log := if sent then old(log) + [Finished(key.sequence, poll)]
          else old(log), busy := false, tasks := old(tasks) - {task})
    {
      if sent {
        pollFloor := if pollFloor < poll then poll else pollFloor;
        log := log + [Finished(key.sequence, poll)];
      }
      busy := false;
      tasks := tasks - {task};
    }

    /** RoomContent.cancel before it asks the client. */
    method Cancel(key: Key, matches: bool)
      modifies this
      ensures View() == StepCancel(old(View()), key, matches)
    {
      var linked := key in records && if key.kind == Content then key.sequence in content else key.sequence in moves;
      if !linked || !matches || records[key].stage == Complete { return; }
      var possible := records[key].possibleSend;
      SetRecordStage(key, if possible then Uncertain else Cancelled);
      if records[key].terminal.None? {
        CloseAndPublish(key, if possible then Unknown else Rejected);
      }
    }

    /** RoomQueue.prepare takes the flag... */
    method QueuePrepare(task: nat, sequence: nat, valid: bool)
      modifies this`busy, this`tasks
      ensures View() == StepQueueBegin(old(View()), task, sequence, valid)
    {
      if task in tasks || !valid || sequence != commandSequence + 1 || busy { return; }
      busy := true;
      tasks := tasks[task := QueuePreparing];
    }

    /** ...and gives it back in its `finally`. */
    method QueuePrepareFinally(task: nat)
      modifies this`busy, this`tasks
      ensures View() == StepQueueEnd(old(View()), task)
    {
      if task !in tasks || !tasks[task].QueuePreparing? { return; }
      busy := false;
      tasks := tasks - {task};
    }

    /** One segment of whichever coroutine the event loop resumes. */
    method Resume(e: Event)
      modifies this
      ensures View() == Step(old(View()), e)
    {
      match e
      case PollBegin => PollBegin();
      case ExecBegin(task, sequence, fingerprint, expectedPoll, valid) =>
        var _ := Execute(task, sequence, fingerprint, expectedPoll, valid);
      case ExecSend(task, guardOk, roomPause, observed) => var _ := Sending(task, guardOk, roomPause, observed);
      case ExecFinish(task, outcome) => ExecuteFinally(task, outcome);
      case QueueBegin(task, sequence, valid) => QueuePrepare(task, sequence, valid);
      case QueueEnd(task) => QueuePrepareFinally(task);
      case _ => ResumeContent(e);
    }

    method ResumeContent(e: Event)
      requires e.PrepareBegin? || e.PrepareResume? || e.StartBegin? || e.StartSend? || e.StartResume? || e.CancelCall?
      modifies this
      ensures View() == Step(old(View()), e)
    {
      match e
      case PrepareBegin(task, key, fingerprint, expectedPoll, valid, ownerOk, observed) =>
        Prepare(task, key, fingerprint, expectedPoll, valid, ownerOk, observed);
      case PrepareResume(task, preparation) => PrepareResumes(task, preparation);
      case StartBegin(task, key, fingerprint, valid, now) => Start(task, key, fingerprint, valid, now);
      case StartSend(task, ownerOk, observed) => var _ := StartSends(task, ownerOk, observed);
      case StartResume(task, commit) => StartResumes(task, commit);
      case CancelCall(key, matches) => Cancel(key, matches);
    }
  }

  /** Any interleaving of segments is a run of the model, so what LedgerHistory proves holds of the object. */
  method Interleave(es: seq<Event>) returns (commands: PlaybackCommands)
    ensures fresh(commands) && commands.View() == Run(es)
    ensures LedgerProofs.Inv(commands.View()) && LedgerHistory.History(commands.View())
  {
    commands := new PlaybackCommands();
    var i := 0;
    while i < |es|
      invariant 0 <= i <= |es| && fresh(commands) && commands.View() == Run(es[..i])
    {
      commands.Resume(es[i]);
      Runs.Append(Step, Init(), es[..i], es[i]);
      assert es[..i] + [es[i]] == es[..i + 1];
      i := i + 1;
    }
    assert es[..|es|] == es;
    LedgerHistory.RunKeeps(es);
  }
}
