/**
  The Home Assistant command ledger: one monotone sequence shared by direct commands
  (PlaybackCommands.execute) and by the two-phase content and move records
  (RoomContent.prepare / start / cancel, RoomMove).

  A coroutine runs without interruption between two awaits, so one event of the model is
  one such segment. Events of different coroutines interleave freely.
 */
module LedgerModel {
  import Runs

  datatype Option<+T> = None | Some(value: T)

  /** A Python dict: the keys in insertion order, and the items. */
  datatype Dict<V> = Dict(order: seq<nat>, items: map<nat, V>)

  /** `d[k] = v`: a new key goes last, an existing key keeps its place. */
  function Put<V>(d: Dict<V>, k: nat, v: V): (r: Dict<V>)
    ensures r.items == d.items[k := v]
  {
    if k in d.items then d.(items := d.items[k := v]) else Dict(d.order + [k], d.items[k := v])
  }

  /** `while len(d) > cap: del d[next(iter(d))]` */
  function EvictOldest<V>(d: Dict<V>, cap: nat): (r: Dict<V>)
    decreases |d.order|
  {
    if |d.order| <= cap then d
    else EvictOldest(Dict(d.order[1..], d.items - {d.order[0]}), cap)
  }

  const MAX_RECEIPTS := 128
  const MAX_CONTENT_RECORDS := 128
  const STAGED_COMMIT_TTL_S := 5

  datatype Outcome = Accepted | Rejected | Unknown

  datatype Receipt = Reservation(fingerprint: nat) | Terminal(fingerprint: nat, outcome: Outcome)

  datatype Kind = Content | Move

  datatype Key = Key(kind: Kind, sequence: nat)

  datatype Stage = Staging | Staged | Committing | Complete | Uncertain | Refused | Cancelled | Expired

  datatype Record = Record(
    fingerprint: nat,
    expectedPoll: nat,
    floor: nat,
    stage: Stage,
    stagedAt: int,
    terminal: Option<Outcome>,
    possibleSend: bool)

  predicate Retirable(r: Record) {
    r.stage == Staging || r.stage == Staged
  }

  /** One suspended coroutine with the locals it will resume with. */
  datatype Task =
    | Exec(sequence: nat, fingerprint: nat, expectedPoll: nat, sent: bool)
    | Preparing(key: Key)
    | Starting(key: Key, sent: bool)
    | QueuePreparing

  predicate HoldsBusy(t: Task) {
    !t.Preparing?
  }

  /** What the outside could observe, in order. */
  datatype Entry =
    | Admitted(sequence: nat)
    | Sent(sequence: nat, basis: nat, record: Option<Key>)
    | Finished(sequence: nat, pollAt: nat)
    | Validated(key: Key)
    | Closed(key: Key, outcome: Outcome)

  datatype State = State(
    sequence: nat,
    busy: bool,
    pollFloor: nat,
    poll: nat,
    receipts: Dict<Receipt>,
    records: map<Key, Record>,
    content: seq<nat>,
    moves: seq<nat>,
    tasks: map<nat, Task>,
    log: seq<Entry>)

  function Init(): State {
    State(0, false, 0, 0, Dict([], map[]), map[], [], [], map[], [])
  }

  /** The sequences still in the record dict of one kind, oldest first. */
  function Linked(s: State, kind: Kind): seq<nat> {
    if kind == Content then s.content else s.moves
  }

  predicate IsLinked(s: State, key: Key) {
    key in s.records && key.sequence in Linked(s, key.kind)
  }

  function Max(a: nat, b: nat): nat {
    if a < b then b else a
  }

  /** `record["terminal"] = ...`: replaces an earlier outcome, if there is one. */
  function WriteTerminal(s: State, key: Key, outcome: Outcome): State
    requires key in s.records
  {
    s.(records := s.records[key := s.records[key].(terminal := Some(outcome))], log := s.log + [Closed(key, outcome)])
  }

  /** `if record["terminal"] is None: record["terminal"] = ...` */
  function Close(s: State, key: Key, outcome: Outcome): State
    requires key in s.records
  {
    if s.records[key].terminal.Some? then s else WriteTerminal(s, key, outcome)
  }

  function SetStage(s: State, key: Key, stage: Stage): State
    requires key in s.records
  {
    s.(records := s.records[key := s.records[key].(stage := stage)])
  }

  /** `commands.receipts[sequence] = fingerprint, record["terminal"]` */
  function Publish(s: State, key: Key): State
    requires key in s.records && s.records[key].terminal.Some?
  {
    s.(receipts := Put(s.receipts, key.sequence, Terminal(s.records[key].fingerprint, s.records[key].terminal.value)))
  }

  /** Retirement and a late start write the outcome without looking for an earlier one. */
  function Expire(s: State, key: Key): State
    requires key in s.records
  {
    Publish(WriteTerminal(SetStage(s, key, Expired), key, Rejected), key)
  }

  function RetireOne(s: State, key: Key, sequence: nat): State {
    if key in s.records && key.sequence < sequence && Retirable(s.records[key])
    then Expire(s, key)
    else s
  }

  /** RoomContent.retire_before over the sequences still in the dict. */
  function RetireIn(s: State, kind: Kind, sequences: seq<nat>, sequence: nat): State
    decreases |sequences|
  {
    if sequences == [] then s
    else RetireIn(RetireOne(s, Key(kind, sequences[0]), sequence), kind, sequences[1..], sequence)
  }

  /** PlaybackCommands.retire_preparations_before */
  function RetireBefore(s: State, sequence: nat): State {
    var t := RetireIn(s, Content, Linked(s, Content), sequence);
    RetireIn(t, Move, Linked(t, Move), sequence)
  }

  datatype PrepareReply = ReplyStaged(now: int) | ReplyStaging | ReplyFailed | PrepareCancelled

  datatype CommitReply = ReplyComplete | ReplyPending | ReplyError

  datatype Event =
    | PollBegin
    | ExecBegin(task: nat, sequence: nat, fingerprint: nat, expectedPoll: nat, valid: bool)
    | ExecSend(task: nat, guardOk: bool, roomPause: bool, observed: nat)
    | ExecFinish(task: nat, outcome: Outcome)
    | PrepareBegin(task: nat, key: Key, fingerprint: nat, expectedPoll: nat, valid: bool, ownerOk: bool, observed: nat)
    | PrepareResume(task: nat, preparation: PrepareReply)
    | StartBegin(task: nat, key: Key, fingerprint: nat, valid: bool, now: int)
    | StartSend(task: nat, ownerOk: bool, observed: nat)
    | StartResume(task: nat, commit: CommitReply)
    | CancelCall(key: Key, matches: bool)
    | QueueBegin(task: nat, sequence: nat, valid: bool)
    | QueueEnd(task: nat)

  /** The synchronous admission part of PlaybackCommands.execute, up to its first await. */
  function StepExecBegin(s: State, task: nat, sequence: nat, fingerprint: nat, expectedPoll: nat, valid: bool): State {
    if task in s.tasks || !valid || sequence in s.receipts.items || sequence <= s.sequence
       || sequence != s.sequence + 1 || s.busy then s
    else
      var r := RetireBefore(s, sequence);
      r.(busy := true,
         sequence := sequence,
         receipts := EvictOldest(Put(r.receipts, sequence, Terminal(fingerprint, Unknown)), MAX_RECEIPTS),
         tasks := r.tasks[task := Exec(sequence, fingerprint, expectedPoll, false)],
         log := r.log + [Admitted(sequence)])
  }

  /** `guard()` then `sending()`: the last synchronous check before the request leaves. */
  function StepExecSend(s: State, task: nat, guardOk: bool, roomPause: bool, observed: nat): State {
    if task !in s.tasks || !s.tasks[task].Exec? || s.tasks[task].sent then s
    else
      var t := s.tasks[task];
      if guardOk && observed <= s.poll && t.expectedPoll > s.pollFloor
         && (observed == t.expectedPoll || (roomPause && observed > t.expectedPoll))
      then s.(tasks := s.tasks[task := Exec(t.sequence, t.fingerprint, t.expectedPoll, true)],
              log := s.log + [Sent(t.sequence, t.expectedPoll, None)])
      else s
  }

  /** The `finally` of execute. */
  function StepExecFinish(s: State, task: nat, outcome: Outcome): State {
    if task !in s.tasks || !s.tasks[task].Exec? then s
    else
      var t := s.tasks[task];
      s.(pollFloor := if t.sent then Max(s.pollFloor, s.poll) else s.pollFloor,
         receipts := Put(s.receipts, t.sequence, Terminal(t.fingerprint, outcome)),
         busy := false,
         tasks := s.tasks - {task},
         log := if t.sent then s.log + [Finished(t.sequence, s.poll)] else s.log)
  }

  /** `self.records[sequence] = record`, then drop the oldest beyond the cap. */
  function LinkLast(linked: seq<nat>, sequence: nat): seq<nat> {
    var grown := linked + [sequence];
    if |grown| > MAX_CONTENT_RECORDS then grown[|grown| - MAX_CONTENT_RECORDS..] else grown
  }

  /** The new record takes the next sequence and remembers the floor of this moment. */
  function ReserveRecord(r: State, task: nat, key: Key, fingerprint: nat, expectedPoll: nat): State {
    r.(sequence := key.sequence,
       records := r.records[key := Record(fingerprint, expectedPoll, r.pollFloor, Staging, 0, None, false)],
       content := if key.kind == Content then LinkLast(r.content, key.sequence) else r.content,
       moves := if key.kind == Move then LinkLast(r.moves, key.sequence) else r.moves,
       receipts := EvictOldest(Put(r.receipts, key.sequence, Reservation(fingerprint)), MAX_RECEIPTS),
       tasks := r.tasks[task := Preparing(key)],
       log := r.log + [Admitted(key.sequence)])
  }

  /** The synchronous reservation in RoomContent.prepare. */
  function StepPrepareBegin(s: State, task: nat, key: Key, fingerprint: nat, expectedPoll: nat,
                            valid: bool, ownerOk: bool, observed: nat): State {
    if task in s.tasks || !valid || IsLinked(s, key) || key.sequence in s.receipts.items
       || key.sequence != s.sequence + 1 || s.busy then s
    else if !ownerOk || observed != expectedPoll || observed > s.poll || observed <= s.pollFloor then s
    else
      ReserveRecord(RetireBefore(s, key.sequence), task, key, fingerprint, expectedPoll)
  }

  /** The `finally` of prepare for a record that did not become staged. */
  function FailPreparation(s: State, task: nat, key: Key, stage: Stage): State
    requires key in s.records
  {
    var c := Close(SetStage(s, key, stage), key, Rejected);
    var p := if key.sequence in c.receipts.items then Publish(c, key) else c;
    p.(tasks := p.tasks - {task})
  }

  function StepPrepareResume(s: State, task: nat, preparation: PrepareReply): State {
    if task !in s.tasks || !s.tasks[task].Preparing? || s.tasks[task].key !in s.records then s
    else
      var key := s.tasks[task].key;
      var stage := s.records[key].stage;
      if preparation.PrepareCancelled? then FailPreparation(s, task, key, Cancelled)
      else if stage != Staging || preparation.ReplyFailed? then
        FailPreparation(s, task, key, if stage == Cancelled || stage == Expired then stage else Uncertain)
      else if preparation.ReplyStaging? then s
      else
        s.(records := s.records[key := s.records[key].(stage := Staged, stagedAt := preparation.now)],
           tasks := s.tasks - {task})
  }

  /** The synchronous part of RoomContent.start, up to consuming commit eligibility. */
  function StepStartBegin(s: State, task: nat, key: Key, fingerprint: nat, valid: bool, now: int): State {
    if task in s.tasks || !valid || !IsLinked(s, key) || key.sequence !in s.receipts.items then s
    else
      var r := s.records[key];
      if fingerprint != r.fingerprint || r.terminal.Some? || r.stage != Staged
         || key.sequence != s.sequence || s.busy then s
      else if now - r.stagedAt >= STAGED_COMMIT_TTL_S then Expire(s, key)
      else SetStage(s, key, Committing).(busy := true, tasks := s.tasks[task := Starting(key, false)])
  }

  /** The last `_fresh` and the check that the record still commits, then the dispatch. */
  function StepStartSend(s: State, task: nat, ownerOk: bool, observed: nat): State {
    if task !in s.tasks || !s.tasks[task].Starting? || s.tasks[task].sent || s.tasks[task].key !in s.records then s
    else
      var key := s.tasks[task].key;
      var r := s.records[key];
      if ownerOk && r.expectedPoll <= observed <= s.poll && observed > r.floor && r.stage == Committing
      then s.(records := s.records[key := r.(possibleSend := true)],
              tasks := s.tasks[task := Starting(key, true)],
              log := s.log + [Sent(key.sequence, observed, Some(key))])
      else s
  }

  /** A completion or an error in start, with its `finally`. */
  function StepStartResume(s: State, task: nat, commit: CommitReply): State {
    if task !in s.tasks || !s.tasks[task].Starting? || s.tasks[task].key !in s.records || commit.ReplyPending? then s
    else
      var key := s.tasks[task].key;
      var sent := s.tasks[task].sent;
      var complete := sent && commit.ReplyComplete?;
      var v := if complete then s.(log := s.log + [Validated(key)]) else s;
      var c := Close(v, key, if complete then Accepted else if sent then Unknown else Rejected);
      var p := Publish(c, key);
      var q := SetStage(p, key, if p.records[key].terminal == Some(Accepted) then Complete
                                else if sent then Uncertain else Refused);
      q.(pollFloor := if sent then Max(q.pollFloor, q.poll) else q.pollFloor,
         busy := false,
         tasks := q.tasks - {task},
         log := if sent then q.log + [Finished(key.sequence, q.poll)] else q.log)
  }

  /** The synchronous part of RoomContent.cancel. */
  function StepCancel(s: State, key: Key, matches: bool): State {
    if !IsLinked(s, key) || !matches || s.records[key].stage == Complete then s
    else
      var possible := s.records[key].possibleSend;
      var m := SetStage(s, key, if possible then Uncertain else Cancelled);
      if s.records[key].terminal.Some? then m
      else Publish(Close(m, key, if possible then Unknown else Rejected), key)
  }

  /** RoomQueue.prepare takes the shared busy flag around its awaits. */
  function StepQueueBegin(s: State, task: nat, sequence: nat, valid: bool): State {
    if task in s.tasks || !valid || sequence != s.sequence + 1 || s.busy then s
    else s.(busy := true, tasks := s.tasks[task := QueuePreparing])
  }

  function StepQueueEnd(s: State, task: nat): State {
    if task !in s.tasks || !s.tasks[task].QueuePreparing? then s
    else s.(busy := false, tasks := s.tasks - {task})
  }

  function Step(s: State, e: Event): State {
    match e
    case PollBegin => s.(poll := s.poll + 1)
    case ExecBegin(task, sequence, fingerprint, expectedPoll, valid) =>
      StepExecBegin(s, task, sequence, fingerprint, expectedPoll, valid)
    case ExecSend(task, guardOk, roomPause, observed) => StepExecSend(s, task, guardOk, roomPause, observed)
    case ExecFinish(task, outcome) => StepExecFinish(s, task, outcome)
    case PrepareBegin(task, key, fingerprint, expectedPoll, valid, ownerOk, observed) =>
      StepPrepareBegin(s, task, key, fingerprint, expectedPoll, valid, ownerOk, observed)
    case PrepareResume(task, preparation) => StepPrepareResume(s, task, preparation)
    case StartBegin(task, key, fingerprint, valid, now) => StepStartBegin(s, task, key, fingerprint, valid, now)
    case StartSend(task, ownerOk, observed) => StepStartSend(s, task, ownerOk, observed)
    case StartResume(task, commit) => StepStartResume(s, task, commit)
    case CancelCall(key, matches) => StepCancel(s, key, matches)
    case QueueBegin(task, sequence, valid) => StepQueueBegin(s, task, sequence, valid)
    case QueueEnd(task) => StepQueueEnd(s, task)
  }

  function Run(es: seq<Event>): State {
    Runs.Run(Step, Init(), es)
  }
}
