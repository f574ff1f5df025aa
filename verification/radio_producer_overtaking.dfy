/**
  A concrete run in which a new record is older than a journaled one: radio plays, its next operation is
  stuck in CaptureIntent while Spotify preempts the source, and a later operation journals and settles first.
 */
module RadioProducerOvertaking {
  import Runs
  import opened RadioProducerModel

  /** What the run depends on; the log, the live and the retained holds may be anything. */
  predicate At(s: State, counter: nat, pending: nat, issued: map<nat, nat>, records: map<nat, Record>, tasks: map<nat,
    Task>) {
    && s.ready && s.process == 1 && s.counter == counter && s.pending == pending && s.issued == issued
    && s.records == records && s.tasks == tasks && s.used == records.Keys
  }

  const NativeHold := Hold(1, 5, 1, 3, 11, 0)
  const SenderHold := Hold(2, 5, 1, 3, 12, 1)
  const Reserving := Fence(0, 5, 6, 1)
  const Playing := Fence(1, 5, 6, 1)
  const Takeover := Request(1, 5, 1, 3, 11, 40, 41)

  /** The record of the first operation, which is not preempted yet. */
  function First(fence: Fence, native: Option<Hold>, sender: Option<Hold>, stage: Stage): Record {
    Record(fence, 1, 3, native, sender, None, None, stage, false, 0, 0, stage == Finished,
           if stage == Finished then Committed else Unset, false, None, false)
  }

  function Effective(stage: Stage): Record {
    First(Playing, Some(NativeHold), Some(SenderHold), stage)
  }

  const Revoked := Effective(Finished).(
    preempted := true, preemptAction := 40, challenge := 41, terminal := false, stage := PreemptDrainAttempted)

  const Drained := Revoked.(terminal := true, ticket := Some(50), stage := PreemptedStage, outcome := Preempted)

  /** The record of the last operation. */
  function Last(stage: Stage): Record {
    Record(Fence(0, 20, 8, 5), 1, 3, None, None, None, None, stage, false, 0, 0, stage == PreflightRejected,
           if stage == PreflightRejected then Rejected else Unset, false, None, false)
  }

  const Stuck := Capturing(2, 7, 3)

  // ----- one event more -----

  ghost predicate Reached(s: State) {
    exists es :: Run(es) == s
  }

  lemma Go(s: State, e: Event)
    requires Reached(s)
    ensures Reached(Step(s, e))
  {
    var es :| Run(es) == s;
    Runs.Append(Step, Init(), es, e);
    assert Run(es + [e]) == Step(s, e);
  }

  lemma GoControl(s: State, e: ControlEvent) returns (t: State)
    requires Reached(s)
    ensures Reached(t) && t == StepControl(s, e)
  {
    Go(s, Control(e));
    t := Step(s, Control(e));
  }

  lemma GoOpen(s: State, e: OpenEvent) returns (t: State)
    requires Reached(s)
    ensures Reached(t) && t == StepOpen(s, e)
  {
    Go(s, Opening(e));
    t := Step(s, Opening(e));
  }

  lemma GoHold(s: State, e: HoldEvent) returns (t: State)
    requires Reached(s)
    ensures Reached(t) && t == StepHolding(s, e)
  {
    Go(s, Holding(e));
    t := Step(s, Holding(e));
  }

  lemma GoEffect(s: State, e: EffectEvent) returns (t: State)
    requires Reached(s)
    ensures Reached(t) && t == StepEffect(s, e)
  {
    Go(s, Effect(e));
    t := Step(s, Effect(e));
  }

  lemma GoPreempt(s: State, e: PreemptEvent) returns (t: State)
    requires Reached(s)
    ensures Reached(t) && t == StepPreemption(s, e)
  {
    Go(s, Preemption(e));
    t := Step(s, Preemption(e));
  }

  // ----- the run -----

  /** The first operation is admitted and captures its intent. */
  predicate Opened(s: State) {
    At(s, 1, 1, map[1 := 6], map[], map[1 := Capturing(1, 6, 3)]) && s.active == 0
  }

  /** The first operation is about to call a port, or has called it. */
  predicate Called(s: State, kind: Kind, r: Record, called: bool) {
    At(s, 1, 1, map[1 := 6], map[5 := r], map[1 := Effecting(kind, r.fence, called, Ask)])
  }

  /** The first operation is between two effects. */
  predicate Rests(s: State, r: Record) {
    At(s, 1, 1, map[1 := 6], map[5 := r], map[])
  }

  /** The second operation captures its intent while the first's source is preempted. */
  predicate Preempting(s: State, r: Record, tasks: map<nat, Task>) {
    At(s, 2, 2, map[1 := 6, 2 := 7], map[5 := r], tasks)
  }

  /** The third operation is admitted. */
  predicate ThirdIssued(s: State, tasks: map<nat, Task>) {
    At(s, 5, 5, map[1 := 6, 2 := 7, 5 := 8], map[5 := Drained], tasks)
  }

  /** The third operation's record is journaled. */
  predicate ThirdStored(s: State, called: bool) {
    At(s, 5, 5, map[1 := 6, 2 := 7, 5 := 8], map[5 := Drained, 20 := Last(PreflightAttempted)],
       map[1 := Stuck, 2 := Effecting(SenderPreflight, Fence(0, 20, 8, 5), called, Ask)])
  }

  /** The third operation is rejected by its peer. */
  predicate ThirdSettled(s: State) {
    At(s, 5, 5, map[1 := 6, 2 := 7, 5 := 8], map[5 := Drained, 20 := Last(PreflightRejected)], map[1 := Stuck])
  }

  lemma Opens() returns (t: State)
    ensures Reached(t) && Opened(t)
  {
    assert Run([]) == Init();
    assert FloorOf(Init().records, 0);
    t := GoControl(Init(), Enable(1, 0));
    t := GoControl(t, Issue(6));
    t := GoOpen(t, Preflight(1, 1, 3));
  }

  lemma Captures(s: State) returns (t: State)
    requires Reached(s) && Opened(s)
    ensures Reached(t) && Called(t, SenderPreflight, First(Reserving, None, None, PreflightAttempted), false)
      && t.active == 0
  {
    t := GoOpen(s, Captured(1, true, 5, true));
  }

  /** The port call of the first operation leaves. */
  lemma Calls(s: State, kind: Kind, r: Record) returns (t: State)
    requires Reached(s) && Called(s, kind, r, false) && r.fence.token == 5 && (kind == PauseSuspend ==> !KeepsSource(r))
    ensures Reached(t) && Called(t, kind, r, true) && t.active == s.active
  {
    t := GoEffect(s, Call(1));
  }

  lemma Prepares(s: State) returns (t: State)
    requires Reached(s) && Called(s, SenderPreflight, First(Reserving, None, None, PreflightAttempted), true)
      && s.active == 0
    ensures Reached(t) && Rests(t, First(Reserving, None, None, PreflightPrepared)) && t.active == 0
  {
    t := GoOpen(s, PreparedReply(1, Prepared, true));
  }

  lemma Reserves(s: State) returns (t: State)
    requires Reached(s) && Rests(s, First(Reserving, None, None, PreflightPrepared)) && s.active == 0
    ensures Reached(t) && Called(t, NativeReserve, First(Reserving, None, None, NativeReserveAttempted), false)
  {
    t := GoOpen(s, Reserve(1, 1, 5, 3, false, false, true));
  }

  lemma NativeGrants(s: State) returns (t: State)
    requires Reached(s) && Called(s, NativeReserve, First(Reserving, None, None, NativeReserveAttempted), true)
    ensures Reached(t) && Called(t, SenderReserve, First(Reserving, Some(NativeHold), None, SenderReserveAttempted),
      false)
  {
    t := GoHold(s, NativeAnswer(1, Granted(NativeHold), true));
  }

  lemma SenderGrants(s: State) returns (t: State)
    requires Reached(s) && Called(s, SenderReserve, First(Reserving, Some(NativeHold), None, SenderReserveAttempted),
      true)
    ensures Reached(t) && Rests(t, Effective(ReservedStage))
  {
    t := GoHold(s, SenderAnswer(1, Some(SenderHold), true));
  }

  /** The next effect of the first operation is admitted. */
  lemma Admits(s: State, kind: Kind, stage: Stage) returns (t: State)
    requires Reached(s) && Rests(s, Effective(stage)) && stage != Finished && Fenced(kind) && Permitted(kind, stage)
    ensures Reached(t) && Called(t, kind, Effective(AttemptedStage(kind)), false)
  {
    t := GoEffect(s, Admit(1, kind, Playing, true, true));
  }

  lemma Advances(s: State, kind: Kind) returns (t: State)
    requires Reached(s) && Called(s, kind, Effective(AttemptedStage(kind)), true)
      && (kind == PauseSuspend || kind == StartSource)
    ensures Reached(t) && Rests(t, Effective(AdvancedStage(kind)))
  {
    t := GoEffect(s, Advance(1, kind, true, true));
  }

  lemma Finishes(s: State) returns (t: State)
    requires Reached(s) && Called(s, FinishOperation, Effective(FinishAttempted), true)
    ensures Reached(t) && Rests(t, Effective(Finished))
  {
    t := GoEffect(s, FinishReply(1, true, true, true));
  }

  /** Radio plays, and the second operation is admitted and captures its intent. */
  lemma IssuesSecond(s: State) returns (t: State)
    requires Reached(s) && Rests(s, Effective(Finished))
    ensures Reached(t) && Preempting(t, Effective(Finished), map[1 := Stuck])
  {
    t := GoControl(s, Complete);
    t := GoControl(t, Issue(7));
    t := GoOpen(t, Preflight(1, 2, 3));
  }

  /** Spotify takes the source meanwhile... */
  lemma Preempts(s: State) returns (t: State)
    requires Reached(s) && Preempting(s, Effective(Finished), map[1 := Stuck])
    ensures Reached(t) && Preempting(t, Revoked, map[1 := Stuck, 9 := Draining(5, Takeover)])
  {
    assert Newest(s.records, Takeover, 5);
    t := GoPreempt(s, Preempt(9, Takeover, 5, true));
  }

  /** ...and the sender drains it. */
  lemma Drains(s: State) returns (t: State)
    requires Reached(s) && Preempting(s, Revoked, map[1 := Stuck, 9 := Draining(5, Takeover)])
    ensures Reached(t) && Preempting(t, Drained, map[1 := Stuck])
  {
    DrainIs(s);
    t := GoPreempt(s, DrainReply(9, Some(50), true));
  }

  lemma DrainIs(s: State)
    requires Preempting(s, Revoked, map[1 := Stuck, 9 := Draining(5, Takeover)])
    ensures Preempting(StepDrained(s, 9, Some(50), true), Drained, map[1 := Stuck])
  {
    var t := StepDrained(s, 9, Some(50), true);
    assert t.tasks == map[1 := Stuck];
    assert t.records[5] == Drained;
  }

  /** The presentation is revoked and reconciled, and the third operation admitted. */
  lemma IssuesThird(s: State) returns (t: State)
    requires Reached(s) && Preempting(s, Drained, map[1 := Stuck])
    ensures Reached(t) && ThirdIssued(t, map[1 := Stuck])
  {
    t := GoControl(s, Revoke(5));
    t := GoControl(t, Move);
    t := GoControl(t, Issue(8));
  }

  lemma CapturesThird(s: State) returns (t: State)
    requires Reached(s) && ThirdIssued(s, map[1 := Stuck])
    ensures Reached(t) && ThirdIssued(t, map[1 := Stuck, 2 := Capturing(5, 8, 3)])
  {
    t := GoOpen(s, Preflight(2, 5, 3));
  }

  lemma StoresThird(s: State) returns (t: State)
    requires Reached(s) && ThirdIssued(s, map[1 := Stuck, 2 := Capturing(5, 8, 3)])
    ensures Reached(t) && ThirdStored(t, false)
  {
    StoredIs(s);
    t := GoOpen(s, Captured(2, true, 20, true));
  }

  lemma StoredIs(s: State)
    requires ThirdIssued(s, map[1 := Stuck, 2 := Capturing(5, 8, 3)])
    ensures ThirdStored(StepCaptured(s, 2, true, 20, true), false)
  {
    assert AllSettled(s.records, 8);
    var t := StepCaptured(s, 2, true, 20, true);
    assert t.records == s.records[20 := Last(PreflightAttempted)];
  }

  lemma CallsThird(s: State) returns (t: State)
    requires Reached(s) && ThirdStored(s, false)
    ensures Reached(t) && ThirdStored(t, true)
  {
    t := GoEffect(s, Call(2));
  }

  lemma SettlesThird(s: State) returns (t: State)
    requires Reached(s) && ThirdStored(s, true)
    ensures Reached(t) && ThirdSettled(t)
  {
    t := GoOpen(s, PreparedReply(2, Unavailable, true));
    assert t.tasks == map[1 := Stuck];
  }

  lemma StoresSecond(s: State)
    requires ThirdSettled(s)
    ensures var t := StepCaptured(s, 1, true, 10, true);
      10 in t.records && 10 !in s.records && t.records[10].fence.generation == 2 && 20 in s.records
        && s.records[20].fence.generation == 5
  {
    assert AllSettled(s.records, 7);
  }

  lemma Holds() returns (t: State)
    ensures Reached(t) && Rests(t, Effective(ReservedStage))
  {
    t := Opens();
    t := Captures(t);
    t := Calls(t, SenderPreflight, First(Reserving, None, None, PreflightAttempted));
    t := Prepares(t);
    t := Reserves(t);
    t := Calls(t, NativeReserve, First(Reserving, None, None, NativeReserveAttempted));
    t := NativeGrants(t);
    t := Calls(t, SenderReserve, First(Reserving, Some(NativeHold), None, SenderReserveAttempted));
    t := SenderGrants(t);
  }

  lemma Plays(s: State) returns (t: State)
    requires Reached(s) && Rests(s, Effective(ReservedStage))
    ensures Reached(t) && Rests(t, Effective(Finished))
  {
    t := Admits(s, PauseSuspend, ReservedStage);
    t := Calls(t, PauseSuspend, Effective(PauseAttempted));
    t := Advances(t, PauseSuspend);
    t := Admits(t, StartSource, Suspended);
    t := Calls(t, StartSource, Effective(StartAttempted));
    t := Advances(t, StartSource);
    t := Admits(t, FinishOperation, Started);
    t := Calls(t, FinishOperation, Effective(FinishAttempted));
    t := Finishes(t);
  }

  lemma Overtakes() returns (t: State)
    ensures Reached(t) && ThirdSettled(t)
  {
    t := Holds();
    t := Plays(t);
    t := IssuesSecond(t);
    t := Preempts(t);
    t := Drains(t);
    t := IssuesThird(t);
    t := CapturesThird(t);
    t := StoresThird(t);
    t := CallsThird(t);
    t := SettlesThird(t);
  }

  /** This event stores a new record that is older than a record the journal already holds. */
  ghost predicate OvertakenBy(es: seq<Event>, e: Event, key: nat, newer: nat) {
    && key in Step(Run(es), e).records && key !in Run(es).records && newer in Run(es).records
    && Step(Run(es), e).records[key].fence.generation < Run(es).records[newer].fence.generation
  }

  /** A new record does not always exceed all journaled generations. */
  lemma NewRecordMayBeOlder()
    ensures exists es, e, key, newer :: OvertakenBy(es, e, key, newer)
  {
    var s := Overtakes();
    var es :| Run(es) == s;
    StoresSecond(s);
    assert OvertakenBy(es, Opening(Captured(1, true, 10, true)), 10, 20);
  }
}
