/**
  When the recorded outcome of a native command changes after it is terminal: exactly when a TTL release is
  adopted.
 */
module AttentionAdoption {
  import opened CustodyJournal
  import opened AttentionModel
  import opened AttentionRequests
  import opened AttentionTheorems
  import AttentionReload

  // ----- the exact condition -----

  /** The command of output `d` has its terminal receipt. */
  predicate Recorded(s: State, d: nat) {
    d in s.grants && s.grants[d].result.Some? && s.grants[d].result.value.outcome != Pending
  }

  function OutcomeOf(s: State, d: nat): Outcome
    requires Recorded(s, d)
  {
    s.grants[d].result.value.outcome
  }

  /** The guards under which the last loop takes the daemon's own release as the result of the grant of `d`. */
  predicate Adopts(s: State, e: Event, d: nat)
    requires d in s.grants
  {
    && e.Reconcile? && e.native.EvAdopt? && s.worker.Native? && s.worker.at.Lapsed? && s.worker.at.output == d
    && !Blocked(s) && Allowed(s, s.worker.job, d)
    && e.native.terminal.Some? && Adoptable(s.grants[d], d, s.worker.at.operation, e.native.terminal.value)
  }

  /** The same command is still held after the event. */
  predicate StillHeld(s: State, t: State, d: nat) {
    d in s.grants && d in t.grants && t.grants[d].command.request == s.grants[d].command.request
  }

  /**
    A terminal outcome changes if and only if a lapsed lease's release is adopted over another outcome, and
    then it is accepted.
   */
  lemma OutcomeChangesIffAdopted(es: seq<Event>, e: Event, d: nat)
    requires Recorded(Run(es), d) && StillHeld(Run(es), Step(Run(es), e), d)
    ensures Recorded(Step(Run(es), e), d)
    ensures OutcomeOf(Step(Run(es), e), d) != OutcomeOf(Run(es), d)
            <==> Adopts(Run(es), e, d) && OutcomeOf(Run(es), d) != ProtocolAccepted
    ensures OutcomeOf(Step(Run(es), e), d) != OutcomeOf(Run(es), d) ==>
      OutcomeOf(Step(Run(es), e), d) == ProtocolAccepted
  {
    RunInv(es);
    var s := Run(es);
    match e
    case Api(api) => ApiKeepsGrant(s, api, d);
    case Reconcile(native) =>
      if native.EvAdopt? { AdoptChanges(s, native, d); } else { NativeKeepsOutcome(s, native, d); }
    case Recovery(custody) => CustodyKeepsGrant(s, custody, d);
  }

  lemma ApiKeepsGrant(s: State, e: ApiEvent, d: nat)
    requires d in s.grants && d in StepApi(s, e).grants
    ensures StepApi(s, e).grants[d] == s.grants[d]
  {
  }

  lemma CustodyKeepsGrant(s: State, e: CustodyEvent, d: nat)
    requires d in s.grants && d in StepCustody(s, e).grants
    ensures StepCustody(s, e).grants[d] == s.grants[d]
  {
  }

  lemma NativeKeepsOutcome(s: State, e: NativeEvent, d: nat)
    requires RequestInv(s) && Recorded(s, d) && StillHeld(s, StepNative(s, e), d) && !e.EvAdopt?
    ensures Recorded(StepNative(s, e), d) && OutcomeOf(StepNative(s, e), d) == OutcomeOf(s, d)
  {
    assert GrantKnown(s, s.grants[d], d);
    if s.worker.Native? && s.worker.at.Minted? { assert Apart(s.worker.at.grant, s.grants[d]); }
  }

  lemma AdoptChanges(s: State, e: NativeEvent, d: nat)
    requires e.EvAdopt? && Recorded(s, d) && StillHeld(s, StepNative(s, e), d)
    ensures StepNative(s, e).grants[d] == if Adopts(s, Reconcile(e), d) then s.grants[d].(result := e.terminal)
      else s.grants[d]
  {
  }

  // ----- a run in which it changes -----

  const SPEAKER: nat := 7
  const BEGIN_REQUEST: nat := 2
  const LAPSE: nat := 9

  function Seen(lease: nat): Identity {
    Identity(3, SPEAKER, 4, 5, 6, lease, false, true)
  }

  const Refusal := Result(Seen(8), BEGIN_REQUEST, 1, Begin, Failed, 0, 0, true)
  const TtlRelease := Result(Seen(8), LAPSE, LAPSE, Release, ProtocolAccepted, 200, 1, true)

  const DuckJob := Job(1, SPEAKER, false, false, 1, 1, 0, true, 5)
  const ReleaseJob := Job(1, 0, false, false, 1, 2, 1, false, 5)
  const Owed := [Session(1, 1, 1, false, map[BEGIN_REQUEST := NewOutput(DuckJob, Seen(0), BEGIN_REQUEST)])]
  const Custody := Store(Owed, Owed, false, false)

  /** The begin of the session and of its lease: the output is in custody and the BEGIN is minted. */
  function Opened(): State {
    StepBegin(StepPoll(StepStart(StepBeginSession(Init(), 1, 1, 0, 5, 0, Saved), 1, SPEAKER, false, false), 0),
              Some(Seen(0)), true, BEGIN_REQUEST, Saved)
  }

  /** The daemon refuses the BEGIN. */
  function Refused(s: State): State {
    StepTargeted(StepReply(StepSubmit(StepBeginCommit(s, true, Saved)), Some(Refusal)))
  }

  /** The client lets go, and another call starts. */
  function LetGo(s: State): State {
    StepPoll(StepStart(StepRelease(StepExit(s, Saved), 1, 1, 1), 1, 0, false, false), SPEAKER)
  }

  /** That call reads the speaker as idle, last released by the daemon itself. */
  function Idled(s: State): State {
    StepDetect(StepRestoreState(StepRestore(StepPoll(s, 0), SPEAKER), Some(Seen(0)), LAPSE, 3), None)
  }

  const RefusedGrant :=
    Grant(Origin(3, BEGIN_REQUEST), Some(Seen(8)), Command(Seen(0), BEGIN_REQUEST, Begin, 5, 2_000), Some(Refusal),
      false, true, 1, 0)

  const Unlocked := Gate(true, true, false, false, 0)

  predicate AtOpened(s: State) {
    && s.process == 1 && s.now == 0 && s.claim == Claim(1, 1, 1, 0, true, false, 5, DEFAULT_TTL, 0)
      && s.store == Custody
    && s.gate == Gate(true, false, false, false, 0) && s.grants == map[]
    && s.worker == Native(DuckJob, Minted(NewGrant(DuckJob, Seen(0), BEGIN_REQUEST, 2_000)))
      && s.history.used == {1, BEGIN_REQUEST}
  }

  predicate AtRefused(s: State) {
    && s.process == 1 && s.now == 0 && s.claim == Claim(1, 1, 1, 0, true, false, 5, DEFAULT_TTL, 0)
      && s.store == Custody
    && s.gate == Unlocked && s.grants == map[SPEAKER := RefusedGrant]
    && s.worker == Native(DuckJob, Return) && s.history.used == {1, BEGIN_REQUEST}
  }

  predicate AtLetGo(s: State) {
    && s.process == 1 && s.claim == Claim(1, 1, 2, 1, false, true, 5, DEFAULT_TTL, 0) && s.store == Custody
    && s.gate == Unlocked && s.grants == map[SPEAKER := RefusedGrant]
    && s.worker == Native(ReleaseJob, Poll({})) && s.history.used == {1, BEGIN_REQUEST}
  }

  predicate AtIdled(s: State) {
    && s.process == 1 && s.store == Custody && s.gate == Unlocked && s.grants == map[SPEAKER := RefusedGrant]
    && s.worker == Native(ReleaseJob, Lapsed(SPEAKER, {}, LAPSE))
  }

  lemma OpenedIs()
    ensures AtOpened(Opened())
  {
    var b := StepBeginSession(Init(), 1, 1, 0, 5, 0, Saved);
    assert b.store.journal == [Session(1, 1, 1, false, map[])];
    var p := StepPoll(StepStart(b, 1, SPEAKER, false, false), 0);
    assert p.worker == Native(DuckJob, AttentionModel.Target);
    assert Current(p) == Some(0);
    assert SetOutput(p.store.journal, 0, BEGIN_REQUEST, NewOutput(DuckJob, Seen(0), BEGIN_REQUEST)) == Owed;
  }

  lemma RefusedIs(s: State)
    requires AtOpened(s)
    ensures AtRefused(Refused(s))
  {
    var c := StepBeginCommit(s, true, Saved);
    assert c.grants == map[SPEAKER := NewGrant(DuckJob, Seen(0), BEGIN_REQUEST, 2_000)];
    var r := StepReply(StepSubmit(c), Some(Refusal));
    assert r.grants == map[SPEAKER := RefusedGrant];
  }

  lemma LetGoIs(s: State)
    requires AtRefused(s)
    ensures AtLetGo(LetGo(s))
  {
    assert SPEAKER in s.grants && s.grants.Keys == {SPEAKER};
    var x := StepExit(s, Saved);
    assert x.worker == Idle && x.gate == Gate(false, true, false, false, 0) && x.store == Custody;
    var r := StepRelease(x, 1, 1, 1);
    assert r.claim == Claim(1, 1, 2, 1, false, true, 5, DEFAULT_TTL, 0);
    var b := StepStart(r, 1, 0, false, false);
    assert b.worker == Native(ReleaseJob, Poll({SPEAKER}));
    assert {SPEAKER} - {SPEAKER} == {};
  }

  lemma IdledIs(s: State)
    requires AtLetGo(s)
    ensures AtIdled(Idled(s))
  {
    assert s.grants.Keys == {SPEAKER};
    var p := StepPoll(s, 0);
    assert p == s.(worker := Native(ReleaseJob, Restore({SPEAKER})));
    assert {SPEAKER} - {SPEAKER} == {};
    var r := StepRestore(p, SPEAKER);
    assert r == s.(worker := Native(ReleaseJob, RestoreGet(SPEAKER, {})));
    ReadIdle(r);
  }

  lemma ReadIdle(s: State)
    requires s.grants == map[SPEAKER := RefusedGrant] && s.worker == Native(ReleaseJob, RestoreGet(SPEAKER, {}))
    requires s.history.used == {1, BEGIN_REQUEST}
    ensures StepDetect(StepRestoreState(s, Some(Seen(0)), LAPSE, 3), None)
      == s.(worker := Native(ReleaseJob, Lapsed(SPEAKER, {}, LAPSE)))
  {
  }

  lemma AdoptionOfLapse(s: State)
    requires AtIdled(s)
    ensures StepAdopt(s, Some(TtlRelease), FailedOld).grants
      == map[SPEAKER := RefusedGrant.(result := Some(TtlRelease))]
  {
  }

  const Opening: seq<Event> :=
    [Api(BeginSession(1, 1, 0, 5, 0, Saved)), Reconcile(EvStart(1, SPEAKER, false, false)), Reconcile(EvPoll(0)),
     Reconcile(EvBegin(Some(Seen(0)), true, BEGIN_REQUEST, Saved))]
  const Refusing: seq<Event> :=
    [Reconcile(EvBeginCommit(true, Saved)), Reconcile(EvSubmit), Reconcile(EvReply(Some(Refusal))),
      Reconcile(EvTargeted)]
  const Leaving: seq<Event> :=
    [Reconcile(EvExit(Saved)), Api(ReleaseSession(1, 1, 1)), Reconcile(EvStart(1, 0, false, false)),
      Reconcile(EvPoll(SPEAKER))]
  const Idling: seq<Event> :=
    [Reconcile(EvPoll(0)), Reconcile(EvRestore(SPEAKER)), Reconcile(EvRestoreState(Some(Seen(0)), LAPSE, 3)),
      Reconcile(EvDetect(None))]

  lemma RunOpening()
    ensures AtOpened(Run([] + Opening))
  {
    OpenedIs();
    AttentionReload.RunFour([], Opening[0], Opening[1], Opening[2], Opening[3]);
  }

  lemma RunRefusing(es: seq<Event>)
    requires AtOpened(Run(es))
    ensures AtRefused(Run(es + Refusing))
  {
    RefusedIs(Run(es));
    RefusingSteps(es);
  }

  lemma RefusingSteps(es: seq<Event>)
    ensures Run(es + Refusing) == Refused(Run(es))
  {
    AttentionReload.RunFour(es, Refusing[0], Refusing[1], Refusing[2], Refusing[3]);
  }

  lemma RunLeaving(es: seq<Event>)
    requires AtRefused(Run(es))
    ensures AtLetGo(Run(es + Leaving))
  {
    LetGoIs(Run(es));
    LeavingSteps(es);
  }

  lemma LeavingSteps(es: seq<Event>)
    ensures Run(es + Leaving) == LetGo(Run(es))
  {
    AttentionReload.RunFour(es, Leaving[0], Leaving[1], Leaving[2], Leaving[3]);
  }

  lemma RunIdling(es: seq<Event>)
    requires AtLetGo(Run(es))
    ensures AtIdled(Run(es + Idling))
  {
    IdledIs(Run(es));
    IdlingSteps(es);
  }

  lemma IdlingSteps(es: seq<Event>)
    ensures Run(es + Idling) == Idled(Run(es))
  {
    AttentionReload.RunFour(es, Idling[0], Idling[1], Idling[2], Idling[3]);
  }

  /** After the run `es`, the event turns the failed command of `d`, which stays held, into an accepted one. */
  predicate Changes(es: seq<Event>, e: Event, d: nat) {
    && Recorded(Run(es), d) && StillHeld(Run(es), Step(Run(es), e), d) && Recorded(Step(Run(es), e), d)
    && OutcomeOf(Run(es), d) == Failed && OutcomeOf(Step(Run(es), e), d) == ProtocolAccepted
  }

  /**
    The refused BEGIN's outcome becomes "protocol accepted": its lease's release is adopted, and the save
    that would retire it fails.
   */
  lemma RefusedBecomesAccepted()
    ensures exists es, e, d :: Changes(es, e, d)
  {
    RunOpening();
    RunRefusing([] + Opening);
    RunLeaving([] + Opening + Refusing);
    RunIdling([] + Opening + Refusing + Leaving);
    Adopted([] + Opening + Refusing + Leaving + Idling);
  }

  lemma Adopted(es: seq<Event>)
    requires AtIdled(Run(es))
    ensures exists e, d :: Changes(es, e, d)
  {
    var e := Reconcile(EvAdopt(Some(TtlRelease), FailedOld));
    AdoptionOfLapse(Run(es));
    assert Step(Run(es), e) == StepAdopt(Run(es), Some(TtlRelease), FailedOld);
    assert Changes(es, e, SPEAKER);
  }
}
