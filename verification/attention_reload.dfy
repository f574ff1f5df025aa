/** The journal round trip over whole runs, and the reused nonce that breaks it. */
module AttentionReload {
  import Runs
  import opened CustodyJournal
  import opened AttentionModel
  import opened AttentionGate
  import opened AttentionImages
  import opened AttentionCoverage
  import opened AttentionTheorems

  /** The client's side of the bargain: a begin never repeats a nonce of this process. */
  predicate Fresh(s: State, e: Event) {
    e.Api? && e.api.BeginSession? ==> FreshNonce(s.store.journal, s.process, e.api.nonce)
  }

  predicate FreshRun(es: seq<Event>) {
    forall i :: 0 <= i < |es| ==> Fresh(Run(es[..i]), es[i])
  }

  ghost predicate DistinctInv(c: Store) {
    DistinctOwners(c.disk) && (!c.fault ==> DistinctOwners(c.journal))
  }

  /** A section that adds no session keeps the owners. */
  lemma SameOwners(c: Store, e: Store, x: Option<nat>)
    requires DistinctInv(c) && Writes(c, e, x) && |e.journal| == |c.journal|
    ensures DistinctInv(e)
  {
    if !c.fault {
      forall a, b | 0 <= a < b < |e.journal| ensures Owner(e.journal[a]) != Owner(e.journal[b]) {
        assert SessionGrows(c.journal[a], e.journal[a]) && SessionGrows(c.journal[b], e.journal[b]);
      }
    }
  }

  lemma NativeLength(s: State, e: NativeEvent)
    ensures |StepNative(s, e).store.journal| == |s.store.journal|
  {
    if Moves(e) || e.EvStart? || e.EvDetect? { MoveLength(s, e); } else { WriteLength(s, e); }
  }

  lemma WriteLength(s: State, e: NativeEvent)
    requires e.EvBegin? || e.EvBeginCommit? || e.EvAdopt? || e.EvReleased? || e.EvExit?
    ensures |StepNative(s, e).store.journal| == |s.store.journal|
  {
    match e
    case EvBegin(state, admit, request, save) => BeginLength(s, state, admit, request, save);
    case EvBeginCommit(admit, save) =>
      if s.worker.Native? && s.worker.at.Minted? { RetireLength(Expire(s), s.worker.at.grant, save); }
    case EvAdopt(terminal, save) => AdoptLength(s, terminal, save);
    case EvReleased(save) => ReleasedLength(s, save);
    case EvExit(save) => ExitLength(s, save);
  }

  lemma BeginLength(s: State, state: Option<Identity>, admit: bool, request: nat, save: SaveOutcome)
    ensures |StepBegin(s, state, admit, request, save).store.journal| == |s.store.journal|
  {
  }

  lemma RetireLength(s: State, g: Grant, save: SaveOutcome)
    ensures |RetireOutput(s, g, save).journal| == |s.store.journal|
  {
  }

  lemma AdoptLength(s: State, terminal: Option<Result>, save: SaveOutcome)
    ensures |StepAdopt(s, terminal, save).store.journal| == |s.store.journal|
  {
    if s.worker.Native? && s.worker.at.Lapsed? && s.worker.at.output in s.grants {
      var h := s.grants[s.worker.at.output].(result := terminal);
      RetireLength(s.(grants := s.grants[s.worker.at.output := h]), h, save);
    }
  }

  lemma ReleasedLength(s: State, save: SaveOutcome)
    ensures |StepReleased(s, save).store.journal| == |s.store.journal|
  {
    if s.worker.Native? && s.worker.at.Released? && s.worker.at.output in s.grants {
      RetireLength(s, s.grants[s.worker.at.output], save);
    }
  }

  lemma ExitLength(s: State, save: SaveOutcome)
    ensures |StepExit(s, save).store.journal| == |s.store.journal|
  {
  }

  lemma MoveLength(s: State, e: NativeEvent)
    requires Moves(e) || e.EvStart? || e.EvDetect?
    ensures StepNative(s, e).store.journal == s.store.journal
  {
  }

  lemma CustodyLength(s: State, e: CustodyEvent)
    ensures |StepCustody(s, e).store.journal| == |s.store.journal|
  {
  }

  lemma ApiDistinct(s: State, e: ApiEvent)
    requires Inv(s) && DistinctInv(s.store) && Fresh(s, Api(e))
    ensures DistinctInv(StepApi(s, e).store)
  {
    if e.BeginSession? {
      var t := StepApi(s, e);
      if t.store != s.store {
        var admitted := Session(s.process, s.claim.admission + 1, e.nonce, false, map[]);
        assert t.store.journal == s.store.journal + [admitted];
        forall a, b | 0 <= a < b < |t.store.journal| ensures Owner(t.store.journal[a]) != Owner(t.store.journal[b]) {
          assert Owner(s.store.journal[a]) != (s.process, e.nonce);
        }
      }
    }
  }

  lemma StepDistinct(s: State, e: Event)
    requires Inv(s) && DistinctInv(s.store) && Fresh(s, e)
    ensures DistinctInv(Step(s, e).store)
  {
    match e
    case Api(api) => ApiDistinct(s, api);
    case Reconcile(native) =>
      NativeWrites(s, native);
      NativeLength(s, native);
      SameOwners(s.store, StepNative(s, native).store, Denies(s, native));
    case Recovery(custody) =>
      CustodyWrites(s, custody);
      CustodyLength(s, custody);
      SameOwners(s.store, StepCustody(s, custody).store, None);
  }

  lemma {:induction false} RunDistinct(es: seq<Event>)
    requires FreshRun(es)
    ensures DistinctInv(Run(es).store)
    decreases |es|
  {
    if es != [] {
      var before := es[..|es| - 1];
      forall i | 0 <= i < |before| ensures Fresh(Run(before[..i]), before[i]) {
        assert before[..i] == es[..i];
      }
      RunDistinct(before);
      RunInv(before);
      StepDistinct(Run(before), es[|es| - 1]);
    }
  }

  /**
    With fresh nonces, every image any run leaves on disk loads, and then asks for cleanup exactly when a
    session is unretired.
   */
  lemma ReloadSucceeds(es: seq<Event>, process: nat)
    requires FreshRun(es) && process !in Run(es).history.used
    ensures Loadable(Run(es).store.disk)
    ensures var t := StepCrash(Run(es), process);
      !t.store.fault && t.store.journal == Run(es).store.disk && (t.store.imported <==> Unretired(t.store.journal))
  {
    RunDistinct(es);
    RunInv(es);
  }

  // ----- the reused nonce -----

  /** An idle manager with nothing to retire, whose last session was `nonce`. */
  ghost predicate Quiet(s: State, j: seq<Session>, nonce: nat, admission: nat) {
    && s.process == 1 && s.now == 0 && s.gate == OPEN_GATE && s.store == Store(j, j, false, false) && s.grants == map[]
      && s.worker == Idle
    && s.claim.nonce == nonce && s.claim.admission == admission && !s.claim.active && !s.claim.pendingRelease
    && s.claim.native <= 10 && s.claim.restore <= 10 && admission <= 10
    && forall i :: 0 <= i < |j| ==> j[i].revision <= admission
  }

  /** One reconcile call that finds nothing to restore. */
  function Settle(s: State): State {
    StepExit(StepRestore(StepPoll(StepStart(s, 1, 0, false, false), 0), 0), Saved)
  }

  /** Begin, release, and one reconcile call. */
  function Converse(s: State, nonce: nat): State {
    Settle(StepRelease(StepBeginSession(s, nonce, 1, s.claim.admission, 5, 1, Saved), nonce, 1, s.claim.admission + 1))
  }

  lemma SettleRetires(s: State, j: seq<Session>, nonce: nat, admission: nat)
    requires s.process == 1 && s.gate == OPEN_GATE && s.grants == map[] && s.worker == Idle && nonce != 0
    requires s.claim.nonce == nonce && s.claim.admission == admission && !s.claim.active && s.claim.pendingRelease
    requires s.store == Store(j + [Session(1, admission, nonce, false, map[])],
      j + [Session(1, admission, nonce, false, map[])], false, false)
    requires forall i :: 0 <= i < |j| ==> j[i].revision < admission
    ensures var h := j + [Session(1, admission, nonce, true, map[])];
      Settle(s) == s.(claim := s.claim.(pendingRelease := false), store := Store(h, h, false, false))
  {
    var r := StepRestore(StepPoll(StepStart(s, 1, 0, false, false), 0), 0);
    assert r == s.(gate := s.gate.(busy := true), worker := r.worker) && r.worker.Native? && r.worker.at == Return
      && !r.worker.job.releaseOnly;
    var g := s.store.journal;
    assert g[|j|] == Session(1, admission, nonce, false, map[]);
    assert Current(r) == Some(|j|) by {
      assert forall i :: 0 <= i < |j| ==> g[i] == j[i];
    }
    assert SetRetired(g, |j|) == j + [Session(1, admission, nonce, true, map[])];
  }

  lemma ConverseQuiet(s: State, j: seq<Session>, last: nat, admission: nat, nonce: nat)
    requires Quiet(s, j, last, admission) && nonce != 0 && nonce != last && s.claim.native <= 8 && s.claim.restore <= 8
      && admission <= 8
    ensures Quiet(Converse(s, nonce), j + [Session(1, admission + 1, nonce, true, map[])], nonce, admission + 1)
    ensures Converse(s, nonce).claim.native == s.claim.native + 2
      && Converse(s, nonce).claim.restore == s.claim.restore + 1
  {
    var b := StepBeginSession(s, nonce, 1, admission, 5, 1, Saved);
    var r := StepRelease(b, nonce, 1, admission + 1);
    assert b.store.journal == j + [Session(1, admission + 1, nonce, false, map[])];
    SettleRetires(r, j, nonce, admission + 1);
    var h := j + [Session(1, admission + 1, nonce, true, map[])];
    assert forall i :: 0 <= i < |h| ==> h[i].revision <= admission + 1;
  }

  /** The events of one conversation. */
  function Conversation(nonce: nat, revision: nat): seq<Event> {
    [Api(BeginSession(nonce, 1, revision, 5, 1, Saved)),
     Api(ReleaseSession(nonce, 1, revision + 1)),
     Reconcile(EvStart(1, 0, false, false)),
     Reconcile(EvPoll(0)),
     Reconcile(EvRestore(0)),
     Reconcile(EvExit(Saved))]
  }

  lemma RunTwo(es: seq<Event>, a: Event, b: Event)
    ensures Run(es + [a, b]) == Step(Step(Run(es), a), b)
  {
    Runs.Append(Step, Init(), es, a);
    Runs.Append(Step, Init(), es + [a], b);
    assert es + [a] + [b] == es + [a, b];
  }

  lemma RunFour(es: seq<Event>, a: Event, b: Event, c: Event, d: Event)
    ensures Run(es + [a, b, c, d]) == Step(Step(Step(Step(Run(es), a), b), c), d)
  {
    RunTwo(es, a, b);
    RunTwo(es + [a, b], c, d);
    assert es + [a, b] + [c, d] == es + [a, b, c, d];
  }

  lemma RunSettle(es: seq<Event>)
    ensures Run(es + [Reconcile(EvStart(1, 0, false, false)), Reconcile(EvPoll(0)), Reconcile(EvRestore(0)),
      Reconcile(EvExit(Saved))]) == Settle(Run(es))
  {
    RunFour(es, Reconcile(EvStart(1, 0, false, false)), Reconcile(EvPoll(0)), Reconcile(EvRestore(0)),
      Reconcile(EvExit(Saved)));
  }

  lemma RunBeginRelease(es: seq<Event>, nonce: nat, revision: nat)
    requires revision == Run(es).claim.admission
    ensures Run(es + [Api(BeginSession(nonce, 1, revision, 5, 1, Saved)), Api(ReleaseSession(nonce, 1, revision + 1))])
            == StepRelease(StepBeginSession(Run(es), nonce, 1, revision, 5, 1, Saved), nonce, 1, revision + 1)
  {
    RunTwo(es, Api(BeginSession(nonce, 1, revision, 5, 1, Saved)), Api(ReleaseSession(nonce, 1, revision + 1)));
  }

  lemma RunConversation(es: seq<Event>, nonce: nat)
    ensures Run(es + Conversation(nonce, Run(es).claim.admission)) == Converse(Run(es), nonce)
  {
    var c := Conversation(nonce, Run(es).claim.admission);
    RunBeginRelease(es, nonce, Run(es).claim.admission);
    RunSettle(es + [c[0], c[1]]);
    assert es + c == es + [c[0], c[1]] + [c[2], c[3], c[4], c[5]];
  }

  /**
    Reload demands that a nonce is never reused within a process, but a begin is compared with the
    previous nonce only: sessions A, B, A are all admitted and saved, and then the image does not load.
   */
  lemma ReusedNonceDoesNotLoad(a: nat, b: nat)
    requires a != 0 && b != 0 && a != b
    ensures exists es :: !Run(es).store.fault && |Run(es).store.disk| == 3 && !Loadable(Run(es).store.disk)
  {
    var j1 := [] + [Session(1, 1, a, true, map[])];
    var j2 := j1 + [Session(1, 2, b, true, map[])];
    var e1 := [] + Conversation(a, 0);
    var e2 := e1 + Conversation(b, 1);
    var e3 := e2 + Conversation(a, 2);
    ConversationKeeps([], [], 0, 0, a);
    ConversationKeeps(e1, j1, a, 1, b);
    ConversationKeeps(e2, j2, b, 2, a);
    RepeatedOwner(Run(e3).store.disk, a, b);
  }

  lemma ConversationKeeps(es: seq<Event>, j: seq<Session>, last: nat, admission: nat, nonce: nat)
    requires Quiet(Run(es), j, last, admission) && nonce != 0 && nonce != last && admission <= 2
    requires Run(es).claim.native <= 2 * admission && Run(es).claim.restore <= admission
    ensures var e := es + Conversation(nonce, admission);
      && Quiet(Run(e), j + [Session(1, admission + 1, nonce, true, map[])], nonce, admission + 1)
      && Run(e).claim.native <= 2 * (admission + 1) && Run(e).claim.restore <= admission + 1
  {
    RunConversation(es, nonce);
    ConverseQuiet(Run(es), j, last, admission, nonce);
  }

  lemma RepeatedOwner(j: seq<Session>, a: nat, b: nat)
    requires j == [] + [Session(1, 1, a, true, map[])] + [Session(1, 2, b, true, map[])]
      + [Session(1, 3, a, true, map[])]
    ensures |j| == 3 && !Loadable(j)
  {
    assert Owner(j[0]) == Owner(j[2]);
  }
}
