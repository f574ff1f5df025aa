/** What every run of the attention manager shows: lost replies, interleavings, failed saves and crashes included. */
module AttentionTheorems {
  import Runs
  import opened CustodyJournal
  import opened AttentionModel
  import opened AttentionImages
  import opened AttentionCustodyProofs
  import opened AttentionRequests
  import opened AttentionReceipts
  import opened AttentionCoverage
  import opened AttentionWatchdog

  ghost predicate Inv(s: State) {
    CustodyInv(s) && RequestInv(s) && ReceiptInv(s) && CoverInv(s) && TtlInv(s)
  }

  lemma ApiInv(s: State, e: ApiEvent)
    requires Inv(s)
    ensures RequestInv(StepApi(s, e)) && ReceiptInv(StepApi(s, e)) && CoverInv(StepApi(s, e)) && TtlInv(StepApi(s, e))
  {
    ApiRequests(s, e);
    ApiReceipts(s, e);
    ApiCovered(s, e);
    ApiTtl(s, e);
  }

  lemma NativeInv(s: State, e: NativeEvent)
    requires Inv(s)
    ensures RequestInv(StepNative(s, e)) && ReceiptInv(StepNative(s, e)) && CoverInv(StepNative(s, e))
      && TtlInv(StepNative(s, e))
  {
    NativeRequests(s, e);
    NativeReceipts(s, e);
    NativeCovered(s, e);
    NativeTtl(s, e);
  }

  lemma RecoveryInv(s: State, e: CustodyEvent)
    requires Inv(s)
    ensures RequestInv(StepCustody(s, e)) && ReceiptInv(StepCustody(s, e)) && CoverInv(StepCustody(s, e))
      && TtlInv(StepCustody(s, e))
  {
    CustodyRequests(s, e);
    CustodyReceipts(s, e);
    CustodyCovered(s, e);
    CustodyTtl(s, e);
  }

  lemma StepInv(s: State, e: Event)
    requires Inv(s)
    ensures Inv(Step(s, e))
  {
    StepKeeps(s, e);
    match e
    case Api(api) => ApiInv(s, api);
    case Reconcile(native) => NativeInv(s, native);
    case Recovery(custody) => RecoveryInv(s, custody);
  }

  lemma RunInv(es: seq<Event>)
    ensures Inv(Run(es))
  {
    forall s: State, e: Event | Inv(s) ensures Inv(Step(s, e)) { StepInv(s, e); }
    Runs.Invariant(Step, Init(), (s: State) => Inv(s), es);
  }

  // ----- crash coverage -----

  /** An output that was submitted, and that is retired only with an exact release or recovery receipt. */
  predicate OwedOrProved(o: Output) {
    !o.noSubmission && (o.retired ==> ValidRelease(o) || Proved(o))
  }

  /**
    Every BEGIN ever sent has its output on disk now, retired only by an exact receipt for its original
    process and device.
   */
  lemma CrashCoverage(es: seq<Event>, i: nat)
    requires i < |Run(es).history.sent| && Run(es).history.sent[i].action == Begin
    ensures var p := Run(es).history.sent[i]; var j := Run(es).store.disk;
      exists k :: 0 <= k < |j| && CoveredBy(j[k], p.request, p.device, p.expected)
        && OwedOrProved(j[k].outputs[p.request])
  {
    RunInv(es);
    var s := Run(es);
    var p := s.history.sent[i];
    assert Vouched(s.store, p.request, p.device, p.expected);
    var k :| 0 <= k < |s.store.disk| && CoveredBy(s.store.disk[k], p.request, p.device, p.expected);
    assert SessionLoads(s.store.disk[k]);
    assert OutputLoads(s.store.disk[k].retired, p.request, s.store.disk[k].outputs[p.request]);
  }

  /** The output of a BEGIN is on disk before the BEGIN leaves. */
  lemma DurableBeforeSend(es: seq<Event>)
    requires var s := Run(es); var t := StepSubmit(s);
      |t.history.sent| == |s.history.sent| + 1 && t.history.sent[|s.history.sent|].action == Begin
    ensures var s := Run(es); var p := StepSubmit(s).history.sent[|s.history.sent|];
      Covered(s.store.disk, p.request, p.device, p.expected)
  {
    RunInv(es);
    var s := Run(es);
    assert GrantVouched(s, s.grants[s.worker.at.output], s.worker.at.output);
  }

  /** The disk never forgets a session, an output, its original or its retirement, whatever happens next. */
  lemma DiskNeverForgets(es: seq<Event>, more: seq<Event>)
    ensures Grows(Run(es).store.disk, Run(es + more).store.disk)
  {
    var inv := (s: State) => Inv(s);
    var rel := (s: State, t: State) => Grows(s.store.disk, t.store.disk);
    forall s: State, e: Event | inv(s) ensures inv(Step(s, e)) { StepInv(s, e); }
    forall s: State ensures rel(s, s) { GrowsReflexive(s.store.disk); }
    forall s: State, t: State, e: Event | inv(t) && rel(s, t) ensures rel(s, Step(t, e)) {
      DiskGrows(t, e);
      GrowsTransitive(s.store.disk, t.store.disk, Step(t, e).store.disk);
    }
    Runs.Connected(Step, Init(), inv, rel, es, more);
  }

  lemma DiskGrows(s: State, e: Event)
    requires Inv(s)
    ensures Grows(s.store.disk, Step(s, e).store.disk)
  {
    match e
    case Api(api) => ApiDiskGrows(s, api);
    case Reconcile(native) =>
      NativeWrites(s, native);
      WritesGrow(s.store, StepNative(s, native).store, Denies(s, native));
    case Recovery(custody) =>
      CustodyWrites(s, custody);
      WritesGrow(s.store, StepCustody(s, custody).store, None);
  }

  lemma ApiDiskGrows(s: State, e: ApiEvent)
    requires StoreOk(s.store)
    ensures Grows(s.store.disk, StepApi(s, e).store.disk)
  {
    GrowsReflexive(s.store.disk);
    if e.BeginSession? {
      BeginSessionWrites(s, e.nonce, e.process, e.revision, e.level, e.ttl, e.save);
      WritesGrow(s.store, StepApi(s, e).store, None);
    }
  }

  // ----- one owner -----

  /** At most one session is unretired, on disk and in memory. */
  lemma OneUnretiredSession(es: seq<Event>)
    ensures OneOpen(Run(es).store.disk)
    ensures !Run(es).store.fault ==> OneOpen(Run(es).store.journal)
  {
    RunInv(es);
  }

  /** A begin is admitted only when every earlier session is retired, no grant is outstanding and nobody works. */
  lemma BeginAdmittedAlone(es: seq<Event>, nonce: nat, process: nat, revision: nat, level: int, ttl: int,
    save: SaveOutcome)
    requires StepBeginSession(Run(es), nonce, process, revision, level, ttl, save).store != Run(es).store
    ensures !Unretired(Run(es).store.journal) && Run(es).grants == map[] && Run(es).worker == Idle
  {
    RunInv(es);
    ExpireKeeps(Run(es));
    BeginNeedsAllRetired(Expire(Run(es)), nonce, process, revision);
  }

  // ----- requests and receipts -----

  /** Every command request is submitted at most once over whole runs. */
  lemma SubmittedAtMostOnce(es: seq<Event>, i: nat, j: nat)
    requires i < j < |Run(es).history.sent|
    ensures Run(es).history.sent[i].request != Run(es).history.sent[j].request
  {
    RunInv(es);
  }

  /** Only a pending receipt is followed by another of the same command; all receipts of one lease name one lease. */
  lemma ReceiptsNeverChange(es: seq<Event>, i: nat, j: nat)
    requires i < j < |Run(es).history.receipts|
    ensures AgreeOn(Run(es).history.receipts[i], Run(es).history.receipts[j])
  {
    RunInv(es);
  }

  // ----- exclusion and the watchdog -----

  /**
    Custody cleanup and release-only settlement never overlap an admitted direct effect, and imported custody
    never ducks.
   */
  lemma CleanupExcludesEffects(es: seq<Event>)
    ensures var s := Run(es);
      && (s.gate.settling || (s.worker.Custody? && s.worker != Custody(CReturn)) ==> s.gate.effects == 0)
      && (s.store.imported ==> !s.claim.active)
  {
    RunInv(es);
  }

  /**
    Every BEGIN and UPDATE has a TTL of 1 ms to 15 s ending within 15 s of the last heartbeat, and none is
    sent under imported custody.
   */
  lemma WatchdogBound(es: seq<Event>, i: nat)
    requires i < |Run(es).history.sent| && Ducks(Run(es).history.sent[i].action)
    ensures var p := Run(es).history.sent[i];
      && 1 <= p.ttl <= 15_000 && p.mint.at + p.ttl * MS <= p.mint.deadline <= p.mint.beat + MAX_TTL
      && p.mint.beat <= p.mint.at && !p.imported
  {
    RunInv(es);
  }

  // ----- the journal round trip -----

  /** An image that any run has on disk loads exactly when no two of its sessions answer to one owner. */
  lemma ImagesLoadUnlessOwnersRepeat(es: seq<Event>)
    ensures Loadable(Run(es).store.disk) <==> DistinctOwners(Run(es).store.disk)
  {
    RunInv(es);
  }

  /** A nonce that no session of this process has used. */
  predicate FreshNonce(j: seq<Session>, process: nat, nonce: nat) {
    forall i :: 0 <= i < |j| ==> Owner(j[i]) != (process, nonce)
  }

  /** The saved image of an admitted begin loads if and only if its nonce is fresh in the journal. */
  lemma BeginLoadsIffFresh(es: seq<Event>, nonce: nat, process: nat, revision: nat, level: int, ttl: int)
    requires Loadable(Run(es).store.journal)
    requires StepBeginSession(Run(es), nonce, process, revision, level, ttl,
      Saved).claim.admission != Run(es).claim.admission
    ensures Loadable(StepBeginSession(Run(es), nonce, process, revision, level, ttl, Saved).store.disk)
            <==> FreshNonce(Run(es).store.journal, process, nonce)
  {
    RunInv(es);
    var s := Run(es);
    var j := s.store.journal;
    var h := StepBeginSession(s, nonce, process, revision, level, ttl, Saved).store.disk;
    var admitted := Session(s.process, s.claim.admission + 1, nonce, false, map[]);
    assert h == j + [admitted];
    AppendLoads(j, admitted);
  }

  lemma AppendLoads(j: seq<Session>, t: Session)
    requires Loadable(j) && SessionLoads(t)
    ensures Loadable(j + [t]) <==> FreshNonce(j, t.process, t.nonce)
  {
    var h := j + [t];
    assert h[|j|] == t;
    assert forall i :: 0 <= i < |j| ==> h[i] == j[i];
    if !FreshNonce(j, t.process, t.nonce) {
      var i :| 0 <= i < |j| && Owner(j[i]) == (t.process, t.nonce);
      assert Owner(h[i]) == Owner(h[|j|]);
    } else {
      forall a, b | 0 <= a < b < |h| ensures Owner(h[a]) != Owner(h[b]) {
        assert b == |j| ==> Owner(j[a]) != (t.process, t.nonce);
      }
    }
  }
}
