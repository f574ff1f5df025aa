/** The watchdog bound: no BEGIN or UPDATE holds a room longer than 15 s past the last accepted heartbeat. */
module AttentionWatchdog {
  import opened CustodyJournal
  import opened AttentionModel
  import opened AttentionGate
  import opened AttentionRequests

  /** A TTL of 1 ms to 15 s that ends within the permission it was minted under. */
  predicate InTime(ttl: int, m: Mint) {
    1 <= ttl <= 15_000 && m.at + ttl * MS <= m.deadline <= m.beat + MAX_TTL && m.beat <= m.at
  }

  predicate Ducks(a: Action) {
    a == Begin || a == Update
  }

  ghost predicate ClockInv(s: State) {
    0 <= s.now && s.claim.deadline <= s.claim.beat + MAX_TTL && s.claim.beat <= s.now
  }

  /** A ducking command about to be submitted carries its exact residual, and no custody is imported. */
  ghost predicate GrantInTime(s: State, g: Grant) {
    !g.submitted && Ducks(g.command.action) && AtPutAny(s) ==>
      InTime(g.command.ttl, s.worker.at.mint) && !s.store.imported
  }

  ghost predicate SentInTime(h: History) {
    forall i :: 0 <= i < |h.sent| && Ducks(h.sent[i].action) ==>
      InTime(h.sent[i].ttl, h.sent[i].mint) && !h.sent[i].imported
  }

  ghost predicate TtlInv(s: State) {
    ClockInv(s) && SentInTime(s.history) && forall d :: d in s.grants ==> GrantInTime(s, s.grants[d])
  }

  lemma ResidualInTime(s: State)
    requires ClockInv(s) && (s.claim.deadline - s.now) / MS > 0
    ensures InTime(Residual(s), MintNow(s))
  {
  }

  lemma ApiTtl(s: State, e: ApiEvent)
    requires TtlInv(s) && GateInv(s)
    ensures TtlInv(StepApi(s, e))
  {
    var t := StepApi(s, e);
    if !e.Crash? {
      assert t.grants == s.grants && t.worker == s.worker && t.history == s.history
        && t.store.imported == s.store.imported;
      forall d | d in t.grants ensures GrantInTime(t, t.grants[d]) { assert GrantInTime(s, s.grants[d]); }
    }
  }

  /** A turn that does not submit: what is about to be submitted afterwards was so before. */
  lemma TurnTtl(s: State, t: State)
    requires TtlInv(s) && ClockInv(t) && t.history.sent == s.history.sent
    requires AtPutAny(t) ==> t.grants == s.grants && t.worker == s.worker && t.store.imported == s.store.imported
    ensures TtlInv(t)
  {
    forall d | d in t.grants ensures GrantInTime(t, t.grants[d]) {
      if AtPutAny(t) { assert GrantInTime(s, s.grants[d]); }
    }
  }

  /** The one command that a mint leaves unsubmitted. */
  lemma MintTtl(s: State, t: State, d: nat)
    requires TtlInv(s) && GrantsKnown(s) && !AtPutAny(s) && ClockInv(t) && t.history.sent == s.history.sent
      && AtPutAny(t)
    requires d in t.grants && t.grants == s.grants[d := t.grants[d]] && GrantInTime(t, t.grants[d])
    ensures TtlInv(t)
  {
    forall e | e in t.grants ensures GrantInTime(t, t.grants[e]) {
      assert e != d ==> GrantKnown(s, s.grants[e], e);
    }
  }

  lemma UpdateTtl(s: State, state: Option<Identity>, admit: bool, request: nat)
    requires TtlInv(s) && RequestInv(s) && GateInv(s)
    ensures TtlInv(StepUpdate(s, state, admit, request))
  {
    var t := StepUpdate(s, state, admit, request);
    if t.history == s.history {
      TurnTtl(s, t);
    } else {
      ResidualInTime(Expire(s));
      MintTtl(s, t, s.worker.job.target);
    }
  }

  lemma RestoreTtl(s: State, state: Option<Identity>, lastRelease: nat, request: nat)
    requires TtlInv(s) && RequestInv(s)
    ensures TtlInv(StepRestoreState(s, state, lastRelease, request))
  {
    var t := StepRestoreState(s, state, lastRelease, request);
    if t.history == s.history { TurnTtl(s, t); } else { MintTtl(s, t, s.worker.at.output); }
  }

  lemma CommitTtl(s: State, admit: bool, save: SaveOutcome)
    requires TtlInv(s) && RequestInv(s) && GateInv(s)
    ensures TtlInv(StepBeginCommit(s, admit, save))
  {
    var t := StepBeginCommit(s, admit, save);
    if s.worker.Native? && s.worker.at.Minted? {
      if t.worker.at.Return? {
        TurnTtl(s, t);
      } else {
        ResidualInTime(Expire(s));
        MintTtl(s, t, s.worker.job.target);
      }
    }
  }

  lemma SubmitTtl(s: State)
    requires TtlInv(s) && RequestInv(s)
    ensures TtlInv(StepSubmit(s))
  {
    if s.worker.Native? && s.worker.at.Put? && s.worker.at.output in s.grants {
      assert GrantInTime(s, s.grants[s.worker.at.output]);
    }
  }

  lemma PlainTtl(s: State, e: NativeEvent)
    requires TtlInv(s) && ShapeInv(s) && !e.EvUpdate? && !e.EvRestoreState? && !e.EvBeginCommit? && !e.EvSubmit?
    ensures TtlInv(StepNative(s, e))
  {
    PlainTurn(s, e);
    TurnTtl(s, StepNative(s, e));
  }

  /** No grant or mint is made, and no command leaves. */
  ghost predicate PlainStep(s: State, t: State) {
    && ClockInv(t) && t.history.sent == s.history.sent
    && (AtPutAny(t) ==> t.grants == s.grants && t.worker == s.worker && t.store.imported == s.store.imported)
  }

  predicate Reads(e: NativeEvent) {
    e.EvStart? || e.EvPoll? || e.EvObserved? || e.EvRecheck? || e.EvReply? || e.EvTargeted? || e.EvRestore?
  }

  lemma PlainTurn(s: State, e: NativeEvent)
    requires ClockInv(s) && ShapeInv(s) && !e.EvUpdate? && !e.EvRestoreState? && !e.EvBeginCommit? && !e.EvSubmit?
    ensures PlainStep(s, StepNative(s, e))
  {
    if Reads(e) { ReadTurn(s, e); } else { SettleTurn(s, e); }
  }

  lemma ReadTurn(s: State, e: NativeEvent)
    requires ClockInv(s) && ShapeInv(s) && Reads(e)
    ensures PlainStep(s, StepNative(s, e))
  {
  }

  lemma SettleTurn(s: State, e: NativeEvent)
    requires ClockInv(s) && ShapeInv(s) && (e.EvDetect? || e.EvBegin? || e.EvAdopt? || e.EvReleased? || e.EvExit?)
    ensures PlainStep(s, StepNative(s, e))
  {
  }

  lemma NativeTtl(s: State, e: NativeEvent)
    requires TtlInv(s) && RequestInv(s) && GateInv(s) && ShapeInv(s)
    ensures TtlInv(StepNative(s, e))
  {
    if e.EvUpdate? {
      UpdateTtl(s, e.state, e.admit, e.request);
    } else if e.EvRestoreState? {
      RestoreTtl(s, e.state, e.lastRelease, e.request);
    } else if e.EvBeginCommit? {
      CommitTtl(s, e.admit, e.save);
    } else if e.EvSubmit? {
      SubmitTtl(s);
    } else {
      PlainTtl(s, e);
    }
  }

  lemma CustodyTtl(s: State, e: CustodyEvent)
    requires TtlInv(s)
    ensures TtlInv(StepCustody(s, e))
  {
    var t := StepCustody(s, e);
    if t != s {
      assert !t.worker.Native? && t.now == s.now && t.claim.deadline == s.claim.deadline
        && t.claim.beat == s.claim.beat;
      forall i | 0 <= i < |t.history.sent| && Ducks(t.history.sent[i].action)
        ensures InTime(t.history.sent[i].ttl, t.history.sent[i].mint) && !t.history.sent[i].imported
      {
        assert i < |s.history.sent| && t.history.sent[i] == s.history.sent[i];
      }
    }
  }
}
