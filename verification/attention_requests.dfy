/** Every command identity is submitted at most once, over lost replies, crashes and restarts. */
module AttentionRequests {
  import opened CustodyJournal
  import opened AttentionModel
  import opened AttentionGate

  ghost predicate Unsent(h: History, request: nat) {
    request in h.used && forall i :: 0 <= i < |h.sent| ==> h.sent[i].request != request
  }

  ghost predicate SentOnce(h: History) {
    && (forall i :: 0 <= i < |h.sent| ==> h.sent[i].request in h.used)
    && (forall i, j :: 0 <= i < j < |h.sent| ==> h.sent[i].request != h.sent[j].request)
  }

  predicate AtPut(s: State, d: nat) {
    s.worker.Native? && s.worker.at.Put? && s.worker.at.output == d
  }

  /** A grant's command is known, and one that was never submitted is about to be. */
  ghost predicate GrantKnown(s: State, g: Grant, d: nat) {
    && g.command.request in s.history.used && g.origin.request in s.history.used
    && (!g.submitted ==> AtPut(s, d) && Unsent(s.history, g.command.request))
  }

  predicate Apart(g: Grant, h: Grant) {
    g.command.request != h.command.request && g.origin.request != h.origin.request
  }

  ghost predicate GrantsKnown(s: State) {
    && (forall d :: d in s.grants ==> GrantKnown(s, s.grants[d], d))
    && (forall d, e :: d in s.grants && e in s.grants && d != e ==> Apart(s.grants[d], s.grants[e]))
  }

  /** A BEGIN that waits for its admission. */
  ghost predicate MintedKnown(s: State, g: Grant) {
    && Unsent(s.history, g.command.request) && g.origin.request == g.command.request
    && !g.submitted && g.command.action == Begin && g.identity.None? && g.result.None?
    && forall d :: d in s.grants ==> Apart(g, s.grants[d])
  }

  /** A recovery that waits for its submission. */
  ghost predicate AttemptKnown(s: State, k: nat, key: nat) {
    Works(s, k, key) && s.store.journal[k].outputs[key].recovery.Some? ==>
      Unsent(s.history, s.store.journal[k].outputs[key].recovery.value.command.request)
  }

  ghost predicate RequestInv(s: State) {
    && SentOnce(s.history) && GrantsKnown(s)
    && (s.worker.Native? && s.worker.at.Minted? ==> MintedKnown(s, s.worker.at.grant))
    && (s.worker.Custody? && s.worker.phase.CPut? ==> AttemptKnown(s, s.worker.phase.k, s.worker.phase.key))
  }

  /** Nothing is sent; requests are at most added to the used ones. */
  ghost predicate Silent(s: State, t: State) {
    t.history.sent == s.history.sent && s.history.used <= t.history.used
  }

  lemma ApiRequests(s: State, e: ApiEvent)
    requires RequestInv(s) && GateInv(s)
    ensures RequestInv(StepApi(s, e))
  {
    var t := StepApi(s, e);
    assert Silent(s, t);
    if !e.Crash? {
      assert t.grants == s.grants && t.worker == s.worker;
      forall d | d in t.grants ensures GrantKnown(t, t.grants[d], d) { assert GrantKnown(s, s.grants[d], d); }
    }
  }

  /** A phase change that leaves no submission behind keeps every grant known. */
  lemma TurnRequests(s: State, t: State)
    requires RequestInv(s) && Silent(s, t)
    requires !(t.worker.Native? && t.worker.at.Minted?) && !(t.worker.Custody? && t.worker.phase.CPut?)
    requires forall d :: d in t.grants ==> d in s.grants && SameCommand(s.grants[d], t.grants[d])
    requires forall d :: d in t.grants && AtPut(s, d) && !s.grants[d].submitted ==> AtPut(t, d)
    ensures RequestInv(t)
  {
    forall d | d in t.grants ensures GrantKnown(t, t.grants[d], d) { assert GrantKnown(s, s.grants[d], d); }
    forall d, e | d in t.grants && e in t.grants && d != e ensures Apart(t.grants[d], t.grants[e]) {
      assert Apart(s.grants[d], s.grants[e]);
    }
  }

  predicate SameCommand(g: Grant, h: Grant) {
    h.command == g.command && h.origin == g.origin && h.submitted == g.submitted
  }

  /** The minted command of one grant, fresh, about to be submitted. */
  lemma IssueRequests(s: State, t: State, d: nat, g: Grant)
    requires RequestInv(s) && Silent(s, t) && AtPut(t, d) && !AtPutAny(s)
    requires t.grants == s.grants[d := g]
    requires Unsent(t.history, g.command.request) && g.origin.request in t.history.used
    requires forall e :: e in s.grants && e != d ==> Apart(g, s.grants[e])
    ensures RequestInv(t)
  {
    forall e | e in t.grants ensures GrantKnown(t, t.grants[e], e) { assert e != d ==> GrantKnown(s, s.grants[e], e); }
    forall e, f | e in t.grants && f in t.grants && e != f ensures Apart(t.grants[e], t.grants[f]) {
      assert e in s.grants && f in s.grants ==> Apart(s.grants[e], s.grants[f]);
    }
  }

  predicate AtPutAny(s: State) {
    s.worker.Native? && s.worker.at.Put?
  }

  lemma SubmitRequests(s: State)
    requires RequestInv(s)
    ensures RequestInv(StepSubmit(s))
  {
    var t := StepSubmit(s);
    if s.worker.Native? && s.worker.at.Put? && s.worker.at.output in s.grants {
      var d := s.worker.at.output;
      assert GrantKnown(s, s.grants[d], d);
      forall e | e in t.grants ensures GrantKnown(t, t.grants[e], e) { assert GrantKnown(s, s.grants[e], e); }
      forall e, f | e in t.grants && f in t.grants && e != f ensures Apart(t.grants[e], t.grants[f]) {
        assert Apart(s.grants[e], s.grants[f]);
      }
    }
  }

  lemma ReplyRequests(s: State, d: nat, reply: Option<Result>, next: Phase)
    requires RequestInv(s) && s.worker.Native? && d in s.grants && !AtPutAny(s) && Resumes(next)
    ensures RequestInv(TakeReply(s, d, reply, next))
  {
    TurnRequests(s, TakeReply(s, d, reply, next));
  }

  lemma UpdateRequests(s: State, state: Option<Identity>, admit: bool, request: nat)
    requires RequestInv(s)
    ensures RequestInv(StepUpdate(s, state, admit, request))
  {
    var t := StepUpdate(s, state, admit, request);
    if t.history == s.history {
      if s != t { TurnRequests(s, t); }
    } else {
      var d := s.worker.job.target;
      assert GrantKnown(s, s.grants[d], d);
      forall e | e in s.grants && e != d ensures Apart(t.grants[d], s.grants[e]) {
        assert GrantKnown(s, s.grants[e], e) && Apart(s.grants[d], s.grants[e]);
      }
      IssueRequests(s, t, d, t.grants[d]);
    }
  }

  lemma RestoreRequests(s: State, state: Option<Identity>, lastRelease: nat, request: nat)
    requires RequestInv(s)
    ensures RequestInv(StepRestoreState(s, state, lastRelease, request))
  {
    var t := StepRestoreState(s, state, lastRelease, request);
    if t.history == s.history {
      if s != t { TurnRequests(s, t); }
    } else {
      var d := s.worker.at.output;
      assert GrantKnown(s, s.grants[d], d);
      forall e | e in s.grants && e != d ensures Apart(t.grants[d], s.grants[e]) {
        assert GrantKnown(s, s.grants[e], e) && Apart(s.grants[d], s.grants[e]);
      }
      IssueRequests(s, t, d, t.grants[d]);
    }
  }

  lemma BeginRequests(s: State, state: Option<Identity>, admit: bool, request: nat, save: SaveOutcome)
    requires RequestInv(s)
    ensures RequestInv(StepBegin(s, state, admit, request, save))
  {
    var t := StepBegin(s, state, admit, request, save);
    if s != t {
      assert Silent(s, t) && t.grants == s.grants;
      forall d | d in t.grants ensures GrantKnown(t, t.grants[d], d) { assert GrantKnown(s, s.grants[d], d); }
    }
  }

  lemma CommitRequests(s: State, admit: bool, save: SaveOutcome)
    requires RequestInv(s)
    ensures RequestInv(StepBeginCommit(s, admit, save))
  {
    var t := StepBeginCommit(s, admit, save);
    if s.worker.Native? && s.worker.at.Minted? {
      var g := s.worker.at.grant;
      if t.worker.at.Return? {
        TurnRequests(s, t);
      } else {
        IssueRequests(s, t, s.worker.job.target, t.grants[s.worker.job.target]);
      }
    }
  }

  lemma SettleRequests(s: State, r: State, d: nat, g: Grant, left: set<nat>, save: SaveOutcome)
    requires RequestInv(s) && s.worker.Native? && !AtPutAny(s)
    requires r == s.(grants := r.grants) && forall e :: e in r.grants ==>
      e in s.grants && SameCommand(s.grants[e], r.grants[e])
    ensures RequestInv(RetireGrant(r, d, g, left, save))
  {
    TurnRequests(s, RetireGrant(r, d, g, left, save));
  }

  lemma AdoptRequests(s: State, terminal: Option<Result>, save: SaveOutcome)
    requires RequestInv(s)
    ensures RequestInv(StepAdopt(s, terminal, save))
  {
    if s.worker.Native? && s.worker.at.Lapsed? && s.worker.at.output in s.grants {
      var d := s.worker.at.output;
      var h := s.grants[d].(result := terminal);
      TurnRequests(s, At(s, Return));
      SettleRequests(s, s.(grants := s.grants[d := h]), d, h, s.worker.at.left, save);
    }
  }

  lemma ReleasedRequests(s: State, save: SaveOutcome)
    requires RequestInv(s)
    ensures RequestInv(StepReleased(s, save))
  {
    if s.worker.Native? && s.worker.at.Released? && s.worker.at.output in s.grants {
      TurnRequests(s, At(s, Return));
      SettleRequests(s, s, s.worker.at.output, s.grants[s.worker.at.output], s.worker.at.left, save);
    }
  }

  lemma DetectRequests(s: State, obs: Option<Observation>)
    requires RequestInv(s) && ShapeInv(s)
    ensures RequestInv(StepDetect(s, obs))
  {
    var t := StepDetect(s, obs);
    if s.worker.Native? && s.worker.at.Detect? { TurnRequests(s, t); }
  }

  predicate Turns(e: NativeEvent) {
    e.EvPoll? || e.EvRecheck? || e.EvTargeted? || e.EvRestore? || e.EvExit? || e.EvStart?
  }

  lemma TurnsRequests(s: State, e: NativeEvent)
    requires RequestInv(s) && GateInv(s) && Turns(e)
    ensures RequestInv(StepNative(s, e))
  {
    var t := StepNative(s, e);
    TurnsIssueNothing(s, e);
    if t.worker != s.worker {
      TurnRequests(s, t);
    } else {
      forall d | d in t.grants ensures GrantKnown(t, t.grants[d], d) { assert GrantKnown(s, s.grants[d], d); }
    }
  }

  lemma TurnsIssueNothing(s: State, e: NativeEvent)
    requires GateInv(s) && Turns(e)
    ensures var t := StepNative(s, e);
      && t.grants == s.grants && t.history == s.history
      && (t.worker == s.worker ==> t.store.journal == s.store.journal)
      && (t.worker != s.worker ==> !AtPutAny(s) && !t.worker.Custody? && !(t.worker.Native? && t.worker.at.Minted?))
  {
  }

  lemma NativeRequests(s: State, e: NativeEvent)
    requires RequestInv(s) && GateInv(s) && ShapeInv(s)
    ensures RequestInv(StepNative(s, e))
  {
    if Turns(e) {
      TurnsRequests(s, e);
    } else {
      match e
      case EvObserved(reply) =>
        if s.worker.Native? && s.worker.at.Observe? && s.worker.at.output in s.grants {
          ReplyRequests(s, s.worker.at.output, reply, Observed(s.worker.at.output, s.worker.at.left));
        }
      case EvReply(reply) =>
        if s.worker.Native? && s.worker.at.PutWait? && s.worker.at.output in s.grants {
          ReplyRequests(s, s.worker.at.output, reply, s.worker.at.next);
        }
      case EvDetect(obs) => DetectRequests(s, obs);
      case EvBegin(state, admit, request, save) => BeginRequests(s, state, admit, request, save);
      case EvBeginCommit(admit, save) => CommitRequests(s, admit, save);
      case EvUpdate(state, admit, request) => UpdateRequests(s, state, admit, request);
      case EvSubmit => SubmitRequests(s);
      case EvRestoreState(state, lastRelease, request) => RestoreRequests(s, state, lastRelease, request);
      case EvAdopt(terminal, save) => AdoptRequests(s, terminal, save);
      case EvReleased(save) => ReleasedRequests(s, save);
    }
  }

  /** A custody call leaves the grants alone, or drops them all at its end. */
  lemma CustodyRequests(s: State, e: CustodyEvent)
    requires RequestInv(s) && GateInv(s)
    ensures RequestInv(StepCustody(s, e))
  {
    var t := StepCustody(s, e);
    if !e.EvCustodySubmit? && !e.EvCustodyState? {
      CustodyTurns(s, e);
      if t != s { TurnRequests(s, t); }
    } else {
      CustodySendRequests(s, e);
    }
  }

  lemma CustodyTurns(s: State, e: CustodyEvent)
    requires GateInv(s) && !e.EvCustodySubmit? && !e.EvCustodyState?
    ensures var t := StepCustody(s, e);
      t == s || (t.history == s.history && t.grants.Keys <= s.grants.Keys
        && (forall d :: d in t.grants ==> t.grants[d] == s.grants[d])
                 && !AtPutAny(s) && !t.worker.Native? && !(t.worker.Custody? && t.worker.phase.CPut?))
  {
  }

  lemma CustodySendRequests(s: State, e: CustodyEvent)
    requires RequestInv(s) && (e.EvCustodySubmit? || e.EvCustodyState?)
    ensures RequestInv(StepCustody(s, e))
  {
    var t := StepCustody(s, e);
    if t != s {
      assert s.worker.Custody? && t.grants == s.grants;
      forall d | d in t.grants ensures GrantKnown(t, t.grants[d], d) { assert GrantKnown(s, s.grants[d], d); }
    }
  }
}
