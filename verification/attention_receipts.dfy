/** What a receipt has once said of a command or of a lease is never replaced. */
module AttentionReceipts {
  import opened CustodyJournal
  import opened AttentionModel
  import opened AttentionGate
  import opened AttentionRequests

  predicate SameLeaseAs(r: Receipt, i: Identity) {
    r.process == i.process && r.incarnation == i.incarnation && r.lease == i.lease
  }

  predicate AgreeOn(r: Receipt, q: Receipt) {
    (r.request == q.request ==> r.outcome == Pending)
    && (r.origin.request == q.origin.request ==>
      r.process == q.process && r.incarnation == q.incarnation && r.lease == q.lease)
  }

  /** Receipts in order: only pending ones are followed by another of the same command, and a lease stays itself. */
  ghost predicate ReceiptsAgree(h: History) {
    && (forall i, j :: 0 <= i < j < |h.receipts| ==> AgreeOn(h.receipts[i], h.receipts[j]))
    && (forall i :: 0 <= i < |h.receipts| ==> h.receipts[i].request in h.used && h.receipts[i].origin.request in h.used)
  }

  predicate Awaiting(s: State, d: nat) {
    s.worker.Native? && ((s.worker.at.Put? && s.worker.at.output == d)
      || (s.worker.at.PutWait? && s.worker.at.output == d))
  }

  /** A grant knows what its receipts said. */
  ghost predicate ReceiptKnown(s: State, g: Grant, d: nat, r: Receipt) {
    && (r.request == g.command.request ==> !Awaiting(s, d) && (r.outcome != Pending ==> !Owes(g)))
    && (r.origin.request == g.origin.request ==> g.identity.Some? && SameLeaseAs(r, g.identity.value))
  }

  ghost predicate ReceiptsKnown(s: State) {
    forall d, i :: d in s.grants && 0 <= i < |s.history.receipts| ==>
      ReceiptKnown(s, s.grants[d], d, s.history.receipts[i])
  }

  ghost predicate NoReceipts(h: History, g: Grant) {
    forall i :: 0 <= i < |h.receipts| ==>
      h.receipts[i].request != g.command.request && h.receipts[i].origin.request != g.origin.request
  }

  ghost predicate ReceiptInv(s: State) {
    && ReceiptsAgree(s.history) && ReceiptsKnown(s)
    && (s.worker.Native? && s.worker.at.Minted? ==> NoReceipts(s.history, s.worker.at.grant))
    && (s.worker.Native? && s.worker.at.Observe? && s.worker.at.output in s.grants ==>
      Owes(s.grants[s.worker.at.output]))
  }

  /** No receipt arrives, no grant appears, and none that waits for a reply starts to wait for another. */
  lemma TurnReceipts(s: State, t: State)
    requires ReceiptInv(s) && t.history.receipts == s.history.receipts && s.history.used <= t.history.used
    requires !(t.worker.Native? && (t.worker.at.Minted? || t.worker.at.Put?))
    requires t.worker.Native? && t.worker.at.PutWait? ==> Awaiting(s, t.worker.at.output)
    requires t.worker.Native? && t.worker.at.Observe? && t.worker.at.output in t.grants ==>
      Owes(t.grants[t.worker.at.output])
    requires forall d :: d in t.grants ==> d in s.grants && KeepsReceipts(s, d, s.grants[d], t.grants[d])
    ensures ReceiptInv(t)
  {
    forall d, i | d in t.grants && 0 <= i < |t.history.receipts|
      ensures ReceiptKnown(t, t.grants[d], d, t.history.receipts[i])
    {
      assert ReceiptKnown(s, s.grants[d], d, s.history.receipts[i]);
    }
  }

  predicate KeepsReceipts(s: State, d: nat, g: Grant, h: Grant) {
    && h.command == g.command && h.origin == g.origin && h.identity == g.identity
    && (Owes(h) ==> Owes(g) || Awaiting(s, d))
  }

  /** A fresh command: there is no receipt of it yet, and the lease is the same. */
  lemma IssueReceipts(s: State, t: State, d: nat, g: Grant)
    requires ReceiptInv(s) && t.history.receipts == s.history.receipts && s.history.used <= t.history.used
    requires t.worker.Native? && t.worker.at.Put? && t.worker.at.output == d && t.grants == s.grants[d := g]
    requires forall i :: 0 <= i < |s.history.receipts| ==> s.history.receipts[i].request != g.command.request
    requires forall i :: 0 <= i < |s.history.receipts| && s.history.receipts[i].origin.request == g.origin.request ==>
               g.identity.Some? && SameLeaseAs(s.history.receipts[i], g.identity.value)
    requires !AtPutAny(s)
    ensures ReceiptInv(t)
  {
    forall e, i | e in t.grants && 0 <= i < |t.history.receipts|
      ensures ReceiptKnown(t, t.grants[e], e, t.history.receipts[i])
    {
      assert e != d ==> ReceiptKnown(s, s.grants[e], e, s.history.receipts[i]);
    }
  }

  lemma FreshReceipts(s: State, request: nat)
    requires ReceiptsAgree(s.history) && request !in s.history.used
    ensures forall i :: 0 <= i < |s.history.receipts| ==>
              s.history.receipts[i].request != request && s.history.receipts[i].origin.request != request
  {
  }

  /** A reply is folded only while its command awaits or owes one. */
  lemma ReplyReceipts(s: State, d: nat, reply: Option<Result>, next: Phase)
    requires ReceiptInv(s) && GrantsKnown(s) && s.worker.Native? && d in s.grants && Resumes(next)
    requires (s.worker.at.Observe? && s.worker.at.output == d) || (s.worker.at.PutWait? && s.worker.at.output == d)
    ensures ReceiptInv(TakeReply(s, d, reply, next))
  {
    var t := TakeReply(s, d, reply, next);
    var g := s.grants[d];
    if reply.Some? && Accepts(g, d, reply.value) {
      var n := |s.history.receipts|;
      var r := t.history.receipts[n];
      assert GrantKnown(s, g, d);
      forall i, j | 0 <= i < j < |t.history.receipts| ensures AgreeOn(t.history.receipts[i], t.history.receipts[j]) {
        if j == n { assert ReceiptKnown(s, g, d, s.history.receipts[i]); }
      }
      forall e, i | e in t.grants && 0 <= i < |t.history.receipts|
        ensures ReceiptKnown(t, t.grants[e], e, t.history.receipts[i])
      {
        assert i < n ==> ReceiptKnown(s, s.grants[e], e, s.history.receipts[i]);
        assert e != d ==> Apart(s.grants[e], g);
      }
    } else {
      TurnReceipts(s, t);
    }
  }

  lemma ApiReceipts(s: State, e: ApiEvent)
    requires ReceiptInv(s) && GateInv(s)
    ensures ReceiptInv(StepApi(s, e))
  {
    var t := StepApi(s, e);
    assert t.history.receipts == s.history.receipts && s.history.used <= t.history.used;
    if !e.Crash? {
      assert t.grants == s.grants && t.worker == s.worker;
      forall d, i | d in t.grants && 0 <= i < |t.history.receipts|
        ensures ReceiptKnown(t, t.grants[d], d, t.history.receipts[i])
      {
        assert ReceiptKnown(s, s.grants[d], d, s.history.receipts[i]);
      }
    }
  }

  lemma CustodyReceipts(s: State, e: CustodyEvent)
    requires ReceiptInv(s) && GateInv(s)
    ensures ReceiptInv(StepCustody(s, e))
  {
    var t := StepCustody(s, e);
    if t != s { TurnReceipts(s, t); }
  }

  lemma UpdateReceipts(s: State, state: Option<Identity>, admit: bool, request: nat)
    requires ReceiptInv(s) && RequestInv(s)
    ensures ReceiptInv(StepUpdate(s, state, admit, request))
  {
    var t := StepUpdate(s, state, admit, request);
    if t.history == s.history {
      if s != t { TurnReceipts(s, t); }
    } else {
      var d := s.worker.job.target;
      FreshReceipts(s, request);
      assert forall i :: 0 <= i < |s.history.receipts| ==> ReceiptKnown(s, s.grants[d], d, s.history.receipts[i]);
      IssueReceipts(s, t, d, t.grants[d]);
    }
  }

  lemma RestoreReceipts(s: State, state: Option<Identity>, lastRelease: nat, request: nat)
    requires ReceiptInv(s) && RequestInv(s)
    ensures ReceiptInv(StepRestoreState(s, state, lastRelease, request))
  {
    var t := StepRestoreState(s, state, lastRelease, request);
    if t.history == s.history {
      if s != t { TurnReceipts(s, t); }
    } else {
      var d := s.worker.at.output;
      FreshReceipts(s, request);
      assert forall i :: 0 <= i < |s.history.receipts| ==> ReceiptKnown(s, s.grants[d], d, s.history.receipts[i]);
      IssueReceipts(s, t, d, t.grants[d]);
    }
  }

  lemma BeginReceipts(s: State, state: Option<Identity>, admit: bool, request: nat, save: SaveOutcome)
    requires ReceiptInv(s)
    ensures ReceiptInv(StepBegin(s, state, admit, request, save))
  {
    var t := StepBegin(s, state, admit, request, save);
    if s != t {
      FreshReceipts(s, request);
      assert t.grants == s.grants && t.history.receipts == s.history.receipts;
      forall d, i | d in t.grants && 0 <= i < |t.history.receipts|
        ensures ReceiptKnown(t, t.grants[d], d, t.history.receipts[i])
      {
        assert ReceiptKnown(s, s.grants[d], d, s.history.receipts[i]);
      }
    }
  }

  lemma CommitReceipts(s: State, admit: bool, save: SaveOutcome)
    requires ReceiptInv(s) && RequestInv(s)
    ensures ReceiptInv(StepBeginCommit(s, admit, save))
  {
    var t := StepBeginCommit(s, admit, save);
    if s.worker.Native? && s.worker.at.Minted? {
      if t.worker.at.Return? {
        TurnReceipts(s, t);
      } else {
        IssueReceipts(s, t, s.worker.job.target, t.grants[s.worker.job.target]);
      }
    }
  }

  lemma SubmitReceipts(s: State)
    requires ReceiptInv(s) && ShapeInv(s)
    ensures ReceiptInv(StepSubmit(s))
  {
    if s.worker.Native? && s.worker.at.Put? && s.worker.at.output in s.grants { TurnReceipts(s, StepSubmit(s)); }
  }

  /** The daemon's own terminal release replaces the result of a grant that owes nothing any more. */
  lemma SettleReceipts(s: State, r: State, d: nat, h: Grant, left: set<nat>, save: SaveOutcome)
    requires ReceiptInv(s) && s.worker.Native? && r == s.(grants := r.grants)
    requires forall e :: e in r.grants ==> e in s.grants && KeepsReceipts(s, e, s.grants[e], r.grants[e])
    ensures ReceiptInv(RetireGrant(r, d, h, left, save))
  {
    TurnReceipts(s, RetireGrant(r, d, h, left, save));
  }

  lemma AdoptReceipts(s: State, terminal: Option<Result>, save: SaveOutcome)
    requires ReceiptInv(s)
    ensures ReceiptInv(StepAdopt(s, terminal, save))
  {
    if s.worker.Native? && s.worker.at.Lapsed? && s.worker.at.output in s.grants {
      var d := s.worker.at.output;
      TurnReceipts(s, At(s, Return));
      if terminal.Some? && ReleaseAccepted(terminal.value) {
        var h := s.grants[d].(result := terminal);
        SettleReceipts(s, s.(grants := s.grants[d := h]), d, h, s.worker.at.left, save);
      }
    }
  }

  lemma ReleasedReceipts(s: State, save: SaveOutcome)
    requires ReceiptInv(s)
    ensures ReceiptInv(StepReleased(s, save))
  {
    if s.worker.Native? && s.worker.at.Released? && s.worker.at.output in s.grants {
      TurnReceipts(s, At(s, Return));
      SettleReceipts(s, s, s.worker.at.output, s.grants[s.worker.at.output], s.worker.at.left, save);
    }
  }

  lemma TurnsReceipts(s: State, e: NativeEvent)
    requires ReceiptInv(s) && GateInv(s) && Turns(e)
    ensures ReceiptInv(StepNative(s, e))
  {
    var t := StepNative(s, e);
    if t.worker != s.worker {
      TurnReceipts(s, t);
    } else {
      assert t.grants == s.grants && t.history == s.history;
      forall d, i | d in t.grants && 0 <= i < |t.history.receipts|
        ensures ReceiptKnown(t, t.grants[d], d, t.history.receipts[i])
      {
        assert ReceiptKnown(s, s.grants[d], d, s.history.receipts[i]);
      }
    }
  }

  lemma NativeReceipts(s: State, e: NativeEvent)
    requires ReceiptInv(s) && RequestInv(s) && GateInv(s) && ShapeInv(s)
    ensures ReceiptInv(StepNative(s, e))
  {
    if Turns(e) {
      TurnsReceipts(s, e);
    } else {
      match e
      case EvObserved(reply) =>
        if s.worker.Native? && s.worker.at.Observe? && s.worker.at.output in s.grants {
          ReplyReceipts(s, s.worker.at.output, reply, Observed(s.worker.at.output, s.worker.at.left));
        }
      case EvReply(reply) =>
        if s.worker.Native? && s.worker.at.PutWait? && s.worker.at.output in s.grants {
          ReplyReceipts(s, s.worker.at.output, reply, s.worker.at.next);
        }
      case EvDetect(obs) => if s.worker.Native? && s.worker.at.Detect? { TurnReceipts(s, StepDetect(s, obs)); }
      case EvBegin(state, admit, request, save) => BeginReceipts(s, state, admit, request, save);
      case EvBeginCommit(admit, save) => CommitReceipts(s, admit, save);
      case EvUpdate(state, admit, request) => UpdateReceipts(s, state, admit, request);
      case EvSubmit => SubmitReceipts(s);
      case EvRestoreState(state, lastRelease, request) => RestoreReceipts(s, state, lastRelease, request);
      case EvAdopt(terminal, save) => AdoptReceipts(s, terminal, save);
      case EvReleased(save) => ReleasedReceipts(s, save);
    }
  }
}
