/**
  One-shot transfer credits: each is accepted once, clears the release marker at most once, in
  time, under the intent it was consumed with, and a superseded one is never revived.
 */
module LiveCredits {
  import Runs
  import opened LiveModel
  import opened LiveFence

  /** A credit remembers the alias it was accepted under, for as long as that alias revision lasts. */
  ghost predicate CreditOk(g: Engine, k: Custody, id: CreditId, now: int)
    requires id in k.credits
  {
    var c := k.credits[id];
    && c.run != 0 && c.binding.incarnation == id.incarnation
    && id.incarnation in k.seen && id.ordinal <= k.seen[id.incarnation]
    && c.aliasRevision <= g.aliasRevision
    && (c.aliasRevision == g.aliasRevision ==> g.st.alias == Alias(c.alias, Some(c.binding)))
    && c.until == c.acceptedAt + RECOVERY_WINDOW && c.acceptedAt <= now
  }

  ghost predicate CreditsOk(g: Engine, k: Custody, now: int) {
    forall id :: id in k.credits ==> CreditOk(g, k, id, now)
  }

  /** A credit a thread still holds is the fence, unless a later transfer or another alias has superseded it. */
  ghost predicate HeldOk(g: Engine, k: Custody, id: CreditId) {
    && id in k.credits && k.credits[id].transport.Some?
    && (k.fence == Some(id) || (id.incarnation in k.seen && k.seen[id.incarnation] > id.ordinal)
        || k.credits[id].aliasRevision < g.aliasRevision)
  }

  /** The live credit is the fence, and no thread holds it. */
  ghost predicate LiveOk(k: Custody) {
    k.recovery.Some? ==> k.recovery.value in k.credits && k.recovery.value !in k.held && k.fence == k.recovery
  }

  ghost predicate EntryOk(k: Custody, e: CreditEntry) {
    && e.credit in k.credits
    && match e
       case Accepted(id, at) => at == k.credits[id].acceptedAt
       case Consumed(id, at, intent) =>
         at < k.credits[id].until && k.credits[id].transport == Some(intent) && intent.run != 0
       case Cleared(id, at, intent) =>
         && at < k.credits[id].until && k.credits[id].transport == Some(intent)
         && id !in k.held && k.fence != Some(id) && k.recovery != Some(id)
  }

  ghost predicate EntriesOk(k: Custody) {
    forall e :: e in k.log ==> EntryOk(k, e)
  }

  ghost predicate Once(log: seq<CreditEntry>) {
    forall i, j :: 0 <= i < j < |log| && log[i].credit == log[j].credit ==>
      !(log[i].Accepted? && log[j].Accepted?) && !(log[i].Cleared? && log[j].Cleared?)
  }

  ghost predicate CreditInv(g: Engine, k: Custody, now: int) {
    CreditsOk(g, k, now) && (forall id :: id in k.held ==> HeldOk(g, k, id)) && LiveOk(k) && EntriesOk(k) && Once(k.log)
  }

  /** An engine that only moves forward keeps everything, as does the clock. */
  lemma EngineKeepsCredits(g: Engine, h: Engine, k: Custody, now: int, later: int)
    requires CreditInv(g, k, now) && Fenced(g, h) && now <= later
    ensures CreditInv(h, k, later)
  {
    forall id | id in k.credits ensures CreditOk(h, k, id, later) { assert CreditOk(g, k, id, now); }
    forall id | id in k.held ensures HeldOk(h, k, id) { assert HeldOk(g, k, id); }
  }

  lemma OnceAppend(log: seq<CreditEntry>, e: CreditEntry)
    requires Once(log)
    requires e.Accepted? ==> forall f :: f in log ==> f.credit != e.credit
    requires e.Cleared? ==> forall f :: f in log && f.Cleared? ==> f.credit != e.credit
    ensures Once(log + [e])
  {
    var all := log + [e];
    forall i, j | 0 <= i < j < |all| && all[i].credit == all[j].credit
      ensures !(all[i].Accepted? && all[j].Accepted?) && !(all[i].Cleared? && all[j].Cleared?)
    {
      assert all[i] in log;
    }
  }

  lemma AcceptKeeps(g: Engine, k: Custody, id: int, ordinal: nat, binding: Binding, kind: TransferKind, now: int)
    requires CreditInv(g, k, now) && TransferAcceptable(g, k, id, ordinal, binding, kind) && g.runEpoch != 0
    ensures CreditInv(g, AcceptCredit(k, NewCredit(g, id, ordinal, binding, kind, now), ordinal, now), now)
  {
    var c := NewCredit(g, id, ordinal, binding, kind, now);
    var t := AcceptCredit(k, c, ordinal, now);
    var name := CreditId(binding.incarnation, ordinal);
    assert forall q :: q in k.credits ==> CreditOk(g, k, q, now);
    assert name !in k.credits;
    forall q | q in t.credits ensures CreditOk(g, t, q, now) { assert q != name ==> CreditOk(g, k, q, now); }
    forall q | q in t.held ensures HeldOk(g, t, q) {
      assert HeldOk(g, k, q) && CreditOk(g, k, q, now);
    }
    forall e | e in t.log ensures EntryOk(t, e) { assert e in k.log ==> EntryOk(k, e); }
    forall f | f in k.log ensures f.credit != name { assert EntryOk(k, f); }
    OnceAppend(k.log, Accepted(name, now));
  }

  /** The live credit may change or end; nothing else does. */
  lemma LiveCreditKeeps(g: Engine, k: Custody, t: Custody, now: int)
    requires CreditInv(g, k, now) && k.recovery.Some?
    requires t.recovery in {None, k.recovery}
    requires t == k.(recovery := t.recovery, credits := t.credits)
    requires t.credits.Keys == k.credits.Keys
    requires forall id :: id in k.credits && Some(id) != k.recovery ==> t.credits[id] == k.credits[id]
    requires k.recovery.value in k.credits
    requires var c := k.credits[k.recovery.value];
             t.credits[k.recovery.value] == c.(awaitInitial := t.credits[k.recovery.value].awaitInitial,
               awaitResume := t.credits[k.recovery.value].awaitResume)
    ensures CreditInv(g, t, now)
  {
    forall id | id in t.credits ensures CreditOk(g, t, id, now) { assert CreditOk(g, k, id, now); }
    forall id | id in t.held ensures HeldOk(g, t, id) { assert HeldOk(g, k, id); }
    forall e | e in t.log ensures EntryOk(t, e) { assert EntryOk(k, e); }
  }

  lemma WireKeeps(g: Engine, k: Custody, e: WireEvent, now: int)
    requires CreditInv(g, k, now)
    ensures CreditInv(g, ApplyToCredit(k, e), now)
  {
    var t := ApplyToCredit(k, e);
    if k.recovery.Some? {
      if Judges(k, e) {
        var c := k.credits[k.recovery.value];
        if Judge(c, e).Observe? {
          assert Judge(c, e).credit.(awaitInitial := c.awaitInitial, awaitResume := c.awaitResume) == c;
        }
      }
      LiveCreditKeeps(g, k, t, now);
    }
  }

  /** The live credit passes to the thread that consumes it. */
  lemma TakenKeeps(g: Engine, k: Custody, id: CreditId, intent: Intent, now: int)
    requires CreditInv(g, k, now) && k.recovery == Some(id) && id in k.credits
    requires now < k.credits[id].until && intent.run != 0
    requires k.credits[id].transport.Some? && k.credits[id].transport.value.run != 0 ==>
      k.credits[id].transport == Some(intent)
    ensures CreditInv(g, k.(credits := k.credits[id := k.credits[id].(transport := Some(intent))], recovery := None,
                            held := k.held + {id}, log := k.log + [Consumed(id, now, intent)]), now)
  {
    var t := k.(credits := k.credits[id := k.credits[id].(transport := Some(intent))], recovery := None,
                held := k.held + {id}, log := k.log + [Consumed(id, now, intent)]);
    forall q | q in t.credits ensures CreditOk(g, t, q, now) { assert CreditOk(g, k, q, now); }
    forall q | q in t.held ensures HeldOk(g, t, q) { assert q != id ==> HeldOk(g, k, q); }
    forall e | e in t.log ensures EntryOk(t, e) { assert e in k.log ==> EntryOk(k, e); }
    OnceAppend(k.log, Consumed(id, now, intent));
  }

  lemma ConsumeKeeps(g: Engine, k: Custody, now: int)
    requires CreditInv(g, k, now)
    ensures CreditInv(g, Consume(g, k, now), now)
  {
    var t := Consume(g, k, now);
    if k.recovery.Some? {
      if t.log != k.log {
        TakenKeeps(g, k, k.recovery.value, IntentOf(g), now);
      } else {
        LiveCreditKeeps(g, k, t, now);
      }
    }
  }

  lemma DropKeeps(g: Engine, k: Custody, id: CreditId, now: int)
    requires CreditInv(g, k, now)
    ensures CreditInv(g, k.(held := k.held - {id}), now)
  {
    var t := k.(held := k.held - {id});
    forall q | q in t.credits ensures CreditOk(g, t, q, now) { assert CreditOk(g, k, q, now); }
    forall q | q in t.held ensures HeldOk(g, t, q) { assert HeldOk(g, k, q); }
    forall e | e in t.log ensures EntryOk(t, e) { assert EntryOk(k, e); }
  }

  lemma RetainKeeps(g: Engine, k: Custody, id: CreditId, now: int)
    requires CreditInv(g, k, now)
    ensures CreditInv(g, Retain(g, k, id, now), now)
  {
    var t := Retain(g, k, id, now);
    DropKeeps(g, k, id, now);
    if t.recovery != k.recovery {
      assert HeldOk(g, k, id) && k.fence == Some(id);
      forall q | q in t.credits ensures CreditOk(g, t, q, now) { assert CreditOk(g, k, q, now); }
      forall q | q in t.held ensures HeldOk(g, t, q) { assert HeldOk(g, k, q); }
      forall e | e in t.log ensures EntryOk(t, e) { assert EntryOk(k, e); }
    }
  }

  lemma ClearKeeps(g: Engine, k: Custody, id: CreditId, released: bool, removed: bool, now: int)
    requires CreditInv(g, k, now)
    ensures CreditInv(g, Clear(g, k, id, released, removed, now), now)
  {
    var t := Clear(g, k, id, released, removed, now);
    DropKeeps(g, k, id, now);
    if t.log != k.log {
      assert k.recovery.None?;
      forall q | q in t.credits ensures CreditOk(g, t, q, now) { assert CreditOk(g, k, q, now); }
      forall q | q in t.held ensures HeldOk(g, t, q) { assert HeldOk(g, k, q); }
      forall e | e in t.log ensures EntryOk(t, e) { assert e in k.log ==> EntryOk(k, e); }
      forall f | f in k.log && f.Cleared? ensures f.credit != id { assert EntryOk(k, f); }
      OnceAppend(k.log, Cleared(id, now, IntentOf(g)));
    }
  }

  /** Acceptance is judged on the engine before it publishes the transfer's own transport. */
  lemma CustodyActKeeps(g: Engine, h: Engine, k: Custody, e: Event, now: int)
    requires CreditInv(g, k, now) && Fenced(g, h)
    ensures CreditInv(h, CustodyAct(g, h, k, e, now), now)
  {
    EngineKeepsCredits(g, h, k, now, now);
    match e
    case EvWire(source, wire) => WireKeeps(h, k, wire, now);
    case EvTransfer(source, id, ordinal, binding, kind) =>
      if Wired(g, source) && TransferAcceptable(g, k, id, ordinal, binding, kind) {
        AcceptKeeps(g, k, id, ordinal, binding, kind, now);
        EngineKeepsCredits(g, h, AcceptCredit(k, NewCredit(g, id, ordinal, binding, kind, now), ordinal, now), now,
          now);
      }
    case EvConsume => ConsumeKeeps(h, k, now);
    case EvRetain(credit) => RetainKeeps(h, k, credit, now);
    case EvClear(credit, blocked, released, removed) =>
      DropKeeps(h, k, credit, now);
      ClearKeeps(h, k, credit, released, removed, now);
    case EvDrop(credit) => DropKeeps(h, k, credit, now);
    case EvMarkReleased => MarkKeeps(h, k, true, now);
    case EvMarkReclaimed => MarkKeeps(h, k, false, now);
    case _ =>
  }

  lemma MarkKeeps(g: Engine, k: Custody, marker: bool, now: int)
    requires CreditInv(g, k, now)
    ensures CreditInv(g, k.(marker := marker), now)
  {
    var t := k.(marker := marker);
    forall q | q in t.credits ensures CreditOk(g, t, q, now) { assert CreditOk(g, k, q, now); }
    forall q | q in t.held ensures HeldOk(g, t, q) { assert HeldOk(g, k, q); }
    forall e | e in t.log ensures EntryOk(t, e) { assert EntryOk(k, e); }
  }

  lemma StepKeepsCredits(s: State, e: Event)
    requires CreditInv(s.engine, s.custody, s.now)
    ensures CreditInv(Step(s, e).engine, Step(s, e).custody, Step(s, e).now)
  {
    var h := EngineAct(s.engine, s.custody, e);
    EngineFenced(s.engine, s.custody, e);
    CustodyActKeeps(s.engine, h, s.custody, e, s.now);
    EngineKeepsCredits(h, Step(s, e).engine, Step(s, e).custody, s.now, Step(s, e).now);
  }

  lemma RunKeepsCredits(es: seq<Event>)
    ensures CreditInv(Run(es).engine, Run(es).custody, Run(es).now)
  {
    var inv := (s: State) => CreditInv(s.engine, s.custody, s.now);
    forall s: State, e: Event | inv(s) ensures inv(Step(s, e)) { StepKeepsCredits(s, e); }
    Runs.Invariant(Step, Init(), inv, es);
  }

  // ----- what a run shows -----

  /** Each (incarnation, ordinal) is accepted at most once and clears the release marker at most once. */
  lemma CreditsAreOneShot(es: seq<Event>, i: nat, j: nat)
    requires i < j < |Run(es).custody.log| && Run(es).custody.log[i].credit == Run(es).custody.log[j].credit
    ensures !(Run(es).custody.log[i].Accepted? && Run(es).custody.log[j].Accepted?)
    ensures !(Run(es).custody.log[i].Cleared? && Run(es).custody.log[j].Cleared?)
  {
    RunKeepsCredits(es);
  }

  /** A clear comes less than 5 s after the acceptance, under the intent of every consumption of that credit. */
  lemma ClearsInTimeUnderConsumedIntent(es: seq<Event>, i: nat, j: nat)
    requires i < |Run(es).custody.log| && j < |Run(es).custody.log|
    requires Run(es).custody.log[i].credit == Run(es).custody.log[j].credit && Run(es).custody.log[j].Cleared?
    ensures var log := Run(es).custody.log;
      && (log[i].Accepted? ==> log[j].at < log[i].at + RECOVERY_WINDOW)
      && (log[i].Consumed? ==> log[j].intent == log[i].intent)
  {
    RunKeepsCredits(es);
    var s := Run(es);
    assert EntryOk(s.custody, s.custody.log[i]) && EntryOk(s.custody, s.custody.log[j]);
    assert CreditOk(s.engine, s.custody, s.custody.log[i].credit, s.now);
  }

  /** A live or retained credit is always the current fence: retaining cannot revive a superseded transfer. */
  lemma RetainedIsTheFence(es: seq<Event>)
    requires Run(es).custody.recovery.Some?
    ensures Run(es).custody.fence == Run(es).custody.recovery
    ensures Run(es).custody.recovery.value !in Run(es).custody.held
  {
    RunKeepsCredits(es);
  }

  // ----- which transfer is used -----

  /** The newest accepted transfer, unless a clear has spent it. */
  function Armed(log: seq<CreditEntry>): Option<CreditId> {
    if log == [] then None
    else
      var earlier := Armed(log[..|log| - 1]);
      match log[|log| - 1]
      case Accepted(id, _) => Some(id)
      case Consumed(_, _, _) => earlier
      case Cleared(id, _, _) => if earlier == Some(id) then None else earlier
  }

  /** The fence is what the history arms, and only what was armed was ever consumed or cleared. */
  ghost predicate ArmedInv(k: Custody) {
    && k.fence == Armed(k.log)
    && forall j :: 0 <= j < |k.log| && !k.log[j].Accepted? ==> Armed(k.log[..j]) == Some(k.log[j].credit)
  }

  lemma ArmedAppends(k: Custody, t: Custody, e: CreditEntry)
    requires ArmedInv(k) && t.log == k.log + [e] && (!e.Accepted? ==> k.fence == Some(e.credit))
    requires t.fence == if e.Accepted? then Some(e.credit) else if e.Cleared? then None else k.fence
    ensures ArmedInv(t)
  {
    assert t.log[..|t.log| - 1] == k.log;
    forall j | 0 <= j < |t.log| && !t.log[j].Accepted? ensures Armed(t.log[..j]) == Some(t.log[j].credit) {
      if j < |k.log| { assert t.log[..j] == k.log[..j]; }
    }
  }

  /** One credit event logs at most one entry, about the fence unless it is a new transfer. */
  ghost predicate Arms(k: Custody, t: Custody) {
    || (t.log == k.log && t.fence == k.fence)
    || (exists e :: t.log == k.log + [e] && (!e.Accepted? ==> k.fence == Some(e.credit))
          && t.fence == if e.Accepted? then Some(e.credit) else if e.Cleared? then None else k.fence)
  }

  lemma ActArms(g: Engine, h: Engine, k: Custody, e: Event, now: int)
    requires LiveOk(k)
    ensures Arms(k, CustodyAct(g, h, k, e, now))
  {
    var t := CustodyAct(g, h, k, e, now);
    if |t.log| > |k.log| { assert t.log == k.log + [t.log[|k.log|]]; }
  }

  lemma ArmedKeeps(k: Custody, t: Custody)
    requires ArmedInv(k) && Arms(k, t)
    ensures ArmedInv(t)
  {
    if t.log != k.log {
      var e :| t.log == k.log + [e] && (!e.Accepted? ==> k.fence == Some(e.credit))
        && t.fence == if e.Accepted? then Some(e.credit) else if e.Cleared? then None else k.fence;
      ArmedAppends(k, t, e);
    }
  }

  lemma RunArmed(es: seq<Event>)
    ensures ArmedInv(Run(es).custody)
  {
    var inv := (s: State) => CreditInv(s.engine, s.custody, s.now) && ArmedInv(s.custody);
    forall s: State, e: Event | inv(s) ensures inv(Step(s, e)) {
      StepKeepsCredits(s, e);
      ActArms(s.engine, EngineAct(s.engine, s.custody, e), s.custody, e, s.now);
      ArmedKeeps(s.custody, Step(s, e).custody);
    }
    Runs.Invariant(Step, Init(), inv, es);
  }

  /**
    The fence is always the newest accepted transfer that no clear has spent, and every consumption and
    every clear was of the transfer that was so at that moment, whoever else removes the marker.
   */
  lemma OnlyTheNewestTransferIsUsed(es: seq<Event>)
    ensures var k := Run(es).custody;
      && k.fence == Armed(k.log)
      && forall j :: 0 <= j < |k.log| && (k.log[j].Consumed? || k.log[j].Cleared?) ==>
           Armed(k.log[..j]) == Some(k.log[j].credit)
  {
    RunArmed(es);
  }
}
