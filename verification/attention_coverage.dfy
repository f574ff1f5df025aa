/** Crash coverage: no BEGIN is ever sent without a durable output that keeps it until an exact proof retires it. */
module AttentionCoverage {
  import opened CustodyJournal
  import opened AttentionModel
  import opened AttentionGate
  import opened AttentionImages
  import opened AttentionCustodyProofs
  import opened AttentionRequests

  ghost predicate CoveredBy(t: Session, request: nat, device: nat, expected: Identity) {
    && request in t.outputs
    && var o := t.outputs[request];
      o.device == device && o.original == expected && o.origin == Origin(expected.process, request)
  }

  ghost predicate Covered(j: seq<Session>, request: nat, device: nat, expected: Identity) {
    exists k :: 0 <= k < |j| && CoveredBy(j[k], request, device, expected)
  }

  /** No output says that this request was never submitted. */
  ghost predicate NotDenied(j: seq<Session>, request: nat) {
    forall k :: 0 <= k < |j| && request in j[k].outputs ==> !j[k].outputs[request].noSubmission
  }

  ghost predicate Vouched(c: Store, request: nat, device: nat, expected: Identity) {
    Covered(c.disk, request, device, expected) && NotDenied(c.disk, request)
      && (!c.fault ==> NotDenied(c.journal, request))
  }

  /** A section that writes the store: growth only, and at most the request `x` is denied. */
  ghost predicate Writes(c: Store, e: Store, x: Option<nat>) {
    && (c.fault ==> e.fault && e.disk == c.disk)
    && e.disk in {c.disk, e.journal}
    && (!c.fault ==>
          Grows(c.journal, e.journal)
          && forall r: nat :: Some(r) != x && NotDenied(c.journal, r) ==> NotDenied(e.journal, r))
  }

  lemma CoveredGrows(j: seq<Session>, h: seq<Session>, request: nat, device: nat, expected: Identity)
    requires Grows(j, h) && Covered(j, request, device, expected)
    ensures Covered(h, request, device, expected)
  {
    var k :| 0 <= k < |j| && CoveredBy(j[k], request, device, expected);
    assert SessionGrows(j[k], h[k]);
    assert CoveredBy(h[k], request, device, expected);
  }

  lemma WritesVouch(c: Store, e: Store, x: Option<nat>, request: nat, device: nat, expected: Identity)
    requires StoreOk(c) && Writes(c, e, x) && Vouched(c, request, device, expected) && Some(request) != x
    ensures Vouched(e, request, device, expected)
  {
    if e.disk != c.disk {
      GrowsTransitive(c.disk, c.journal, e.journal);
      CoveredGrows(c.disk, e.disk, request, device, expected);
    }
  }

  /** On disk, nothing is ever forgotten: no session, no output, no retirement. */
  lemma WritesGrow(c: Store, e: Store, x: Option<nat>)
    requires StoreOk(c) && Writes(c, e, x)
    ensures Grows(c.disk, e.disk)
  {
    if e.disk != c.disk { GrowsTransitive(c.disk, c.journal, e.journal); } else { GrowsReflexive(c.disk); }
  }

  lemma SaveWrites(c: Store, j: seq<Session>, outcome: SaveOutcome, x: Option<nat>)
    requires !c.fault ==> Grows(c.journal, j) && forall r: nat :: Some(r) != x && NotDenied(c.journal, r) ==>
      NotDenied(j, r)
    ensures Writes(c, Save(c.(journal := j), outcome), x) && Writes(c, c.(journal := j), x)
  {
  }

  lemma KeepWrites(c: Store, e: Store)
    requires e.journal == c.journal && e.disk == c.disk && (c.fault ==> e.fault)
    ensures Writes(c, e, None)
  {
    GrowsReflexive(c.journal);
  }

  lemma OutputWrites(c: Store, k: nat, key: nat, o: Output, outcome: SaveOutcome, x: Option<nat>)
    requires k < |c.journal|
    requires key in c.journal[k].outputs ==> OutputGrows(c.journal[k].outputs[key], o)
    requires o.noSubmission ==>
      Some(key) == x || (key in c.journal[k].outputs && c.journal[k].outputs[key].noSubmission)
    ensures Writes(c, Save(c.(journal := SetOutput(c.journal, k, key, o)), outcome), x)
    ensures Writes(c, c.(journal := SetOutput(c.journal, k, key, o)), x)
  {
    var j := SetOutput(c.journal, k, key, o);
    forall i | 0 <= i < |j| ensures SessionGrows(c.journal[i], j[i]) { }
    forall r: nat | Some(r) != x && NotDenied(c.journal, r) ensures NotDenied(j, r) {
      assert key in c.journal[k].outputs && c.journal[k].outputs[key].noSubmission ==> r != key;
    }
    SaveWrites(c, j, outcome, x);
  }

  lemma RetiredWrites(c: Store, k: nat, outcome: SaveOutcome)
    requires k < |c.journal|
    ensures Writes(c, Save(c.(journal := SetRetired(c.journal, k)), outcome), None)
  {
    var j := SetRetired(c.journal, k);
    forall i | 0 <= i < |j| ensures SessionGrows(c.journal[i], j[i]) { }
    forall r: nat | NotDenied(c.journal, r) ensures NotDenied(j, r) {
      assert forall i :: 0 <= i < |j| ==> j[i].outputs == c.journal[i].outputs;
    }
    SaveWrites(c, j, outcome, None);
  }

  lemma AppendWrites(c: Store, t: Session, outcome: SaveOutcome)
    requires t.outputs == map[]
    ensures Writes(c, Save(c.(journal := c.journal + [t]), outcome), None)
  {
    var j := c.journal + [t];
    forall i | 0 <= i < |c.journal| ensures SessionGrows(c.journal[i], j[i]) { }
    forall r: nat | NotDenied(c.journal, r) ensures NotDenied(j, r) {
      assert forall i :: 0 <= i < |c.journal| ==> j[i] == c.journal[i];
    }
    SaveWrites(c, j, outcome, None);
  }

  // ----- which section writes what -----

  lemma RetireWrites(s: State, g: Grant, outcome: SaveOutcome)
    ensures Writes(s.store, RetireOutput(s, g, outcome), if g.submitted then None else Some(g.origin.request))
  {
    var k := Current(s);
    if Holds(s, k, g.origin.request) {
      var o := OutputOf(s, k, g.origin.request);
      OutputWrites(s.store, k.value, g.origin.request, Settled(o, g), outcome, if g.submitted then None
        else Some(g.origin.request));
    } else {
      KeepWrites(s.store, RetireOutput(s, g, outcome));
    }
  }

  lemma BeginSessionWrites(s: State, nonce: nat, process: nat, revision: nat, level: int, ttl: int, save: SaveOutcome)
    ensures Writes(s.store, StepBeginSession(s, nonce, process, revision, level, ttl, save).store, None)
  {
    var t := StepBeginSession(s, nonce, process, revision, level, ttl, save);
    var u := Expire(s);
    AppendWrites(s.store, Session(u.process, u.claim.admission + 1, nonce, false, map[]), save);
    if t.store == s.store { KeepWrites(s.store, t.store); }
  }

  lemma MintBeginWrites(s: State, state: Identity, request: nat, save: SaveOutcome)
    requires s.worker.Native? && UsedInv(s) && request !in s.history.used
    ensures Writes(s.store, MintBegin(s, state, request, save).store, None)
  {
    var t := MintBegin(s, state, request, save);
    if Permitted(s, s.worker.job) && request != 0 && Current(s).Some? {
      if s.store.fault {
        assert t.store.disk == s.store.disk;
      } else {
        OutputWrites(s.store, Current(s).value, request, NewOutput(s.worker.job, state, request), save, None);
      }
    } else {
      KeepWrites(s.store, t.store);
    }
  }

  lemma ExitWrites(s: State, save: SaveOutcome)
    ensures Writes(s.store, StepExit(s, save).store, None)
  {
    var t := StepExit(s, save);
    if t.store == s.store {
      KeepWrites(s.store, t.store);
    } else {
      RetiredWrites(s.store, Current(s).value, save);
    }
  }

  /** The request that an event may deny: a minted BEGIN that is retired unsent. */
  function Denies(s: State, e: NativeEvent): Option<nat> {
    if e.EvBeginCommit? && s.worker.Native? && s.worker.at.Minted? then Some(s.worker.at.grant.origin.request) else None
  }

  lemma BeginWrites(s: State, state: Option<Identity>, admit: bool, request: nat, save: SaveOutcome)
    requires CustodyInv(s)
    ensures Writes(s.store, StepBegin(s, state, admit, request, save).store, None)
  {
    KeepWrites(s.store, s.store);
    if s.worker.Native? && s.worker.at.Target? && request !in s.history.used && state.Some? {
      ExpireKeeps(s);
      MintBeginWrites(Expire(s), state.value, request, save);
    }
  }

  lemma NativeWrites(s: State, e: NativeEvent)
    requires CustodyInv(s) && RequestInv(s)
    ensures Writes(s.store, StepNative(s, e).store, Denies(s, e))
  {
    if Moves(e) || e.EvStart? {
      OtherWrites(s, e);
    } else {
      match e
      case EvBegin(state, admit, request, save) => BeginWrites(s, state, admit, request, save);
      case EvBeginCommit(admit, save) => CommitWrites(s, admit, save);
      case EvAdopt(terminal, save) => AdoptWrites(s, terminal, save);
      case EvReleased(save) => ReleasedWrites(s, save);
      case EvExit(save) => ExitWrites(s, save);
      case EvDetect(obs) => KeepWrites(s.store, StepDetect(s, obs).store);
    }
  }

  lemma OtherWrites(s: State, e: NativeEvent)
    requires Moves(e) || e.EvStart?
    ensures Writes(s.store, StepNative(s, e).store, None)
  {
    KeepWrites(s.store, s.store);
    assert StepNative(s, e).store == s.store;
  }

  lemma CommitWrites(s: State, admit: bool, save: SaveOutcome)
    requires RequestInv(s)
    ensures Writes(s.store, StepBeginCommit(s, admit, save).store, Denies(s, EvBeginCommit(admit, save)))
  {
    KeepWrites(s.store, s.store);
    if s.worker.Native? && s.worker.at.Minted? {
      RetireWrites(Expire(s), s.worker.at.grant, save);
    }
  }

  lemma AdoptWrites(s: State, terminal: Option<Result>, save: SaveOutcome)
    requires RequestInv(s)
    ensures Writes(s.store, StepAdopt(s, terminal, save).store, None)
  {
    KeepWrites(s.store, s.store);
    if s.worker.Native? && s.worker.at.Lapsed? && s.worker.at.output in s.grants {
      var d := s.worker.at.output;
      assert GrantKnown(s, s.grants[d], d);
      var h := s.grants[d].(result := terminal);
      RetireWrites(s.(grants := s.grants[d := h]), h, save);
    }
  }

  lemma ReleasedWrites(s: State, save: SaveOutcome)
    requires RequestInv(s)
    ensures Writes(s.store, StepReleased(s, save).store, None)
  {
    KeepWrites(s.store, s.store);
    if s.worker.Native? && s.worker.at.Released? && s.worker.at.output in s.grants {
      var d := s.worker.at.output;
      assert GrantKnown(s, s.grants[d], d);
      RetireWrites(s, s.grants[d], save);
    }
  }

  lemma RewriteWrites(s: State, k: nat, key: nat, o: Output, save: SaveOutcome, next: CustodyPhase)
    requires Works(s, k, key) && OutputGrows(s.store.journal[k].outputs[key], o)
    requires o.noSubmission == s.store.journal[k].outputs[key].noSubmission
    ensures Writes(s.store, SaveOutput(s, k, key, o, save, next).store, None)
  {
    OutputWrites(s.store, k, key, o, save, None);
  }

  lemma StateWrites(s: State, k: nat, key: nat, obs: Option<Observation>, cooling: bool, request: nat,
    save: SaveOutcome)
    ensures Writes(s.store, StepCustodyState(s, k, key, obs, cooling, request, save).store, None)
  {
    KeepWrites(s.store, s.store);
    if Works(s, k, key) && obs.Some? {
      RewriteWrites(s, k, key, Recovering(s.store.journal[k].outputs[key], obs.value, request), save, CPut(k, key));
    }
  }

  lemma ReadWrites(s: State, read: Option<RecoveryResult>, save: SaveOutcome)
    ensures Writes(s.store, StepCustodyRead(s, read, save).store, None)
  {
    KeepWrites(s.store, s.store);
    if s.worker.Custody? && s.worker.phase.CRead? && Works(s, s.worker.phase.k, s.worker.phase.key) {
      var k, key := s.worker.phase.k, s.worker.phase.key;
      RewriteWrites(s, k, key, s.store.journal[k].outputs[key].(result := read), save, CCheck(k, key));
    }
  }

  lemma ProvedWrites(s: State, save: SaveOutcome)
    ensures Writes(s.store, StepCustodyRetire(s, save).store, None)
  {
    KeepWrites(s.store, s.store);
    if s.worker.Custody? && s.worker.phase.CCheck? && Works(s, s.worker.phase.k, s.worker.phase.key) {
      var k, key := s.worker.phase.k, s.worker.phase.key;
      RewriteWrites(s, k, key, s.store.journal[k].outputs[key].(retired := true), save, CNext);
    }
  }

  lemma CustodyWrites(s: State, e: CustodyEvent)
    ensures Writes(s.store, StepCustody(s, e).store, None)
  {
    match e
    case EvCustodyState(k, key, obs, cooling, request, save) => StateWrites(s, k, key, obs, cooling, request, save);
    case EvCustodyReply(answer, save) => ReplyWrites(s, answer, save);
    case EvCustodyRead(read, save) => ReadWrites(s, read, save);
    case EvCustodyRetire(save) => ProvedWrites(s, save);
    case EvSessionRetire(k, save) =>
      KeepWrites(s.store, s.store);
      if FirstUnretired(s.store.journal, k) { RetiredWrites(s.store, k, save); }
    case _ =>
      KeepWrites(s.store, s.store);
      if e.EvCustodyDone? { KeepWrites(s.store, StepCustodyDone(s).store); }
  }

  lemma ReplyWrites(s: State, answer: RecoveryReply, save: SaveOutcome)
    ensures Writes(s.store, StepCustodyReply(s, answer, save).store, None)
  {
    KeepWrites(s.store, s.store);
    if s.worker.Custody? && s.worker.phase.CPutWait? && Works(s, s.worker.phase.k, s.worker.phase.key) {
      var k, key := s.worker.phase.k, s.worker.phase.key;
      var o := s.store.journal[k].outputs[key];
      OutputWrites(s.store, k, key, o.(rejected := true), save, None);
      if answer.Got? { OutputWrites(s.store, k, key, o.(result := Some(answer.result)), save, None); }
    }
  }

  // ----- every BEGIN, sent or about to be -----

  ghost predicate CoverInv(s: State) {
    && (forall i :: 0 <= i < |s.history.sent| && s.history.sent[i].action == Begin ==>
          Vouched(s.store, s.history.sent[i].request, s.history.sent[i].device, s.history.sent[i].expected))
    && (s.worker.Native? && s.worker.at.Minted? ==> GrantVouched(s, s.worker.at.grant, s.worker.job.target))
    && (forall d :: d in s.grants && !s.grants[d].submitted && s.grants[d].command.action == Begin ==>
      GrantVouched(s, s.grants[d], d))
  }

  ghost predicate GrantVouched(s: State, g: Grant, d: nat) {
    Vouched(s.store, g.command.request, d, g.command.expected)
  }

  /** The sent BEGINs stay vouched for by whatever a section writes. */
  lemma SentCovered(s: State, t: State, x: Option<nat>)
    requires StoreOk(s.store) && CoverInv(s) && Writes(s.store, t.store, x) && t.history.sent == s.history.sent
    requires forall i :: 0 <= i < |s.history.sent| ==> Some(s.history.sent[i].request) != x
    ensures forall i :: 0 <= i < |t.history.sent| && t.history.sent[i].action == Begin ==>
          Vouched(t.store, t.history.sent[i].request, t.history.sent[i].device, t.history.sent[i].expected)
  {
    forall i | 0 <= i < |t.history.sent| && t.history.sent[i].action == Begin
      ensures Vouched(t.store, t.history.sent[i].request, t.history.sent[i].device, t.history.sent[i].expected)
    {
      var p := s.history.sent[i];
      WritesVouch(s.store, t.store, x, p.request, p.device, p.expected);
    }
  }

  /** The unsubmitted BEGINs too, unless the section denies one of them. */
  lemma GrantsCovered(s: State, t: State, x: Option<nat>)
    requires StoreOk(s.store) && CoverInv(s) && Writes(s.store, t.store, x)
    requires forall d :: d in t.grants && !t.grants[d].submitted && t.grants[d].command.action == Begin ==>
      d in s.grants && t.grants[d] == s.grants[d] && Some(s.grants[d].command.request) != x
    ensures forall d :: d in t.grants && !t.grants[d].submitted && t.grants[d].command.action == Begin ==>
      GrantVouched(t, t.grants[d], d)
  {
    forall d | d in t.grants && !t.grants[d].submitted && t.grants[d].command.action == Begin
      ensures GrantVouched(t, t.grants[d], d)
    {
      WritesVouch(s.store, t.store, x, s.grants[d].command.request, d, s.grants[d].command.expected);
    }
  }

  lemma CrashVouch(s: State, process: nat, request: nat, device: nat, expected: Identity)
    requires Vouched(s.store, request, device, expected)
    ensures Vouched(StepCrash(s, process).store, request, device, expected)
  {
  }

  lemma BeginSessionCovered(s: State, nonce: nat, process: nat, revision: nat, level: int, ttl: int, save: SaveOutcome)
    requires CustodyInv(s) && RequestInv(s) && CoverInv(s)
    ensures CoverInv(StepBeginSession(s, nonce, process, revision, level, ttl, save))
  {
    var t := StepBeginSession(s, nonce, process, revision, level, ttl, save);
    if t.store != s.store {
      BeginSessionWrites(s, nonce, process, revision, level, ttl, save);
      SentCovered(s, t, None);
      GrantsCovered(s, t, None);
    }
  }

  lemma CrashCovered(s: State, process: nat)
    requires CoverInv(s)
    ensures CoverInv(StepCrash(s, process))
  {
    var t := StepCrash(s, process);
    forall i | 0 <= i < |t.history.sent| && t.history.sent[i].action == Begin
      ensures Vouched(t.store, t.history.sent[i].request, t.history.sent[i].device, t.history.sent[i].expected)
    {
      CrashVouch(s, process, s.history.sent[i].request, s.history.sent[i].device, s.history.sent[i].expected);
    }
  }

  lemma ApiCovered(s: State, e: ApiEvent)
    requires CustodyInv(s) && RequestInv(s) && CoverInv(s)
    ensures CoverInv(StepApi(s, e))
  {
    if e.Crash? {
      CrashCovered(s, e.process);
    } else if e.BeginSession? {
      BeginSessionCovered(s, e.nonce, e.process, e.revision, e.level, e.ttl, e.save);
    }
  }

  lemma CustodyCovered(s: State, e: CustodyEvent)
    requires CustodyInv(s) && RequestInv(s) && CoverInv(s)
    ensures CoverInv(StepCustody(s, e))
  {
    var t := StepCustody(s, e);
    if t != s {
      CustodyWrites(s, e);
      CustodyLeaves(s, e);
      SentCovered(s, t.(history := s.history), None);
      GrantsCovered(s, t, None);
    }
  }

  /** A custody call sends no BEGIN and makes no grant. */
  lemma CustodyLeaves(s: State, e: CustodyEvent)
    requires StepCustody(s, e) != s
    ensures var t := StepCustody(s, e);
      && !t.worker.Native? && t.grants in {s.grants, map[]}
      && s.history.sent <= t.history.sent
      && forall i :: |s.history.sent| <= i < |t.history.sent| ==> t.history.sent[i].action == Recover
  {
  }

  lemma MintedCovered(s: State, state: Identity, request: nat, save: SaveOutcome)
    requires CustodyInv(s) && RequestInv(s) && CoverInv(s) && s.worker.Native? && s.worker.at.Target?
      && request !in s.history.used
    ensures CoverInv(MintBegin(s, state, request, save))
  {
    var t := MintBegin(s, state, request, save);
    MintBeginWrites(s, state, request, save);
    SentCovered(s, t, None);
    GrantsCovered(s, t, None);
    if t.worker.at.Minted? {
      NewOutputVouched(s, t, state, request);
    }
  }

  /** The output of a minted BEGIN is on disk before the mutex is released. */
  lemma NewOutputVouched(s: State, t: State, state: Identity, request: nat)
    requires s.worker.Native? && UsedInv(s) && request !in s.history.used && Current(s).Some? && !s.store.fault
    requires t.store.journal == SetOutput(s.store.journal, Current(s).value, request,
      NewOutput(s.worker.job, state, request))
    requires t.store.disk == t.store.journal
    ensures Vouched(t.store, request, s.worker.job.target, state)
  {
    var k := Current(s).value;
    assert CoveredBy(t.store.disk[k], request, s.worker.job.target, state);
    assert forall i :: 0 <= i < |s.store.journal| ==> request !in s.store.journal[i].outputs;
  }

  lemma ExpiredCovered(s: State)
    requires CustodyInv(s) && RequestInv(s) && CoverInv(s)
    ensures RequestInv(Expire(s)) && CoverInv(Expire(s))
  {
    ApiRequests(s, Expiry);
    ApiCovered(s, Expiry);
  }

  lemma BeginCovered(s: State, state: Option<Identity>, admit: bool, request: nat, save: SaveOutcome)
    requires CustodyInv(s) && RequestInv(s) && CoverInv(s)
    ensures CoverInv(StepBegin(s, state, admit, request, save))
  {
    if s.worker.Native? && s.worker.at.Target? && request !in s.history.used && state.Some? {
      ExpireKeeps(s);
      ExpiredCovered(s);
      MintedCovered(Expire(s), state.value, request, save);
    }
  }

  /** A minted BEGIN that is retired unsent is denied; no other request is. */
  lemma DeniedCovered(s: State, t: State, g: Grant)
    requires StoreOk(s.store) && RequestInv(s) && CoverInv(s) && s.worker.Native? && s.worker.at.Minted?
      && g == s.worker.at.grant
    requires Writes(s.store, t.store, Some(g.origin.request)) && t.history == s.history && t.grants == s.grants
    requires !(t.worker.Native? && t.worker.at.Minted?)
    ensures CoverInv(t)
  {
    assert MintedKnown(s, g);
    SentCovered(s, t, Some(g.origin.request));
    assert forall d :: d in s.grants ==> Apart(g, s.grants[d]);
    GrantsCovered(s, t, Some(g.origin.request));
  }

  /** One that is placed stays vouched for. */
  lemma PlacedCovered(s: State, t: State, g: Grant, d: nat)
    requires CoverInv(s) && s.worker.Native? && s.worker.at.Minted? && g == s.worker.at.grant
      && d == s.worker.job.target
    requires t.store == s.store && t.history == s.history && !(t.worker.Native? && t.worker.at.Minted?)
    requires d in t.grants && t.grants == s.grants[d := t.grants[d]]
      && t.grants[d].command == g.command.(ttl := t.grants[d].command.ttl)
    ensures CoverInv(t)
  {
    assert GrantVouched(s, g, d);
  }

  lemma CommitBeginCovered(s: State, g: Grant, admit: bool, save: SaveOutcome)
    requires StoreOk(s.store) && RequestInv(s) && CoverInv(s) && s.worker.Native? && s.worker.at.Minted?
      && g == s.worker.at.grant
    ensures CoverInv(CommitBegin(s, g, admit, save))
  {
    var t := CommitBegin(s, g, admit, save);
    if !admit || !Permitted(s, s.worker.job) {
      assert MintedKnown(s, g);
      RetireWrites(s, g, save);
      DeniedCovered(s, t, g);
    } else {
      PlacedCovered(s, t, g, s.worker.job.target);
    }
  }

  lemma ExpireCovered(s: State)
    requires RequestInv(s) && CoverInv(s)
    ensures RequestInv(Expire(s)) && CoverInv(Expire(s))
  {
    var t := Expire(s);
    forall d | d in t.grants ensures GrantKnown(t, t.grants[d], d) { assert GrantKnown(s, s.grants[d], d); }
  }

  lemma CommitCovered(s: State, admit: bool, save: SaveOutcome)
    requires CustodyInv(s) && RequestInv(s) && CoverInv(s)
    ensures CoverInv(StepBeginCommit(s, admit, save))
  {
    if s.worker.Native? && s.worker.at.Minted? {
      ExpireCovered(s);
      CommitBeginCovered(Expire(s), s.worker.at.grant, admit, save);
    }
  }

  /** A section that neither submits nor mints a BEGIN. */
  lemma TurnCovered(s: State, t: State)
    requires StoreOk(s.store) && RequestInv(s) && CoverInv(s) && Writes(s.store, t.store, None)
    requires t.history.sent == s.history.sent && !(t.worker.Native? && t.worker.at.Minted?)
    requires forall d :: d in t.grants && !t.grants[d].submitted && t.grants[d].command.action == Begin ==>
      d in s.grants && t.grants[d] == s.grants[d]
    ensures CoverInv(t)
  {
    SentCovered(s, t, None);
    GrantsCovered(s, t, None);
  }

  lemma SubmitCovered(s: State)
    requires CoverInv(s)
    ensures CoverInv(StepSubmit(s))
  {
    var t := StepSubmit(s);
    if s.worker.Native? && s.worker.at.Put? && s.worker.at.output in s.grants
      && !s.grants[s.worker.at.output].submitted {
      SubmittedCovered(s, t, s.worker.at.output);
    }
  }

  /** A submitted BEGIN is vouched for as the grant was. */
  lemma SubmittedCovered(s: State, t: State, d: nat)
    requires CoverInv(s) && t.store == s.store && d in s.grants && !s.grants[d].submitted
    requires d in t.grants && t.grants == s.grants[d := t.grants[d]] && t.grants[d].submitted
      && !(t.worker.Native? && t.worker.at.Minted?)
    requires |t.history.sent| == |s.history.sent| + 1 && s.history.sent <= t.history.sent
    requires var p := t.history.sent[|s.history.sent|]; var c := s.grants[d].command;
      p.action == c.action && p.request == c.request && p.device == d && p.expected == c.expected
    ensures CoverInv(t)
  {
    assert s.grants[d].command.action == Begin ==> GrantVouched(s, s.grants[d], d);
  }

  /** A move leaves the store alone, sends nothing, and either does nothing or leaves no unsent BEGIN of its own. */
  ghost predicate LeavesBegins(s: State, t: State) {
    && t.store == s.store && t.history.sent == s.history.sent
    && (t.worker == s.worker ==> t.grants == s.grants)
    && (t.worker != s.worker ==>
          !(t.worker.Native? && t.worker.at.Minted?)
          && forall d :: d in t.grants && !t.grants[d].submitted && t.grants[d].command.action == Begin ==>
            d in s.grants && t.grants[d] == s.grants[d])
  }

  lemma MoveLeaves(s: State, e: NativeEvent)
    requires RequestInv(s) && ShapeInv(s) && (e.EvUpdate? || e.EvRestoreState?)
    ensures LeavesBegins(s, StepNative(s, e))
  {
    if e.EvUpdate? {
      UpdateLeaves(s, e.state, e.admit, e.request);
    } else {
      RestoreStateLeaves(s, e.state, e.lastRelease, e.request);
    }
  }

  lemma UpdateLeaves(s: State, state: Option<Identity>, admit: bool, request: nat)
    requires RequestInv(s) && ShapeInv(s)
    ensures LeavesBegins(s, StepUpdate(s, state, admit, request))
  {
    forall d | d in s.grants ensures GrantKnown(s, s.grants[d], d) { }
  }

  lemma RestoreStateLeaves(s: State, state: Option<Identity>, lastRelease: nat, request: nat)
    requires RequestInv(s) && ShapeInv(s)
    ensures LeavesBegins(s, StepRestoreState(s, state, lastRelease, request))
  {
    forall d | d in s.grants ensures GrantKnown(s, s.grants[d], d) { }
  }

  lemma ReplyLeaves(s: State, d: nat, reply: Option<Result>, next: Phase)
    requires RequestInv(s) && s.worker.Native? && d in s.grants && !AtPutAny(s) && !s.worker.at.Minted?
      && !next.Minted? && next != s.worker.at
    requires s.worker.at != Detect(d, Return) && s.worker.at != Detect(d, next)
    ensures LeavesBegins(s, TakeReply(s, d, reply, next))
  {
    forall e | e in s.grants ensures GrantKnown(s, s.grants[e], e) { }
  }

  lemma TurnLeaves(s: State, e: NativeEvent)
    requires e.EvPoll? || e.EvRecheck? || e.EvTargeted? || e.EvRestore? || e.EvStart?
    ensures LeavesBegins(s, StepNative(s, e))
  {
  }

  lemma LeftCovered(s: State, t: State)
    requires StoreOk(s.store) && RequestInv(s) && CoverInv(s) && LeavesBegins(s, t)
    ensures CoverInv(t)
  {
    if t.worker != s.worker {
      KeepWrites(s.store, t.store);
      TurnCovered(s, t);
    }
  }

  lemma MoveCovered(s: State, e: NativeEvent)
    requires CustodyInv(s) && RequestInv(s) && CoverInv(s) && (Moves(e) || e.EvStart?) && !e.EvSubmit?
    ensures CoverInv(StepNative(s, e))
  {
    if e.EvUpdate? || e.EvRestoreState? {
      MoveLeaves(s, e);
    } else if e.EvObserved? {
      if s.worker.Native? && s.worker.at.Observe? && s.worker.at.output in s.grants {
        ReplyLeaves(s, s.worker.at.output, e.reply, Observed(s.worker.at.output, s.worker.at.left));
      }
    } else if e.EvReply? {
      if s.worker.Native? && s.worker.at.PutWait? && s.worker.at.output in s.grants {
        ReplyLeaves(s, s.worker.at.output, e.reply, s.worker.at.next);
      }
    } else {
      TurnLeaves(s, e);
    }
    LeftCovered(s, StepNative(s, e));
  }

  lemma NativeCovered(s: State, e: NativeEvent)
    requires CustodyInv(s) && RequestInv(s) && CoverInv(s)
    ensures CoverInv(StepNative(s, e))
  {
    if e.EvSubmit? {
      SubmitCovered(s);
    } else if Moves(e) || e.EvStart? {
      MoveCovered(s, e);
    } else if e.EvBegin? {
      BeginCovered(s, e.state, e.admit, e.request, e.save);
    } else if e.EvBeginCommit? {
      CommitCovered(s, e.admit, e.save);
    } else {
      SettleCovered(s, e);
    }
  }

  lemma SettleCovered(s: State, e: NativeEvent)
    requires CustodyInv(s) && RequestInv(s) && CoverInv(s) && (e.EvDetect? || e.EvAdopt? || e.EvReleased? || e.EvExit?)
    ensures CoverInv(StepNative(s, e))
  {
    var t := StepNative(s, e);
    if t != s {
      NativeWrites(s, e);
      SettleLeaves(s, e);
      TurnCovered(s, t);
    }
  }

  /** What a settling section leaves of the unsent BEGINs. */
  ghost predicate Settles(s: State, t: State) {
    && t.history.sent == s.history.sent && !(t.worker.Native? && t.worker.at.Minted?)
    && forall d :: d in t.grants && !t.grants[d].submitted && t.grants[d].command.action == Begin ==>
      d in s.grants && t.grants[d] == s.grants[d]
  }

  lemma SettleLeaves(s: State, e: NativeEvent)
    requires RequestInv(s) && ShapeInv(s) && (e.EvDetect? || e.EvAdopt? || e.EvReleased? || e.EvExit?)
      && StepNative(s, e) != s
    ensures Settles(s, StepNative(s, e))
  {
    match e
    case EvAdopt(terminal, save) => AdoptLeaves(s, terminal, save);
    case EvReleased(save) => ReleasedLeaves(s, save);
    case _ => QuietLeaves(s, e);
  }

  lemma AdoptLeaves(s: State, terminal: Option<Result>, save: SaveOutcome)
    requires RequestInv(s) && StepAdopt(s, terminal, save) != s
    ensures Settles(s, StepAdopt(s, terminal, save))
  {
    assert GrantKnown(s, s.grants[s.worker.at.output], s.worker.at.output);
  }

  lemma ReleasedLeaves(s: State, save: SaveOutcome)
    requires StepReleased(s, save) != s
    ensures Settles(s, StepReleased(s, save))
  {
  }

  lemma QuietLeaves(s: State, e: NativeEvent)
    requires ShapeInv(s) && (e.EvDetect? || e.EvExit?) && StepNative(s, e) != s
    ensures Settles(s, StepNative(s, e))
  {
  }
}
