/** The journal under every interleaving: single owner, sound images, and what the grants may rely on. */
module AttentionCustodyProofs {
  import Runs
  import opened CustodyJournal
  import opened AttentionModel
  import opened AttentionImages
  import opened AttentionGate

  predicate IsCurrent(s: State, t: Session) {
    Names(t, s.process, s.claim.nonce, s.claim.admission)
  }

  /** The unretired session, if any, is the one whose owner this process still serves. */
  ghost predicate OwnerInv(s: State) {
    !s.store.fault ==>
      && (forall i :: 0 <= i < |s.store.journal| && s.store.journal[i].process == s.process ==>
        s.store.journal[i].revision <= s.claim.admission)
      && (s.claim.active ==> Current(s).Some? && !s.store.journal[Current(s).value].retired)
      && (!s.store.imported ==> forall i :: 0 <= i < |s.store.journal| && !s.store.journal[i].retired ==>
            IsCurrent(s, s.store.journal[i]) && (s.claim.active || s.claim.pendingRelease))
  }

  /** The output that a grant has to retire is still in the current session, unretired. */
  ghost predicate HasOutput(s: State, g: Grant, d: nat) {
    && Holds(s, Current(s), g.origin.request)
    && var o := OutputOf(s, Current(s), g.origin.request);
       !o.retired && o.origin == g.origin && o.device == d && o.recovery.None?
  }

  ghost predicate GrantInv(s: State) {
    !s.store.fault && (s.worker.Native? || !s.store.imported) ==>
      && (forall d :: d in s.grants ==> HasOutput(s, s.grants[d], d))
      && (s.worker.Native? && s.worker.at.Minted? ==>
            s.worker.job.target !in s.grants && HasOutput(s, s.worker.at.grant, s.worker.job.target))
  }

  /** The output a recovery works on is unretired and carries the attempt. */
  ghost predicate PhaseInv(s: State) {
    !s.store.fault && s.worker.Custody? ==>
      match s.worker.phase
      case CPut(k, key) =>
        Works(s, k, key) && Attempting(s.store.journal[k].outputs[key]) && s.store.journal[k].outputs[key].result.None?
      case CPutWait(k, key) =>
        Works(s, k, key) && Attempting(s.store.journal[k].outputs[key]) && s.store.journal[k].outputs[key].result.None?
      case CRead(k, key) => Works(s, k, key) && Attempting(s.store.journal[k].outputs[key])
      case CCheck(k, key) => Works(s, k, key) && Attempting(s.store.journal[k].outputs[key])
      case _ => true
  }

  predicate Attempting(o: Output) {
    !o.retired && !o.rejected && o.recovery.Some?
  }

  ghost predicate ImageUsed(j: seq<Session>, used: set<nat>) {
    forall i :: 0 <= i < |j| ==> j[i].process in used && j[i].outputs.Keys <= used
  }

  /** Every identity in an image was generated before. */
  ghost predicate UsedInv(s: State) {
    s.process in s.history.used && ImageUsed(s.store.disk, s.history.used)
      && (!s.store.fault ==> ImageUsed(s.store.journal, s.history.used))
  }

  /** What the store owes to the session, the grants and the recovery it serves. */
  ghost predicate StoredInv(s: State) {
    StoreOk(s.store) && OwnerInv(s) && GrantInv(s) && PhaseInv(s) && UsedInv(s)
  }

  ghost predicate CustodyInv(s: State) {
    GateInv(s) && ShapeInv(s) && StoredInv(s)
  }

  // ----- events that leave the store alone -----

  /** The session in force and the store stay, and every grant keeps its origin. */
  ghost predicate SameCustody(s: State, t: State) {
    && t.store == s.store && t.process == s.process && s.history.used <= t.history.used
    && t.claim.nonce == s.claim.nonce && t.claim.admission == s.claim.admission
    && (t.claim.active ==> s.claim.active) && (s.claim.active || s.claim.pendingRelease ==>
      t.claim.active || t.claim.pendingRelease)
    && (forall d :: d in t.grants ==> d in s.grants && t.grants[d].origin == s.grants[d].origin)
  }

  lemma SameCustodyKeeps(s: State, t: State)
    requires CustodyInv(s) && SameCustody(s, t)
    requires t.worker.Native? ==> !t.worker.at.Minted? && (s.worker.Native? || !s.store.imported)
    requires !t.worker.Native? ==> t.worker == s.worker
    ensures StoredInv(t)
  {
    assert Current(t) == Current(s);
    forall d | d in t.grants && HasOutput(s, s.grants[d], d) ensures HasOutput(t, t.grants[d], d) { }
  }

  lemma MintedKeeps(s: State, t: State)
    requires CustodyInv(s) && SameCustody(s, t) && t.worker == s.worker
    ensures StoredInv(t)
  {
    assert Current(t) == Current(s);
    forall d | d in t.grants && HasOutput(s, s.grants[d], d) ensures HasOutput(t, t.grants[d], d) { }
  }

  // ----- the API -----

  lemma ExpireKeeps(s: State)
    requires CustodyInv(s)
    ensures CustodyInv(Expire(s))
  {
    ApiGate(s, Expiry);
    MintedKeeps(s, Expire(s));
  }

  /** A begin is admitted only when every session is retired and no grant is outstanding. */
  lemma BeginNeedsAllRetired(s: State, nonce: nat, process: nat, revision: nat)
    requires CustodyInv(s) && MayEngage(s, nonce, process) && MayBegin(s, nonce, revision)
    ensures !Unretired(s.store.journal) && s.grants == map[] && s.worker == Idle
  {
  }

  lemma AdmittedKeeps(s: State, t: State, admitted: Session)
    requires CustodyInv(s) && !s.store.fault && !Unretired(s.store.journal) && s.grants == map[] && s.worker == Idle
    requires admitted == Session(s.process, s.claim.admission + 1, t.claim.nonce, false, map[]) && t.claim.nonce != 0
      && s.process != 0
    requires t.store.journal == s.store.journal + [admitted] && StoreOk(t.store) && t.store.imported == s.store.imported
    requires t.store.disk in {s.store.disk, t.store.journal}
    requires t.process == s.process && t.grants == s.grants && t.worker == s.worker && t.history == s.history
    requires t.claim.admission == s.claim.admission + 1 && t.claim.active
    ensures OwnerInv(t) && GrantInv(t) && PhaseInv(t) && UsedInv(t)
  {
    assert t.store.journal[|s.store.journal|] == admitted;
    var k := Current(t);
    assert k.Some?;
    assert k.value == |s.store.journal|;
  }

  lemma BeginSessionKeeps(u: State, nonce: nat, process: nat, revision: nat, level: int, ttl: int, save: SaveOutcome)
    requires CustodyInv(u)
    ensures CustodyInv(StepBeginSession(u, nonce, process, revision, level, ttl, save))
  {
    var s := Expire(u);
    var t := StepBeginSession(u, nonce, process, revision, level, ttl, save);
    ApiGate(u, BeginSession(nonce, process, revision, level, ttl, save));
    ExpireKeeps(u);
    if MayEngage(s, nonce, process) && !(s.claim.active && nonce == s.claim.nonce) && MayBegin(s, nonce, revision) {
      BeginNeedsAllRetired(s, nonce, process, revision);
      var admitted := Session(s.process, s.claim.admission + 1, nonce, false, map[]);
      AppendOk(s.store.journal, admitted);
      var c := s.store.(journal := s.store.journal + [admitted]);
      SaveOk(s.store, c, save);
      if Durable(c, save) { AdmittedKeeps(s, t, admitted); }
    }
  }

  lemma CrashKeeps(s: State, process: nat)
    requires CustodyInv(s)
    ensures CustodyInv(StepCrash(s, process))
  {
    var t := StepCrash(s, process);
    forall i | 0 <= i < |t.store.disk| ensures SessionGrows(t.store.disk[i], t.store.disk[i]) { }
  }

  lemma ApiKeeps(s: State, e: ApiEvent)
    requires CustodyInv(s)
    ensures CustodyInv(StepApi(s, e))
  {
    if e.BeginSession? {
      BeginSessionKeeps(s, e.nonce, e.process, e.revision, e.level, e.ttl, e.save);
    } else if e.Crash? {
      CrashKeeps(s, e.process);
    } else {
      ApiGate(s, e);
      ApiSame(s, e);
      MintedKeeps(s, StepApi(s, e));
    }
  }

  lemma ApiSame(s: State, e: ApiEvent)
    requires !e.BeginSession? && !e.Crash?
    ensures SameCustody(s, StepApi(s, e)) && StepApi(s, e).worker == s.worker
  {
  }

  // ----- native reconcile -----

  lemma StartKeeps(u: State, base: nat, target: nat, targetOnly: bool, releaseOnly: bool)
    requires CustodyInv(u)
    ensures CustodyInv(StepStart(u, base, target, targetOnly, releaseOnly))
  {
    StartGate(u, base, target, targetOnly, releaseOnly);
    ExpireKeeps(u);
    var s := Expire(u);
    if Requested(s, releaseOnly, targetOnly, target) {
      SameCustodyKeeps(s, StepStart(u, base, target, targetOnly, releaseOnly));
    }
  }

  lemma ImportKeeps(s: State, base: nat, d: nat)
    requires CustodyInv(s) && s.worker.Native?
    ensures CustodyInv(Imported(s, base, d))
  {
    var t := Imported(s, base, d);
    if !t.store.fault {
      assert Current(t) == Current(s);
      forall d | d in t.grants ensures HasOutput(t, t.grants[d], d) { assert HasOutput(s, s.grants[d], d); }
    }
  }

  lemma DetectKeeps(s: State, obs: Option<Observation>)
    requires CustodyInv(s)
    ensures CustodyInv(StepDetect(s, obs))
  {
    DetectGate(s, obs);
    if s.worker.Native? && s.worker.at.Detect? {
      var d := s.worker.at.output;
      var i := if obs.Some? && d in s.grants && Replaced(s.grants[d], d, obs.value)
        then Imported(s, s.worker.job.base, d) else s;
      assert CustodyInv(i) by { ImportKeeps(s, s.worker.job.base, d); }
      SameCustodyKeeps(i, At(i, s.worker.at.next));
    }
  }

  lemma MoveSame(s: State, e: NativeEvent)
    requires ShapeInv(s) && Moves(e)
    ensures SameCustody(s, StepNative(s, e))
    ensures StepNative(s, e).worker == s.worker
      || (s.worker.Native? && StepNative(s, e).worker.Native? && !StepNative(s, e).worker.at.Minted?)
  {
    if e.EvUpdate? || e.EvRestoreState? { MintSame(s, e); }
  }

  lemma MintSame(s: State, e: NativeEvent)
    requires ShapeInv(s) && (e.EvUpdate? || e.EvRestoreState?)
    ensures SameCustody(s, StepNative(s, e))
    ensures StepNative(s, e).worker == s.worker
      || (s.worker.Native? && StepNative(s, e).worker.Native? && !StepNative(s, e).worker.at.Minted?)
  {
  }

  lemma MoveKeeps(s: State, e: NativeEvent)
    requires CustodyInv(s) && Moves(e)
    ensures CustodyInv(StepNative(s, e))
  {
    var t := StepNative(s, e);
    MoveGate(s, e);
    MoveSame(s, e);
    if t.worker == s.worker { MintedKeeps(s, t); } else { SameCustodyKeeps(s, t); }
  }

  lemma MintBeginKeeps(s: State, state: Identity, request: nat, save: SaveOutcome)
    requires CustodyInv(s) && s.worker.Native? && request !in s.history.used && Beginnable(s.worker.job, Some(state))
      && s.worker.job.target !in s.grants
    ensures var t := MintBegin(s, state, request, save); StoredInv(t)
  {
    var t := MintBegin(s, state, request, save);
    if !Permitted(s, s.worker.job) || request == 0 {
      SameCustodyKeeps(s, t);
    } else if Current(s).Some? {
      BegunKeeps(s, t, Current(s).value, request, NewOutput(s.worker.job, state, request), save);
    }
  }

  lemma BeginKeeps(s: State, state: Option<Identity>, admit: bool, request: nat, save: SaveOutcome)
    requires CustodyInv(s)
    ensures CustodyInv(StepBegin(s, state, admit, request, save))
  {
    BeginGate(s, state, admit, request, save);
    if s.worker.Native? && s.worker.at.Target? && s.worker.job.target !in s.grants && request !in s.history.used {
      if !Beginnable(s.worker.job, state) || !admit {
        SameCustodyKeeps(s, At(s, Return));
      } else {
        ExpireKeeps(s);
        MintBeginKeeps(Expire(s), state.value, request, save);
      }
    }
  }

  /** A new unretired output in the current session. */
  lemma BegunKeeps(s: State, t: State, k: nat, request: nat, o: Output, save: SaveOutcome)
    requires CustodyInv(s) && s.worker.Native? && Current(s) == Some(k) && request !in s.history.used && s.claim.active
    requires OutputLoads(false, request, o) && !o.retired && o.recovery.None?
    requires t.store == Save(s.store.(journal := SetOutput(s.store.journal, k, request, o)), save)
    requires t.process == s.process && t.claim == s.claim && t.grants == s.grants
      && t.history.used == s.history.used + {request}
    requires t.worker.Native? && (t.worker.at.Minted? ==>
      t.worker.job.target !in s.grants && t.worker.at.grant.origin == o.origin && t.worker.job.target == o.device)
    ensures StoredInv(t)
  {
    if !s.store.fault {
      SetOutputOk(s.store.journal, k, request, o);
      SaveOk(s.store, s.store.(journal := SetOutput(s.store.journal, k, request, o)), save);
      OutputKeepsCurrent(s, t, k, request, o);
    }
  }

  /** Writing one output moves neither the current session nor any other output of it. */
  lemma OutputKeepsCurrent(s: State, t: State, k: nat, key: nat, o: Output)
    requires k < |s.store.journal| && t.store.journal == SetOutput(s.store.journal, k, key, o)
    requires t.process == s.process && t.claim.nonce == s.claim.nonce && t.claim.admission == s.claim.admission
    ensures Current(t) == Current(s)
  {
    var i, j := Current(s), Current(t);
    SameFind(s.store.journal, t.store.journal, 0, s.process, s.claim.nonce, s.claim.admission);
  }

  lemma {:induction false} SameFind(j: seq<Session>, h: seq<Session>, from: nat, process: nat, nonce: nat,
    revision: nat)
    requires from <= |j| == |h|
    requires forall i :: 0 <= i < |j| ==>
      h[i].process == j[i].process && h[i].nonce == j[i].nonce && h[i].revision == j[i].revision
    ensures FindFrom(h, from, process, nonce, revision) == FindFrom(j, from, process, nonce, revision)
    decreases |j| - from
  {
    if from < |j| { SameFind(j, h, from + 1, process, nonce, revision); }
  }

  /** Settling leaves a loadable output: retired, it carries its proof. */
  lemma SettledLoads(o: Output, g: Grant, sessionRetired: bool, key: nat)
    requires OutputLoads(sessionRetired, key, o) && !o.retired && o.recovery.None?
    ensures OutputLoads(sessionRetired, key, Settled(o, g)) && OutputGrows(o, Settled(o, g))
  {
  }

  /** The journal with the grant's output settled. */
  function SettledJournal(s: State, g: Grant): seq<Session>
    requires Holds(s, Current(s), g.origin.request)
  {
    var k := Current(s);
    SetOutput(s.store.journal, k.value, g.origin.request, Settled(OutputOf(s, k, g.origin.request), g))
  }

  lemma SettledJournalOk(s: State, g: Grant, d: nat)
    requires StoreOk(s.store) && UsedInv(s) && !s.store.fault && HasOutput(s, g, d)
    ensures var j := SettledJournal(s, g);
      ImageOk(j) && Grows(s.store.journal, j) && ImageUsed(j, s.history.used)
  {
    var k := Current(s);
    assert SessionLoads(s.store.journal[k.value]);
    SettledLoads(OutputOf(s, k, g.origin.request), g, s.store.journal[k.value].retired, g.origin.request);
    SetOutputOk(s.store.journal, k.value, g.origin.request, Settled(OutputOf(s, k, g.origin.request), g));
  }

  /** RetireOutput writes one output of the current session, or faults. */
  lemma RetireKeeps(s: State, g: Grant, d: nat, save: SaveOutcome)
    requires StoreOk(s.store) && UsedInv(s) && (!s.store.fault ==> HasOutput(s, g, d))
    ensures var c := RetireOutput(s, g, save);
      && StoreOk(c) && c.imported == s.store.imported && ImageUsed(c.disk, s.history.used)
        && Grows(s.store.disk, c.disk)
      && (!c.fault ==> !s.store.fault && ImageUsed(c.journal, s.history.used) && c.journal == SettledJournal(s, g))
  {
    GrowsReflexive(s.store.disk);
    if !s.store.fault {
      SettledJournalOk(s, g, d);
      SaveOk(s.store, s.store.(journal := SettledJournal(s, g)), save);
    }
  }

  /** What is left when a grant's output has been settled: the other grants keep theirs. */
  lemma SettledKeeps(s: State, t: State, g: Grant, d: nat, save: SaveOutcome)
    requires CustodyInv(s) && s.worker.Native? && (!s.store.fault ==> HasOutput(s, g, d))
    requires t.store == RetireOutput(s, g, save) && t.process == s.process && t.claim == s.claim
      && t.history == s.history
    requires t.worker.Native? && !t.worker.at.Minted?
    requires forall e :: e in t.grants ==> e in s.grants && t.grants[e].origin == s.grants[e].origin
    requires d in t.grants && !t.store.fault ==> !MayRetire(OutputOf(s, Current(s), g.origin.request), g)
    ensures StoredInv(t)
  {
    RetireKeeps(s, g, d, save);
    if !t.store.fault {
      var k := Current(s);
      var o := Settled(OutputOf(s, k, g.origin.request), g);
      OutputKeepsCurrent(s, t, k.value, g.origin.request, o);
      forall e | e in t.grants ensures HasOutput(t, t.grants[e], e) { assert HasOutput(s, s.grants[e], e); }
    }
  }

  lemma CommitBeginKeeps(s: State, g: Grant, admit: bool, save: SaveOutcome)
    requires CustodyInv(s) && s.worker.Native? && s.worker.at.Minted? && g == s.worker.at.grant
    ensures var t := CommitBegin(s, g, admit, save); StoredInv(t)
  {
    var t := CommitBegin(s, g, admit, save);
    if !admit || !Permitted(s, s.worker.job) {
      SettledKeeps(s, t, g, s.worker.job.target, save);
    } else {
      PlacedKeeps(s, t, g);
    }
  }

  lemma CommitKeeps(s: State, admit: bool, save: SaveOutcome)
    requires CustodyInv(s)
    ensures CustodyInv(StepBeginCommit(s, admit, save))
  {
    CommitGate(s, admit, save);
    if s.worker.Native? && s.worker.at.Minted? {
      ExpireKeeps(s);
      CommitBeginKeeps(Expire(s), s.worker.at.grant, admit, save);
    }
  }

  /** The minted grant enters the map of grants. */
  lemma PlacedKeeps(s: State, t: State, g: Grant)
    requires CustodyInv(s) && s.worker.Native? && s.worker.at.Minted? && g == s.worker.at.grant
    requires t.store == s.store && t.process == s.process && t.claim == s.claim && t.history == s.history
    requires t.worker.Native? && !t.worker.at.Minted?
    requires forall e :: e in t.grants && e != s.worker.job.target ==> e in s.grants && t.grants[e] == s.grants[e]
    requires s.worker.job.target in t.grants && t.grants[s.worker.job.target].origin == g.origin
    ensures OwnerInv(t) && GrantInv(t) && PhaseInv(t) && UsedInv(t)
  {
    if !t.store.fault {
      assert Current(t) == Current(s);
      forall e | e in t.grants ensures HasOutput(t, t.grants[e], e) {
        assert e != s.worker.job.target ==> HasOutput(s, s.grants[e], e);
      }
    }
  }

  /** A retirement does not look at the grants. */
  lemma SameRetirement(s: State, r: State, h: Grant, save: SaveOutcome)
    requires r == s.(grants := r.grants)
    ensures RetireOutput(r, h, save) == RetireOutput(s, h, save) && Retires(r, h, save) == Retires(s, h, save)
  {
    assert Current(r) == Current(s);
  }

  lemma RetireGrantKeeps(s: State, r: State, d: nat, h: Grant, left: set<nat>, save: SaveOutcome)
    requires CustodyInv(s) && s.worker.Native? && d in s.grants && h.origin == s.grants[d].origin
    requires r == s.(grants := r.grants) && forall e :: e in r.grants ==>
      e in s.grants && r.grants[e].origin == s.grants[e].origin
    ensures var t := RetireGrant(r, d, h, left, save); StoredInv(t)
  {
    SameRetirement(s, r, h, save);
    SettledKeeps(s, RetireGrant(r, d, h, left, save), h, d, save);
  }

  lemma AdoptKeeps(s: State, terminal: Option<Result>, save: SaveOutcome)
    requires CustodyInv(s)
    ensures CustodyInv(StepAdopt(s, terminal, save))
  {
    AdoptGate(s, terminal, save);
    AdoptStores(s, terminal, save);
  }

  lemma AdoptStores(s: State, terminal: Option<Result>, save: SaveOutcome)
    requires CustodyInv(s)
    ensures StoredInv(StepAdopt(s, terminal, save))
  {
    if s.worker.Native? && s.worker.at.Lapsed? && s.worker.at.output in s.grants {
      var d := s.worker.at.output;
      var g := s.grants[d];
      if Blocked(s) || terminal.None? || !Adoptable(g, d, s.worker.at.operation, terminal.value)
        || !Allowed(s, s.worker.job, d) {
        SameCustodyKeeps(s, At(s, Return));
      } else {
        var h := g.(result := terminal);
        RetireGrantKeeps(s, s.(grants := s.grants[d := h]), d, h, s.worker.at.left, save);
      }
    }
  }

  lemma ReleasedKeeps(s: State, save: SaveOutcome)
    requires CustodyInv(s)
    ensures CustodyInv(StepReleased(s, save))
  {
    ReleasedGate(s, save);
    if s.worker.Native? && s.worker.at.Released? && s.worker.at.output in s.grants {
      var d := s.worker.at.output;
      var g := s.grants[d];
      if g.result.None? || !ReleaseAccepted(g.result.value) || !Allowed(s, s.worker.job, d) {
        SameCustodyKeeps(s, At(s, Return));
      } else {
        RetireGrantKeeps(s, s, d, g, s.worker.at.left, save);
      }
    }
  }

  /** custodyFinishLocked retires the current session only when nothing of it is left. */
  lemma FinishKeeps(s: State, save: SaveOutcome)
    requires StoreOk(s.store) && UsedInv(s)
    ensures var c := FinishStore(s, save);
      && StoreOk(c) && c.imported == s.store.imported && ImageUsed(c.disk, s.history.used)
      && (!c.fault ==> !s.store.fault && ImageUsed(c.journal, s.history.used))
  {
    var k := Current(s);
    if !s.store.fault && k.Some? && AllRetired(s.store.journal[k.value]) {
      SetRetiredOk(s.store.journal, k.value);
      SaveOk(s.store, s.store.(journal := SetRetired(s.store.journal, k.value)), save);
    }
  }

  /** An exit that clears the pending release leaves no session unretired. */
  lemma ExitKeeps(s: State, save: SaveOutcome)
    requires CustodyInv(s)
    ensures CustodyInv(StepExit(s, save))
  {
    ExitGate(s, save);
    var t := StepExit(s, save);
    if s.worker.Native? && s.worker.at.Return? {
      if s.claim.active || s.grants != map[] {
        ReturnedKeeps(s, t);
      } else {
        FinishKeeps(s, save);
        FinishedOwner(s, t, save);
      }
    }
  }

  lemma ReturnedKeeps(s: State, t: State)
    requires CustodyInv(s) && t == s.(gate := t.gate, worker := Idle) && s.worker.Native?
    ensures StoredInv(t)
  {
    assert Current(t) == Current(s);
    forall d | d in t.grants && HasOutput(s, s.grants[d], d) ensures HasOutput(t, t.grants[d], d) { }
  }

  lemma FinishedOwner(s: State, t: State, save: SaveOutcome)
    requires CustodyInv(s) && !s.claim.active && s.grants == map[] && t.grants == map[] && t.worker == Idle
    requires t.store == FinishStore(s, save) && t.process == s.process && t.history == s.history
    requires t.claim == if Finishes(s, save) then s.claim.(pendingRelease := false) else s.claim
    ensures OwnerInv(t) && GrantInv(t) && PhaseInv(t)
  {
    if !t.store.fault && !t.store.imported {
      forall i | 0 <= i < |t.store.journal| && !t.store.journal[i].retired
        ensures IsCurrent(t, t.store.journal[i]) && t.claim.pendingRelease
      {
        assert IsCurrent(s, s.store.journal[i]);
        assert SessionLoads(s.store.journal[i]);
        OneCurrent(s, i);
      }
    }
  }

  /** The session in force is the only one that carries its names. */
  lemma OneCurrent(s: State, i: nat)
    requires RevisionsGrow(s.store.journal) && i < |s.store.journal| && IsCurrent(s, s.store.journal[i])
    ensures Current(s) == Some(i)
  {
    var k := Current(s);
    assert k.Some?;
  }

  // ----- custody reconcile -----

  /** A custody call moves between phases, or ends, without touching the store. */
  lemma CPhaseKeeps(s: State, t: State)
    requires CustodyInv(s) && t == s.(gate := t.gate, worker := t.worker)
    requires (s.worker.Custody? && (t.worker == Idle || t.worker.Custody?))
      || (s.worker == Idle && t.worker == Custody(CNext))
    requires t.worker.Custody? ==> PhaseInv(t)
    ensures StoredInv(t)
  {
    assert Current(t) == Current(s);
    forall d | d in t.grants && HasOutput(s, s.grants[d], d) ensures HasOutput(t, t.grants[d], d) { }
  }

  /** One output of the working session is rewritten while the custody is imported. */
  lemma RewriteKeeps(s: State, k: nat, key: nat, o: Output, save: SaveOutcome, next: CustodyPhase, used: set<nat>)
    requires CustodyInv(s) && s.store.imported && Works(s, k, key) && s.worker.Custody? && s.history.used <= used
    requires !s.store.fault ==>
      OutputGrows(s.store.journal[k].outputs[key], o) && OutputLoads(s.store.journal[k].retired, key, o)
    requires next in {CNext, CReturn} || (next in {CPut(k, key), CCheck(k, key)} && Attempting(o)
      && (next.CPut? ==> o.result.None?))
    ensures var t := SaveOutput(s, k, key, o, save, next).(history := s.history.(used := used));
      StoredInv(t)
  {
    var t := SaveOutput(s, k, key, o, save, next).(history := s.history.(used := used));
    if !s.store.fault {
      SetOutputOk(s.store.journal, k, key, o);
      SaveOk(s.store, s.store.(journal := SetOutput(s.store.journal, k, key, o)), save);
    }
  }

  lemma OutputSound(s: State, k: nat, key: nat)
    requires CustodyInv(s) && !s.store.fault && Works(s, k, key)
    ensures OutputLoads(s.store.journal[k].retired, key, s.store.journal[k].outputs[key])
  {
    assert SessionLoads(s.store.journal[k]);
  }

  lemma CustodyStateKeeps(s: State, k: nat, key: nat, obs: Option<Observation>, cooling: bool, request: nat,
    save: SaveOutcome)
    requires CustodyInv(s)
    ensures var t := StepCustodyState(s, k, key, obs, cooling, request, save);
            StoredInv(t)
  {
    var t := StepCustodyState(s, k, key, obs, cooling, request, save);
    if s.worker == Custody(CNext) && FirstUnretired(s.store.journal, k) && Works(s, k, key)
      && request !in s.history.used
       && !s.store.journal[k].outputs[key].retired
    {
      var o := s.store.journal[k].outputs[key];
      if t.history == s.history {
        CPhaseKeeps(s, t);
      } else {
        OutputSound(s, k, key);
        RewriteKeeps(s, k, key, Recovering(o, obs.value, request), save, CPut(k, key), s.history.used + {request});
      }
    }
  }

  lemma CustodyReplyKeeps(s: State, reply: RecoveryReply, save: SaveOutcome)
    requires CustodyInv(s)
    ensures var t := StepCustodyReply(s, reply, save);
            StoredInv(t)
  {
    var t := StepCustodyReply(s, reply, save);
    if s.worker.Custody? && s.worker.phase.CPutWait? && Works(s, s.worker.phase.k, s.worker.phase.key) {
      var k, key := s.worker.phase.k, s.worker.phase.key;
      var o := s.store.journal[k].outputs[key];
      if s.store.fault || o.retired || o.recovery.None? || reply.Lost? || (reply.BadRequest? && o.result.Some?)
         || (reply.Got? && !ValidRecoveryObservation(o.recovery.value, o.device, reply.result))
      {
        CPhaseKeeps(s, CAt(s, CReturn));
      } else {
        OutputSound(s, k, key);
        if reply.BadRequest? {
          RewriteKeeps(s, k, key, o.(rejected := true), save, CReturn, s.history.used);
        } else {
          RewriteKeeps(s, k, key, o.(result := Some(reply.result)), save, CCheck(k, key), s.history.used);
        }
      }
    }
  }

  lemma CustodyReadKeeps(s: State, reply: Option<RecoveryResult>, save: SaveOutcome)
    requires CustodyInv(s)
    ensures var t := StepCustodyRead(s, reply, save);
            StoredInv(t)
  {
    if s.worker.Custody? && s.worker.phase.CRead? && Works(s, s.worker.phase.k, s.worker.phase.key) {
      var k, key := s.worker.phase.k, s.worker.phase.key;
      var o := s.store.journal[k].outputs[key];
      if reply.None? || o.recovery.None? || !ValidRecoveryObservation(o.recovery.value, o.device, reply.value) {
        CPhaseKeeps(s, CAt(s, CReturn));
      } else if !s.store.fault {
        OutputSound(s, k, key);
        RewriteKeeps(s, k, key, o.(result := reply), save, CCheck(k, key), s.history.used);
      }
    }
  }

  lemma CustodyRetireKeeps(s: State, save: SaveOutcome)
    requires CustodyInv(s)
    ensures var t := StepCustodyRetire(s, save);
            StoredInv(t)
  {
    if s.worker.Custody? && s.worker.phase.CCheck? && Works(s, s.worker.phase.k, s.worker.phase.key) {
      var k, key := s.worker.phase.k, s.worker.phase.key;
      var o := s.store.journal[k].outputs[key];
      if !Proved(o) {
        CPhaseKeeps(s, CAt(s, CReturn));
      } else if !s.store.fault {
        OutputSound(s, k, key);
        RewriteKeeps(s, k, key, o.(retired := true), save, CNext, s.history.used);
      }
    }
  }

  lemma SessionRetireKeeps(s: State, k: nat, save: SaveOutcome)
    requires CustodyInv(s)
    ensures var t := StepSessionRetire(s, k, save);
            StoredInv(t)
  {
    if s.worker == Custody(CNext) && FirstUnretired(s.store.journal, k) && AllRetired(s.store.journal[k])
      && !s.store.fault {
      SetRetiredOk(s.store.journal, k);
      SaveOk(s.store, s.store.(journal := SetRetired(s.store.journal, k)), save);
    }
  }

  lemma CustodyTurnKeeps(s: State, e: CustodyEvent)
    requires CustodyInv(s) && (e.EvCustodyStart? || e.EvCustodyReturn? || e.EvCustodySubmit? || e.EvCustodyDone?)
    ensures var t := StepCustody(s, e); StoredInv(t)
  {
    var t := StepCustody(s, e);
    if (e.EvCustodyStart? || e.EvCustodyReturn?) && t != s { CPhaseKeeps(s, t); }
  }

  lemma CustodyStoreKeeps(s: State, e: CustodyEvent)
    requires CustodyInv(s)
    ensures var t := StepCustody(s, e); StoredInv(t)
  {
    match e
    case EvCustodyState(k, key, obs, cooling, request, save) =>
      CustodyStateKeeps(s, k, key, obs, cooling, request, save);
    case EvCustodyReply(answer, save) => CustodyReplyKeeps(s, answer, save);
    case EvCustodyRead(read, save) => CustodyReadKeeps(s, read, save);
    case EvCustodyRetire(save) => CustodyRetireKeeps(s, save);
    case EvSessionRetire(k, save) => SessionRetireKeeps(s, k, save);
    case _ => CustodyTurnKeeps(s, e);
  }

  lemma CustodyKeeps(s: State, e: CustodyEvent)
    requires CustodyInv(s)
    ensures CustodyInv(StepCustody(s, e))
  {
    CustodyGate(s, e);
    CustodyStoreKeeps(s, e);
    assert ShapeInv(StepCustody(s, e)) by { CustodyShape(s, e); }
  }

  lemma CustodyShape(s: State, e: CustodyEvent)
    requires ShapeInv(s)
    ensures ShapeInv(StepCustody(s, e))
  {
  }

  lemma NativeKeeps(s: State, e: NativeEvent)
    requires CustodyInv(s)
    ensures CustodyInv(StepNative(s, e))
  {
    if Moves(e) {
      MoveKeeps(s, e);
    } else {
      match e
      case EvStart(base, target, targetOnly, releaseOnly) => StartKeeps(s, base, target, targetOnly, releaseOnly);
      case EvDetect(obs) => DetectKeeps(s, obs);
      case EvBegin(state, admit, request, save) => BeginKeeps(s, state, admit, request, save);
      case EvBeginCommit(admit, save) => CommitKeeps(s, admit, save);
      case EvAdopt(terminal, save) => AdoptKeeps(s, terminal, save);
      case EvReleased(save) => ReleasedKeeps(s, save);
      case EvExit(save) => ExitKeeps(s, save);
    }
  }

  lemma StepKeeps(s: State, e: Event)
    requires CustodyInv(s)
    ensures CustodyInv(Step(s, e))
  {
    match e
    case Api(api) => ApiKeeps(s, api);
    case Reconcile(native) => NativeKeeps(s, native);
    case Recovery(custody) => CustodyKeeps(s, custody);
  }

  lemma RunKeeps(es: seq<Event>)
    ensures CustodyInv(Run(es))
  {
    forall s: State, e: Event | CustodyInv(s) ensures CustodyInv(Step(s, e)) { StepKeeps(s, e); }
    Runs.Invariant(Step, Init(), (s: State) => CustodyInv(s), es);
  }
}
