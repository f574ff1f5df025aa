/**
  The attention of one room as the manager runs it: one object updated under its mutex. Every method
  is one critical section, or a part of one, and is proved to be the matching step of AttentionModel.
 */
module AttentionObject {
  import opened CustodyJournal
  import opened AttentionModel

  class Attention {
    const process: nat
    var now: int // the clock
    var sessionNonce: nat
    var admissionRevision: nat
    var nativeRevision: nat
    var restoreRevision: nat
    var active: bool
    var pendingRelease: bool
    var level: int
    var deadline: int
    var beat: int // when the last heartbeat was accepted, for the history only
    var gate: Gate
    var sessions: seq<Session>
    var fault: bool
    var imported: bool
    var disk: seq<Session>
    var grants: map<nat, Grant>
    var worker: Worker
    ghost var history: History

    ghost function ClaimView(): Claim
      reads this`sessionNonce, this`admissionRevision, this`nativeRevision, this`restoreRevision, this`active
      reads this`pendingRelease, this`level, this`deadline, this`beat
    {
      Claim(sessionNonce, admissionRevision, nativeRevision, restoreRevision, active, pendingRelease, level, deadline,
        beat)
    }

    ghost function StoreView(): Store
      reads this`sessions, this`disk, this`fault, this`imported
    {
      Store(sessions, disk, fault, imported)
    }

    ghost function View(): State
      reads this
    {
      State(process, now, ClaimView(), gate, StoreView(), grants, worker, history)
    }

    /** A manager process that has read the image `image`. */
    constructor (process: nat, now: int, image: seq<Session>, ghost before: History)
      ensures View() == Booted(process, now, image, before)
    {
      this.process, this.now := process, now;
      sessionNonce, admissionRevision, nativeRevision, restoreRevision := 0, 0, 0, 0;
      active, pendingRelease, level, deadline, beat := false, false, 0, 0, 0;
      gate := OPEN_GATE;
      sessions, disk := image, image;
      grants, worker := map[], Idle;
      history := before;
      var bad, left := LoadCustody(image);
      fault := bad;
      imported := left && !bad;
    }

    predicate CustodyBlockedLocked()
      reads this
      ensures CustodyBlockedLocked() == Blocked(View())
    {
      gate.deleting || fault || imported
    }

    method ExpireLocked()
      modifies this`active, this`pendingRelease
      ensures View() == Expire(old(View()))
    {
      if active && now > deadline {
        active := false;
        pendingRelease := true;
      }
    }

    // ----- custody -----

    method Save(outcome: SaveOutcome) returns (ok: bool)
      modifies this`disk, this`fault
      ensures StoreView() == AttentionModel.Save(old(StoreView()), outcome)
      ensures ok == Durable(old(StoreView()), outcome)
    {
      if fault { return false; }
      match outcome
      case Saved => disk := sessions; return true;
      case FailedOld => fault := true; return false;
      case FailedNew => disk := sessions; fault := true; return false;
    }

    method CustodySessionLocked() returns (k: Option<nat>)
      ensures k == Current(View())
    {
      var i := 0;
      while i < |sessions|
        invariant 0 <= i <= |sessions|
        invariant Current(View()) == FindFrom(sessions, i, process, sessionNonce, admissionRevision)
      {
        if Names(sessions[i], process, sessionNonce, admissionRevision) { return Some(i); }
        i := i + 1;
      }
      return None;
    }

    method CustodyAdmitLocked(nonce: nat, save: SaveOutcome) returns (ok: bool)
      modifies this`sessions, this`disk, this`fault
      ensures StoreView() == AttentionModel.Save(
        old(StoreView()).(journal := old(sessions) + [Session(process, admissionRevision + 1, nonce, false, map[])]),
          save)
      ensures ok == Durable(old(StoreView()), save)
    {
      sessions := sessions + [Session(process, admissionRevision + 1, nonce, false, map[])];
      ok := Save(save);
    }

    method SetOutputLocked(k: nat, key: nat, o: Output)
      requires k < |sessions|
      modifies this`sessions
      ensures sessions == SetOutput(old(sessions), k, key, o)
    {
      sessions := sessions[k := sessions[k].(outputs := sessions[k].outputs[key := o])];
    }

    method CustodyRetireLocked(g: Grant, save: SaveOutcome) returns (ok: bool)
      modifies this`sessions, this`disk, this`fault
      ensures StoreView() == RetireOutput(old(View()), g, save)
      ensures ok == Retires(old(View()), g, save)
    {
      var k := CustodySessionLocked();
      if k.None? || g.origin.request !in sessions[k.value].outputs {
        fault := true;
        return false;
      }
      var o := sessions[k.value].outputs[g.origin.request];
      if !g.submitted {
        o := o.(noSubmission := true);
      } else {
        o := o.(release := g.result);
        if !ValidRelease(o) {
          SetOutputLocked(k.value, g.origin.request, o);
          return false;
        }
      }
      SetOutputLocked(k.value, g.origin.request, o.(retired := true));
      ok := Save(save);
    }

    /** The retired flags of one session's outputs. */
    static method EveryRetired(s: Session) returns (all: bool)
      ensures all == AllRetired(s)
    {
      var left := s.outputs.Keys;
      while left != {}
        invariant left <= s.outputs.Keys
        invariant forall key :: key in s.outputs && key !in left ==> s.outputs[key].retired
        decreases left
      {
        var key :| key in left;
        if !s.outputs[key].retired { return false; }
        left := left - {key};
      }
      return true;
    }

    method CustodyFinishLocked(save: SaveOutcome) returns (ok: bool)
      modifies this`sessions, this`disk, this`fault
      ensures StoreView() == FinishStore(old(View()), save)
      ensures ok == Finishes(old(View()), save)
    {
      if sessionNonce == 0 { return true; }
      var k := CustodySessionLocked();
      if k.None? { return false; }
      var s := sessions[k.value];
      if s.retired { return true; }
      var all := EveryRetired(s);
      if !all { return false; }
      sessions := sessions[k.value := s.(retired := true)];
      ok := Save(save);
    }

    // ----- the API -----

    method Accept(newLevel: int, ttl: int)
      modifies this`nativeRevision, this`active, this`pendingRelease, this`level, this`deadline, this`beat
      ensures ClaimView() == Engaged(old(View()), newLevel, ttl).claim
    {
      nativeRevision := nativeRevision + 1;
      active, pendingRelease := true, false;
      level, deadline, beat := ClampPct(newLevel), now + ClampTtl(ttl), now;
    }

    method BeginOwned(nonce: nat, expectedProcess: nat, revision: nat, newLevel: int, ttl: int,
      save: SaveOutcome) returns (ok: bool)
      modifies this`nativeRevision, this`active, this`pendingRelease, this`level, this`deadline, this`beat
      modifies this`sessions, this`disk, this`fault, this`admissionRevision, this`sessionNonce
      ensures View() == StepBeginSession(old(View()), nonce, expectedProcess, revision, newLevel, ttl, save)
    {
      ExpireLocked();
      if CustodyBlockedLocked() || nonce == 0 || expectedProcess == 0 || expectedProcess != process
        || nativeRevision == U64_MAX
      {
        return false;
      }
      if active && nonce == sessionNonce { return admissionRevision > 0 && revision == admissionRevision - 1; }
      if revision != admissionRevision || active || pendingRelease || gate.pending || gate.busy || nonce == sessionNonce
         || admissionRevision == U64_MAX {
        return false;
      }
      ok := AdmitLocked(nonce, newLevel, ttl, save);
    }

    method AdmitLocked(nonce: nat, newLevel: int, ttl: int, save: SaveOutcome) returns (ok: bool)
      modifies this`nativeRevision, this`active, this`pendingRelease, this`level, this`deadline, this`beat
      modifies this`sessions, this`disk, this`fault, this`admissionRevision, this`sessionNonce
      ensures StoreView() == AdmitSession(old(View()), nonce, newLevel, ttl, save).store
      ensures ClaimView() == AdmitSession(old(View()), nonce, newLevel, ttl, save).claim
    {
      ok := CustodyAdmitLocked(nonce, save);
      if !ok { return; }
      admissionRevision, sessionNonce := admissionRevision + 1, nonce;
      Accept(newLevel, ttl);
    }

    method HeartbeatOwned(nonce: nat, expectedProcess: nat, revision: nat, newLevel: int, ttl: int) returns (ok: bool)
      modifies this`nativeRevision, this`active, this`pendingRelease, this`level, this`deadline, this`beat
      ensures View() == StepHeartbeat(old(View()), nonce, expectedProcess, revision, newLevel, ttl)
    {
      ExpireLocked();
      if CustodyBlockedLocked() || nonce == 0 || expectedProcess == 0 || expectedProcess != process
        || nativeRevision == U64_MAX
      {
        return false;
      }
      if !active || nonce != sessionNonce || revision != admissionRevision { return false; }
      Accept(newLevel, ttl);
      return true;
    }

    method ReleaseOwned(nonce: nat, expectedProcess: nat, revision: nat) returns (ok: bool)
      modifies this`restoreRevision, this`nativeRevision, this`active, this`pendingRelease
      ensures View() == StepRelease(old(View()), nonce, expectedProcess, revision)
    {
      if nonce == 0 || nonce != sessionNonce || expectedProcess != process || revision != admissionRevision {
        return false;
      }
      if gate.settling && !active && pendingRelease { return true; }
      if nativeRevision == U64_MAX || restoreRevision == U64_MAX { return false; }
      restoreRevision, nativeRevision := restoreRevision + 1, nativeRevision + 1;
      active, pendingRelease := false, true;
      return true;
    }

    method CustodyMutationAdmission() returns (ok: bool)
      modifies this`gate
      ensures View() == StepMutate(old(View()))
    {
      if CustodyBlockedLocked() || gate.settling { return false; }
      gate := gate.(effects := gate.effects + 1);
      return true;
    }

    method AnyUnretired() returns (some: bool)
      ensures some == Unretired(sessions)
    {
      var i := 0;
      while i < |sessions|
        invariant 0 <= i <= |sessions|
        invariant forall a :: 0 <= a < i ==> sessions[a].retired
      {
        if !sessions[i].retired { return true; }
        i := i + 1;
      }
      return false;
    }

    method CustodyDeleteAdmission() returns (ok: bool)
      modifies this`gate
      ensures View() == StepDelete(old(View()))
    {
      var some := AnyUnretired();
      if CustodyBlockedLocked() || gate.busy || some { return false; }
      gate := gate.(deleting := true, effects := gate.effects + 1);
      return true;
    }

    // ----- native reconcile -----

    method StartReconcile(base: nat, target: nat, targetOnly: bool, releaseOnly: bool) returns (started: bool)
      modifies this`active, this`pendingRelease, this`gate, this`worker
      ensures View() == StepStart(old(View()), base, target, targetOnly, releaseOnly)
    {
      ExpireLocked();
      if gate.busy || CustodyBlockedLocked()
         || (releaseOnly && (active || !pendingRelease || sessionNonce == 0 || targetOnly || target != 0
           || gate.effects != 0)) {
        return false;
      }
      gate := gate.(busy := true, settling := gate.settling || releaseOnly);
      worker := Native(Job(base, target, targetOnly, releaseOnly, sessionNonce, nativeRevision, restoreRevision,
        active, level),
                       if sessionNonce == 0 then Return else Poll(grants.Keys));
      return true;
    }

    /** custodyBeginLocked: None without a session, else whether the new output was saved. */
    method CustodyBeginLocked(job: Job, state: Identity, request: nat, save: SaveOutcome) returns (minted: Option<bool>)
      modifies this`sessions, this`disk, this`fault, this`history
      ensures minted.None? <==> old(Current(View())).None?
      ensures minted.None? ==> history == old(history) && StoreView() == old(StoreView()).(fault := true)
      ensures minted.Some? ==>
        && minted.value == Durable(old(StoreView()), save)
        && history == old(history).(used := old(history).used + {request})
        && var j := SetOutput(old(sessions), old(Current(View())).value, request, NewOutput(job, state, request));
           StoreView() == AttentionModel.Save(old(StoreView()).(journal := j), save)
    {
      var k := CustodySessionLocked();
      if k.None? {
        fault := true;
        return None;
      }
      SetOutputLocked(k.value, request, NewOutput(job, state, request));
      history := history.(used := history.used + {request});
      var ok := Save(save);
      return Some(ok);
    }

    predicate PermittedLocked(job: Job)
      reads this
      ensures PermittedLocked(job) == Permitted(View(), job)
    {
      active && sessionNonce == job.nonce && nativeRevision == job.native && (deadline - now) / MS > 0
    }

    function ResidualLocked(): int
      reads this
      ensures ResidualLocked() == Residual(View())
    {
      ClampTtl(deadline - now) / MS
    }

    /** The section that mints a BEGIN once the output was read idle and the route admitted. */
    method MintBeginLocked(state: Identity, request: nat, save: SaveOutcome)
      requires worker.Native?
      modifies this`sessions, this`disk, this`fault, this`worker, this`history
      ensures View() == MintBegin(old(View()), state, request, save)
    {
      var job := worker.job;
      if !PermittedLocked(job) || request == 0 {
        worker := Native(job, Return);
        return;
      }
      MintPermitted(state, request, save);
    }

    method MintPermitted(state: Identity, request: nat, save: SaveOutcome)
      requires worker.Native? && PermittedLocked(worker.job) && request != 0
      modifies this`sessions, this`disk, this`fault, this`worker, this`history
      ensures StoreView() == MintBegin(old(View()), state, request, save).store
      ensures history == MintBegin(old(View()), state, request, save).history
      ensures worker == MintBegin(old(View()), state, request, save).worker
    {
      var job := worker.job;
      var g := NewGrant(job, state, request, ResidualLocked());
      var minted := CustodyBeginLocked(job, state, request, save);
      worker := Native(job, if minted == Some(true) then Minted(g) else Return);
    }

    /** The section after the save: the grant enters with its exact residual TTL, or its BEGIN is retired unsent. */
    method CommitBeginLocked(g: Grant, admit: bool, save: SaveOutcome)
      requires worker.Native?
      modifies this`sessions, this`disk, this`fault, this`worker, this`grants, this`gate
      ensures View() == CommitBegin(old(View()), g, admit, save)
    {
      var job := worker.job;
      if !admit || !PermittedLocked(job) {
        RetireUnsent(g, save);
        return;
      }
      PlaceGrant(job, g.(command := g.command.(ttl := ResidualLocked())));
    }

    method RetireUnsent(g: Grant, save: SaveOutcome)
      requires worker.Native?
      modifies this`sessions, this`disk, this`fault, this`worker
      ensures StoreView() == RetireOutput(old(View()), g, save) && worker == Native(old(worker).job, Return)
    {
      var ok := CustodyRetireLocked(g, save);
      worker := Native(worker.job, Return);
    }

    method PlaceGrant(job: Job, g: Grant)
      modifies this`worker, this`grants, this`gate
      ensures grants == old(grants)[job.target := g] && gate == old(gate).(pending := true)
      ensures worker == Native(job, Put(job.target, Mint(now, deadline, beat), Targeted))
    {
      grants := grants[job.target := g];
      gate := gate.(pending := true);
      worker := Native(job, Put(job.target, Mint(now, deadline, beat), Targeted));
    }

    /** The one submission of a command; a second one is refused. */
    method Submit()
      requires worker.Native? && worker.at.Put? && worker.at.output in grants
      modifies this`grants, this`worker, this`history
      ensures View() == StepSubmit(old(View()))
    {
      var d := worker.at.output;
      var g := grants[d];
      if g.submitted {
        worker := Native(worker.job, Detect(d, Return));
        return;
      }
      history := history.(sent := history.sent
        + [Sent(g.command.action, g.command.request, d, g.origin, g.command.expected, g.command.ttl, worker.at.mint,
          imported)]);
      grants := grants[d := g.(submitted := true, uncertain := true)];
      worker := Native(worker.job, PutWait(d, worker.at.next));
    }

    /** foldObserved, and what the caller does with a refused or an undone reply. */
    method FoldReply(d: nat, reply: Option<Result>, next: Phase) returns (folded: bool)
      requires worker.Native? && d in grants
      modifies this`grants, this`worker, this`history
      ensures View() == TakeReply(old(View()), d, reply, next)
    {
      var g := grants[d];
      if reply.None? || !Accepts(g, d, reply.value) {
        worker := Native(worker.job, Detect(d, Return));
        return false;
      }
      FoldAccepted(d, reply.value, next);
      return true;
    }

    method FoldAccepted(d: nat, r: Result, next: Phase)
      requires worker.Native? && d in grants
      modifies this`grants, this`worker, this`history
      ensures grants == old(grants)[d := Folded(old(grants)[d], r)]
      ensures worker == Native(old(worker).job, if ReleaseUndone(grants[d]) then Detect(d, next) else next)
      ensures history == old(history).(receipts := old(history).receipts + [ReceiptOf(old(grants)[d], r)])
    {
      var g := grants[d];
      history := history.(receipts := history.receipts + [ReceiptOf(g, r)]);
      g := g.(result := Some(r), uncertain := false);
      if g.identity.None? { g := g.(identity := Some(r.identity)); }
      grants := grants[d := g];
      worker := Native(worker.job, if ReleaseUndone(g) then Detect(d, next) else next);
    }

    method RetireNativeGrant(d: nat, left: set<nat>, save: SaveOutcome)
      requires worker.Native? && d in grants
      modifies this`sessions, this`disk, this`fault, this`worker, this`grants
      ensures View() == RetireGrant(old(View()), d, old(grants)[d], left, save)
    {
      var ok := CustodyRetireLocked(grants[d], save);
      GoOn(d, left, ok);
    }

    /** The loop goes on without the grant if its output was retired, and ends otherwise. */
    method GoOn(d: nat, left: set<nat>, ok: bool)
      requires worker.Native?
      modifies this`worker, this`grants
      ensures grants == if ok then old(grants) - {d} else old(grants)
      ensures worker == Native(old(worker).job, if ok then Restore(left) else Return)
    {
      if ok { grants := grants - {d}; }
      worker := Native(worker.job, if ok then Restore(left) else Return);
    }

    method FinishReconcile(save: SaveOutcome)
      requires worker.Native? && worker.at.Return?
      modifies this`gate, this`worker, this`sessions, this`disk, this`fault, this`pendingRelease
      ensures View() == StepExit(old(View()), save)
    {
      var pending := grants != map[];
      if !active && !pending {
        var finished := CustodyFinishLocked(save);
        if finished { pendingRelease := false; }
      }
      gate := gate.(busy := false, pending := pending, settling := gate.settling && !worker.job.releaseOnly);
      worker := Idle;
    }

    /** The critical section of detectNativeReplacement, once the daemon was seen to be another or idle. */
    method ImportCustody(base: nat, d: nat) returns (imports: bool)
      modifies this`active, this`pendingRelease, this`nativeRevision, this`imported, this`fault
      ensures View() == Imported(old(View()), base, d)
    {
      if fault || d !in grants { return false; }
      var g := grants[d];
      var k := CustodySessionLocked();
      if k.None? || g.origin.request !in sessions[k.value].outputs {
        fault := true;
        return false;
      }
      var o := sessions[k.value].outputs[g.origin.request];
      if o.retired || o.origin != g.origin || o.device != d || o.base != base
        || o.original.incarnation != g.command.expected.incarnation {
        return false;
      }
      OweRelease();
      imported := true;
      return true;
    }

    /** The duck ends under a new revision, and its release is owed. */
    method OweRelease()
      modifies this`active, this`pendingRelease, this`nativeRevision
      ensures ClaimView() == old(ClaimView()).(active := false, pendingRelease := true,
        native := if old(nativeRevision) < U64_MAX then old(nativeRevision) + 1 else old(nativeRevision))
    {
      active, pendingRelease := false, true;
      if nativeRevision < U64_MAX { nativeRevision := nativeRevision + 1; }
    }

    // ----- custody reconcile -----

    method StartCustody() returns (started: bool)
      modifies this`gate, this`worker
      ensures View() == StepCustodyStart(old(View()))
    {
      if !CustodyBlockedLocked() || fault || gate.busy || gate.effects > 0 { return false; }
      gate := gate.(busy := true);
      worker := Custody(CNext);
      return true;
    }

    /** One output is rewritten and saved; a failed save ends the call. */
    method SaveOutputLocked(k: nat, key: nat, o: Output, save: SaveOutcome, next: CustodyPhase)
      requires k < |sessions|
      modifies this`sessions, this`disk, this`fault, this`worker
      ensures View() == SaveOutput(old(View()), k, key, o, save, next)
    {
      SetOutputLocked(k, key, o);
      var ok := Save(save);
      worker := Custody(if ok then next else CReturn);
    }

    /** A recovery is decided on the daemon's fresh state: read on, or begin one new attempt. */
    method ReconcileOutput(k: nat, key: nat, obs: Option<Observation>, cooling: bool, request: nat, save: SaveOutcome)
      requires worker == Custody(CNext) && FirstUnretired(sessions, k) && key in sessions[k].outputs
        && !sessions[k].outputs[key].retired
      requires request !in View().history.used
      modifies this`sessions, this`disk, this`fault, this`worker, this`history
      ensures View() == StepCustodyState(old(View()), k, key, obs, cooling, request, save)
    {
      var o := sessions[k].outputs[key];
      if obs.None? || !ValidIdentity(obs.value.state) || obs.value.state.device != o.device || fault
        || (o.rejected && cooling) {
        worker := Custody(CReturn);
        return;
      }
      if !NeedsRecovery(o, obs.value) {
        worker := Custody(if o.result.None? || o.result.value.result.outcome == Pending then CRead(k, key)
          else CCheck(k, key));
        return;
      }
      if obs.value.state.lease != 0 || obs.value.state.restoring || !obs.value.idle || request == 0 {
        worker := Custody(CReturn);
        return;
      }
      history := history.(used := history.used + {request});
      SaveOutputLocked(k, key, Recovering(o, obs.value, request), save, CPut(k, key));
    }

    /** The reply to a recovery; a 400 marks the attempt as rejected. */
    method RecoveryReplied(reply: RecoveryReply, save: SaveOutcome)
      requires worker.Custody? && worker.phase.CPutWait? && Works(View(), worker.phase.k, worker.phase.key)
      modifies this`sessions, this`disk, this`fault, this`worker
      ensures View() == StepCustodyReply(old(View()), reply, save)
    {
      var k, key := worker.phase.k, worker.phase.key;
      var o := sessions[k].outputs[key];
      if fault || o.retired || o.recovery.None? || reply.Lost? {
        worker := Custody(CReturn);
      } else if reply.BadRequest? {
        if o.result.Some? {
          worker := Custody(CReturn);
        } else {
          SaveOutputLocked(k, key, o.(rejected := true), save, CReturn);
        }
      } else if !ValidRecoveryObservation(o.recovery.value, o.device, reply.result) {
        worker := Custody(CReturn);
      } else {
        SaveOutputLocked(k, key, o.(result := Some(reply.result)), save, CCheck(k, key));
      }
    }

    /** An output retires only with the recovery receipt of its own attempt. */
    method RetireRecovered(save: SaveOutcome)
      requires worker.Custody? && worker.phase.CCheck? && Works(View(), worker.phase.k, worker.phase.key)
      modifies this`sessions, this`disk, this`fault, this`worker
      ensures View() == StepCustodyRetire(old(View()), save)
    {
      var k, key := worker.phase.k, worker.phase.key;
      var o := sessions[k].outputs[key];
      if o.recovery.None? || o.result.None? || !RecoveryReceipt(o.recovery.value, o.original, o.device,
        o.result.value) {
        worker := Custody(CReturn);
        return;
      }
      SaveOutputLocked(k, key, o.(retired := true), save, CNext);
    }

    method RetireSession(k: nat, save: SaveOutcome)
      requires worker == Custody(CNext) && FirstUnretired(sessions, k) && AllRetired(sessions[k])
      modifies this`sessions, this`disk, this`fault, this`worker
      ensures View() == StepSessionRetire(old(View()), k, save)
    {
      sessions := sessions[k := sessions[k].(retired := true)];
      var ok := Save(save);
      worker := Custody(if ok then CNext else CReturn);
    }

    /** The volatile grants go only after every durable child is proved. */
    method FinishCustody()
      requires worker == Custody(CNext)
      modifies this`imported, this`grants, this`gate, this`pendingRelease, this`active, this`worker
      ensures View() == StepCustodyDone(old(View()))
    {
      var some := AnyUnretired();
      if some { return; }
      OweNothing();
      imported, grants := false, map[];
      worker := Custody(CReturn);
    }

    method OweNothing()
      modifies this`gate, this`pendingRelease, this`active
      ensures gate == old(gate).(pending := false)
      ensures ClaimView() == old(ClaimView()).(pendingRelease := false, active := false)
    {
      gate := gate.(pending := false);
      pendingRelease, active := false, false;
    }
  }
}
