/**
  The radio producer as the manager runs it: one object whose records are rewritten through the
  journal under its mutex. Every method is one critical section, or a search of one, and is proved to
  be the matching step of RadioProducerModel.
 */
module RadioProducerObject {
  import opened RadioProducerModel

  class RadioProducer {
    var records: map<nat, Record>
    var ready: bool
    var process: nat
    var active: nat
    var live: set<nat>
    var retained: map<nat, Prior>
    var tasks: map<nat, Task> // the calls in flight, with their local variables
    ghost var counter: nat
    ghost var pending: nat
    ghost var issued: map<nat, nat>
    ghost var used: set<nat>
    ghost var log: seq<Entry>

    ghost function View(): State
      reads this
    {
      State(records, ready, process, active, live, retained, tasks, counter, pending, issued, used, log)
    }

    constructor (journal: map<nat, Record>, ghost before: State)
      requires before.records == journal
      ensures View() == StepCrash(before)
    {
      records, ready, process, active, live, retained, tasks := journal, false, 0, 0, {}, map[], map[];
      counter, pending, issued, used, log := 0, 0, map[], before.used, before.log;
    }

    // ----- searches of the record map -----

    /** No record is unsettled, and none carries this action identity. */
    method Settled(action: nat) returns (ok: bool)
      ensures ok == AllSettled(records, action)
    {
      var left := records.Keys;
      while left != {}
        invariant left <= records.Keys
        invariant forall k :: k in records && k !in left ==> records[k].terminal && records[k].fence.action != action
        decreases left
      {
        var k :| k in left;
        if !records[k].terminal || records[k].fence.action == action { return false; }
        left := left - {k};
      }
      return true;
    }

    /** The prepared record of this operation, provided every other record is settled. */
    method FindPrepared(action: nat, generation: nat, target: nat) returns (found: Option<nat>, ok: bool)
      ensures ok == OthersSettled(records, action, generation, target)
      ensures ok && found.Some? ==>
        found.value in records && IsPrepared(records[found.value], action, generation, target)
      ensures ok && found.None? ==> AllSettled(records, action)
    {
      found, ok := None, true;
      var left := records.Keys;
      while left != {}
        invariant left <= records.Keys && ok
        invariant found.Some? ==> found.value in records && IsPrepared(records[found.value], action, generation, target)
        invariant forall k :: k in records && k !in left && !IsPrepared(records[k], action, generation, target) ==>
                    records[k].terminal && records[k].fence.action != action
        invariant found.None? ==> forall k :: k in records && k !in left ==>
          !IsPrepared(records[k], action, generation, target)
        decreases left
      {
        var k :| k in left;
        left := left - {k};
        if IsPrepared(records[k], action, generation, target) {
          found := Some(k);
        } else if records[k].fence.action == action || !records[k].terminal {
          return None, false;
        }
      }
    }

    /** The newest record of the source that a native event names. */
    method FindPreempted(q: Request) returns (found: Option<nat>)
      ensures found.Some? ==> Newest(records, q, found.value)
      ensures found.None? ==> forall k :: k in records ==> !Names(records[k], q)
    {
      found := None;
      var left := records.Keys;
      while left != {}
        invariant left <= records.Keys
        invariant found.Some? ==> found.value in records && Names(records[found.value], q)
        invariant forall k :: k in records && k !in left && Names(records[k], q) ==>
                    found.Some? && records[k].fence.generation <= records[found.value].fence.generation
        decreases left
      {
        var k :| k in left;
        left := left - {k};
        if Names(records[k], q) && (found.None?
          || records[k].fence.generation > records[found.value].fence.generation) {
          found := Some(k);
        }
      }
    }

    method RadioGenerationFloor() returns (floor: nat)
      ensures FloorOf(records, floor)
    {
      floor := 0;
      var left := records.Keys;
      while left != {}
        invariant left <= records.Keys
        invariant forall k :: k in records && k !in left ==> records[k].fence.generation <= floor
        invariant floor == 0 || exists k :: k in records && records[k].fence.generation == floor
        decreases left
      {
        var k :| k in left;
        left := left - {k};
        if records[k].fence.generation > floor { floor := records[k].fence.generation; }
      }
    }

    // ----- sections -----

    /** storeLocked; `write` is whether the journal takes the record. */
    method StoreLocked(r: Record, write: bool) returns (ok: bool)
      modifies this`records
      ensures ok == Stores(old(View()), r.fence.token, write)
      ensures View() == if ok then Put(old(View()), r) else old(View())
    {
      if r.fence.token !in records && |records| >= MAX_RECORDS { return false; }
      if !write { return false; }
      records := records[r.fence.token := r];
      return true;
    }

    method Preflight(tid: nat, generation: nat, action: nat, target: nat) returns (captures: bool)
      requires tid !in tasks && generation in View().issued && action == View().issued[generation]
      modifies this`tasks
      ensures View() == StepPreflight(old(View()), tid, generation, target)
    {
      if !ready || target == 0 { return false; }
      captures := Settled(action);
      if captures { tasks := tasks[tid := Capturing(generation, action, target)]; }
    }

    /** The intent was captured: check again, and store the record before the peer is asked. */
    method BeginPreflight(tid: nat, ok: bool, token: nat, write: bool) returns (stored: bool)
      requires tid in tasks && tasks[tid].Capturing? && token !in View().used && token != 0
      modifies this`records, this`tasks, this`live, this`used, this`log
      ensures View() == StepCaptured(old(View()), tid, ok, token, write)
    {
      var t := tasks[tid];
      stored := false;
      var settled := Settled(t.action);
      if !ok || !settled {
        tasks := tasks - {tid};
        return;
      }
      used := used + {token};
      var fence := Fence(0, token, t.action, t.generation);
      var r := Record(fence, process, t.target, None, None, None, None, PreflightAttempted, false, 0, 0, false, Unset,
        false, None, false);
      stored := StoreLocked(r, write);
      if !stored {
        tasks := tasks - {tid};
        return;
      }
      AttemptPreflight(tid, fence);
    }

    method AttemptPreflight(tid: nat, fence: Fence)
      modifies this`tasks, this`live, this`log
      ensures live == old(live) + {fence.token}
        && tasks == old(tasks)[tid := Effecting(SenderPreflight, fence, false, Ask)]
      ensures log == old(log) + [Attempted(SenderPreflight, fence.token)]
    {
      live := live + {fence.token};
      tasks := tasks[tid := Effecting(SenderPreflight, fence, false, Ask)];
      log := log + [Attempted(SenderPreflight, fence.token)];
    }

    /** admit: the attempted stage is stored before the effect may be issued. */
    method AdmitEffect(tid: nat, kind: Kind, fence: Fence, proceeds: bool, write: bool) returns (admitted: bool)
      requires tid !in tasks && Fenced(kind)
      modifies this`records, this`tasks, this`log
      ensures View() == StepAdmit(old(View()), tid, kind, fence, proceeds, write)
    {
      if fence.token !in records { return false; }
      var r := records[fence.token];
      if r.fence != fence || r.preempted || r.terminal || !Permitted(kind, r.stage) { return false; }
      admitted := StoreLocked(r.(stage := AttemptedStage(kind)), write);
      if !admitted { return; }
      log := log + [Attempted(kind, fence.token)];
      if proceeds { tasks := tasks[tid := Effecting(kind, fence, false, Ask)]; }
    }

    /** advance: a late reply moves the record only from the stage it was issued in. */
    method AdvanceEffect(tid: nat, kind: Kind, ok: bool, write: bool) returns (advanced: bool)
      requires (kind.PauseSuspend? || kind.StartSource? || kind.SetVolume?) && Replied(View(), tid, kind)
      modifies this`records, this`tasks
      ensures View() == StepAdvance(old(View()), tid, kind, ok, write)
    {
      var f := tasks[tid].fence;
      var r := records[f.token];
      tasks := tasks - {tid};
      if !ok || r.fence != f || r.preempted || r.stage != AttemptedStage(kind) { return false; }
      advanced := StoreLocked(r.(stage := AdvancedStage(kind)), write);
    }

    method GrantNativeHold(tid: nat, hold: Hold, write: bool) returns (granted: bool)
      requires AwaitsNative(View(), tid) && records[tasks[tid].fence.token].fence.token == tasks[tid].fence.token
      modifies this`records, this`tasks, this`log
      ensures View() == GrantNative(old(View()), tid, hold, write)
    {
      var t := tasks[tid];
      var r := records[t.fence.token];
      tasks := tasks - {tid};
      if (t.AwaitingNative? && t.own != Some(hold)) || r.preempted { return false; }
      granted := StoreLocked(r.(native := Some(hold), stage := SenderReserveAttempted), write);
      if !granted { return; }
      log := log + [Attempted(SenderReserve, t.fence.token)];
      tasks := tasks[tid := SenderTask(r, t)];
    }

    method Finish(tid: nat, committed: bool, playing: bool, write: bool) returns (done: bool)
      requires Replied(View(), tid, FinishOperation)
        && records[tasks[tid].fence.token].fence.token == tasks[tid].fence.token
      modifies this`records, this`tasks, this`active
      ensures View() == StepFinished(old(View()), tid, committed, playing, write)
    {
      var token := tasks[tid].fence.token;
      var r := records[token];
      tasks := tasks - {tid};
      if !committed || r.preempted { return false; }
      done := StoreLocked(r.(terminal := true, outcome := Committed, stage := Finished), write);
      if !done { return; }
      active := if playing then token else 0;
    }

    /** preempt up to its first port call. */
    method Preempt(tid: nat, q: Request, write: bool) returns (key: Option<nat>)
      requires tid !in tasks && forall k :: k in records ==> records[k].fence.token == k
      modifies this`records, this`tasks
      ensures key.Some? ==> View() == StepPreempt(old(View()), tid, q, key.value, write)
      ensures key.None? ==> View() == old(View())
    {
      key := None;
      if q.action == 0 || q.challenge == 0 { return; }
      var found := FindPreempted(q);
      if found.None? || records[found.value].preempted { return; }
      key := found;
      var r := records[found.value].(preempted := true, preemptAction := q.action, challenge := q.challenge,
        terminal := false, stage := PreemptDrainAttempted);
      var ok := StoreLocked(r, write);
      if !ok { return; }
      tasks := tasks[tid := if r.native.None? then AskingHold(found.value, q) else Draining(found.value, q)];
    }

    /** The end of preempt: the drain ticket settles the record as preempted. */
    method Drained(tid: nat, ticket: Option<nat>, write: bool) returns (settled: bool)
      requires tid in tasks && tasks[tid].Draining? && tasks[tid].token in records
        && records[tasks[tid].token].fence.token == tasks[tid].token
      modifies this`records, this`tasks, this`active, this`retained
      ensures View() == StepDrained(old(View()), tid, ticket, write)
    {
      var key, q := tasks[tid].token, tasks[tid].request;
      var c := records[key];
      tasks := tasks - {tid};
      if ticket.None? || !c.preempted || c.preemptAction != q.action || c.stage != PreemptDrainAttempted {
        return false;
      }
      settled := StoreLocked(c.(ticket := ticket, stage := PreemptedStage, terminal := true, outcome := Preempted),
        write);
      if !settled { return; }
      Forget(key, q);
    }

    /** The drained record is no longer the active one, and its hold is no longer retained. */
    method Forget(key: nat, q: Request)
      modifies this`active, this`retained
      ensures active == if old(active) == key then 0 else old(active)
      ensures var r := old(retained);
        retained == if q.target in r && r[q.target].native.Some? && r[q.target].native.value.handoff == q.handoff
          then r - {q.target} else r
    {
      if active == key { active := 0; }
      if q.target in retained && retained[q.target].native.Some?
        && retained[q.target].native.value.handoff == q.handoff {
        retained := retained - {q.target};
      }
    }

    /** recoverPassive's last section. */
    method Recovered(tid: nat, write: bool) returns (settled: bool)
      requires tid in tasks && tasks[tid].Recovering? && tasks[tid].snapshot.fence.token in records
      modifies this`records, this`tasks
      ensures View() == StepRecovered(old(View()), tid, write)
    {
      var r, outcome := tasks[tid].snapshot, tasks[tid].outcome;
      var c := records[r.fence.token];
      tasks := tasks - {tid};
      if c.terminal || c.fence != r.fence || c.stage != r.stage { return false; }
      settled := StoreLocked(c.(terminal := true, outcome := outcome, stage := Reconciled), write);
    }
  }
}
