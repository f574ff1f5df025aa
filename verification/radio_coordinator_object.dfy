/**
  The radio coordinator as the manager runs it: one object updated under its mutex. Every method is
  one critical section, or a part of one, and is proved to be the matching step of RadioCoordinatorModel.
 */
module RadioCoordinatorObject {
  import opened RadioCoordinatorModel

  class RadioCoordinator {
    var radio: Radio
    var pending: bool
    var fence: Fence
    var operation: Option<Command>
    var seen: set<nat>
    var threads: map<nat, Thread> // the execute calls in flight, with their local variables
    var refreshers: map<nat, Refresher>
    var now: int // the clock
    ghost var log: seq<Entry>

    ghost function View(): State
      reads this
    {
      State(radio, pending, fence, operation, seen, threads, refreshers, now, log)
    }

    constructor ()
      ensures View() == Init()
    {
      radio := Radio(false, 1, [], Idle, UnknownKind, 0, 0, 0, None, None, None, None, 0, 1, false);
      pending, fence, operation, seen := false, NO_FENCE, None, {};
      threads, refreshers, now, log := map[], map[], 0, [];
    }

    /** The facts about the targets that the offers rest on. */
    method ReadTargets() returns (selectable: bool, movable: bool, onRoute: bool)
      ensures selectable == AnySelectable(radio) && movable == AnyMovable(radio) && onRoute == OnRoute(radio)
    {
      selectable, movable, onRoute := false, false, false;
      var i := 0;
      while i < |radio.targets|
        invariant 0 <= i <= |radio.targets|
        invariant selectable == exists j :: 0 <= j < i && Selectable(radio.targets[j])
        invariant movable == exists j ::
          0 <= j < i && Selectable(radio.targets[j]) && radio.targets[j].id != radio.target
        invariant onRoute == exists j :: 0 <= j < i && radio.targets[j].id == radio.target
      {
        var t := radio.targets[i];
        if t.id == radio.target { onRoute := true; }
        if t.selectable && t.available {
          selectable := true;
          if t.id != radio.target { movable := true; }
        }
        i := i + 1;
      }
    }

    method ActionsLocked() returns (actions: set<Action>)
      ensures actions == Offers(View())
    {
      actions := {};
      if !radio.enabled || pending || radio.playback == Preparing || radio.playback == UnknownPlayback { return; }
      var selectable, movable, onRoute := ReadTargets();
      if selectable { actions := actions + {Start}; }
      if radio.playback != Playing || radio.kind != RadioKind || !onRoute { return; }
      if radio.observedAt.None? || radio.validUntil.None? || radio.observedAt.value > now
        || radio.validUntil.value <= now
      {
        return;
      }
      actions := actions + {Stop};
      if movable { actions := actions + {Move}; }
      if radio.volume.Some? && 0 <= radio.volume.value <= 100 { actions := actions + {Volume}; }
    }

    method TargetIsValid(id: nat) returns (valid: bool)
      ensures valid == ValidTarget(radio, id)
    {
      var i := 0;
      while i < |radio.targets|
        invariant 0 <= i <= |radio.targets|
        invariant forall j :: 0 <= j < i ==> !(radio.targets[j].id == id && Selectable(radio.targets[j]))
      {
        if radio.targets[i].id == id && Selectable(radio.targets[i]) { return true; }
        i := i + 1;
      }
      return false;
    }

    /** The checks of execute before anything changes. */
    method Check(q: Command) returns (ok: bool)
      ensures ok == Admissible(View(), q)
    {
      if !radio.enabled { return false; }
      if q.id == 0 || q.id in seen || q.revision != radio.revision || q.process != radio.process
        || q.generation != radio.generation
         || q.owner != radio.owner || pending || radio.playback == UnknownPlayback {
        return false;
      }
      var actions := ActionsLocked();
      if q.action !in actions { return false; }
      var valid := TargetIsValid(q.target);
      var playing := radio.playback == Playing && radio.kind == RadioKind;
      match q.action {
        case Start => if !ValidStation(q.station) || !valid || q.volume.Some? { return false; }
        case Move => if !valid || !playing || q.station != 0 || q.volume.Some? { return false; }
        case Stop => if q.station != 0 || q.target != 0 || q.volume.Some? { return false; }
        case Volume =>
          if !playing || q.volume.None? || !Percent(q.volume.value) || q.station != 0 || q.target != 0 { return false; }
      }
      return |seen| < MAX_SEEN;
    }

    /** The operation owns the state from here on. */
    method AdmitLocked(tid: nat, q: Command)
      requires tid !in threads
      modifies this`operation, this`pending, this`radio, this`threads, this`log
      ensures View() == AdmittedState(old(View()), tid, q)
    {
      var before := radio;
      pending := true;
      operation := Some(if q.action == Volume then q.(station := before.station, target := before.target) else q);
      radio := before.(generation := before.generation + 1, revision := before.revision + 1, playback := Preparing,
        error := false);
      threads := threads[tid := Thread(q, before, radio.generation, if q.action == Start || q.action == Move
        then Preflight else Checking)];
      log := log + [Admitted(radio.generation, q, before)];
    }

    /** execute up to its first backend call; None means that nothing is to be done. */
    method Execute(tid: nat, command: Command) returns (admitted: Option<nat>)
      requires tid !in threads
      modifies this`seen, this`operation, this`pending, this`radio, this`threads, this`log
      ensures View() == StepAdmit(old(View()), tid, command)
      ensures admitted.Some? ==> pending && admitted.value == radio.generation == old(radio).generation + 1
    {
      admitted := None;
      var ok := Check(command);
      if !ok { return; }
      var q := command;
      if q.action == Move { q := q.(station := radio.station); }
      seen := seen + {q.id};
      if (q.action == Start || q.action == Move) && PlayingRadio(radio) && radio.station == q.station
        && radio.target == q.target
      {
        return;
      }
      if q.action == Stop && !PlayingRadio(radio) { return; }
      AdmitLocked(tid, q);
      admitted := Some(radio.generation);
    }

    /** complete: nothing is published once the generation has moved. */
    method CompleteLocked(tid: nat, shown: Radio, f: Fence, failed: bool, effected: bool) returns (published: bool)
      requires tid in threads
      modifies this`pending, this`radio, this`fence, this`threads, this`log
      ensures View() == Complete(old(View()), tid, shown, f, failed, effected)
      ensures published == (old(radio).generation == old(threads)[tid].generation)
    {
      var g := threads[tid].generation;
      threads := threads - {tid};
      if radio.generation != g { return false; }
      pending := false;
      var s := shown.(revision := radio.revision + 1, generation := g);
      if failed {
        s := s.(error := true);
        if effected {
          s := s.(playback := UnknownPlayback, kind := UnknownKind, observedAt := None, retrievedAt := None,
            validUntil := None);
        }
      }
      radio := s;
      fence := f;
      log := log + [Completed(g, failed, effected, s)];
      return true;
    }

    /** The reply of Reserve: the fence is recorded before it is looked at. */
    method Reserved(tid: nat, reply: ReserveReply)
      requires tid in threads && threads[tid].phase.Reserve?
      modifies this`pending, this`radio, this`fence, this`threads, this`log
      ensures View() == StepReserve(old(View()), tid, reply)
    {
      var th := threads[tid];
      match reply
      case NoEffects(f) => var published := CompleteLocked(tid, th.before, f, true, false);
      case ReserveFailed => var published := CompleteLocked(tid, th.before, BareFence(th), true, true);
      case Granted(f) =>
        fence := f;
        if f.token == 0 || f.generation != th.generation || f.action != th.command.id {
          var published := CompleteLocked(tid, th.before, f, true, true);
        } else {
          threads := threads[tid := th.(phase := Effects(f, Plan(th)))];
        }
    }

    method ObserveNativePreempt(target: nat, generation: nat) returns (revoked: bool)
      modifies this`radio, this`pending, this`log
      ensures View() == StepPreempt(old(View()), target, generation)
    {
      if radio.target != target || radio.generation != generation { return false; }
      radio := radio.(generation := radio.generation + 1, revision := radio.revision + 1, playback := UnknownPlayback,
        kind := UnknownKind,
                      station := 0, observedAt := None, validUntil := None, retrievedAt := None, volume := None,
                        error := false);
      pending := false;
      log := log + [PreemptedAt(radio.generation)];
      return true;
    }

    /** The first section of refresh. */
    method BeginRefresh(rid: nat) returns (allowed: bool)
      requires rid !in refreshers
      modifies this`refreshers
      ensures View() == StepRefresh(old(View()), rid)
    {
      if !radio.enabled || pending { return false; }
      refreshers := refreshers[rid := Refresher(radio.generation, radio.playback == UnknownPlayback, fence, operation)];
      return true;
    }

    method PublishLocked(o: Observation, unknown: bool)
      modifies this`radio, this`log
      ensures View() == Published(old(View()), o, unknown)
    {
      var moved := unknown || o.playback != radio.playback || o.station != radio.station || o.target != radio.target
        || o.owner != radio.owner
                   || o.kind != radio.kind;
      if moved { log := log + [Moved(radio.generation + 1)]; }
      radio := Apply(radio, o, now).(
        revision := if moved then radio.revision + 1 else radio.revision,
        generation := if moved then radio.generation + 1 else radio.generation,
        error := if unknown then false else radio.error);
    }

    /** The last section of a refresh that found the state unknown. */
    method Reconciled(rid: nat, r: Reconciliation) returns (published: bool)
      requires rid in refreshers && refreshers[rid].unknown
      modifies this`radio, this`refreshers, this`log
      ensures View() == StepReconciled(old(View()), rid, r)
    {
      var c := refreshers[rid];
      refreshers := refreshers - {rid};
      if !ValidReconciliation(r, c.fence, c.operation, now) || pending || radio.generation != c.generation {
        return false;
      }
      PublishLocked(r.observation, true);
      return true;
    }

    /** A failed read withdraws the controls of an allegedly playing radio. */
    method ObserveFailed(rid: nat) returns (withdrawn: bool)
      requires rid in refreshers && !refreshers[rid].unknown
      modifies this`radio, this`refreshers, this`log
      ensures View() == StepObserveFailed(old(View()), rid)
    {
      var g := refreshers[rid].generation;
      refreshers := refreshers - {rid};
      if pending || radio.generation != g || radio.kind != RadioKind || radio.playback == UnknownPlayback {
        return false;
      }
      radio := radio.(playback := UnknownPlayback, error := true, observedAt := None, validUntil := None,
        volume := None,
                      generation := radio.generation + 1, revision := radio.revision + 1);
      log := log + [Moved(radio.generation)];
      return true;
    }
  }
}
