/** Mutual exclusion: who may work, and what never overlaps. */
module AttentionGate {
  import opened CustodyJournal
  import opened AttentionModel

  ghost predicate GateInv(s: State) {
    && (s.gate.busy <==> s.worker != Idle)
    && (s.gate.deleting ==> s.gate.effects >= 1)
    && (s.gate.settling <==> s.worker.Native? && s.worker.job.releaseOnly)
    && (s.gate.settling ==> s.gate.effects == 0)
    && (s.worker.Custody? ==> (s.store.imported && s.gate.effects == 0) || s.worker == Custody(CReturn))
    && (s.store.imported ==> !s.claim.active)
    && (!s.worker.Native? && !s.gate.pending ==> s.grants == map[])
  }

  lemma ApiGate(s: State, e: ApiEvent)
    requires GateInv(s)
    ensures GateInv(StepApi(s, e))
  {
  }

  /** Where a detour comes back to. */
  predicate Resumes(next: Phase) {
    next.Return? || next.Observed? || next.Targeted? || next.Released? || next.Lapsed?
  }

  ghost predicate ShapeInv(s: State) {
    s.worker.Native? ==>
      match s.worker.at
      case Detect(_, next) => Resumes(next)
      case Put(_, _, next) => next.Targeted? || next.Released?
      case PutWait(_, next) => next.Targeted? || next.Released?
      case _ => true
  }

  predicate Moves(e: NativeEvent) {
    e.EvPoll? || e.EvObserved? || e.EvRecheck? || e.EvTargeted? || e.EvSubmit? || e.EvReply? || e.EvRestore?
      || e.EvRestoreState? || e.EvUpdate?
  }

  lemma MoveGate(s: State, e: NativeEvent)
    requires GateInv(s) && ShapeInv(s) && Moves(e)
    ensures GateInv(StepNative(s, e)) && ShapeInv(StepNative(s, e))
  {
    if e.EvUpdate? || e.EvRestoreState? || e.EvSubmit? { IssueGate(s, e); } else { ReadGate(s, e); }
  }

  lemma IssueGate(s: State, e: NativeEvent)
    requires GateInv(s) && ShapeInv(s) && (e.EvUpdate? || e.EvRestoreState? || e.EvSubmit?)
    ensures GateInv(StepNative(s, e)) && ShapeInv(StepNative(s, e))
  {
  }

  lemma ReadGate(s: State, e: NativeEvent)
    requires GateInv(s) && ShapeInv(s)
    requires e.EvPoll? || e.EvObserved? || e.EvRecheck? || e.EvTargeted? || e.EvReply? || e.EvRestore?
    ensures GateInv(StepNative(s, e)) && ShapeInv(StepNative(s, e))
  {
  }

  lemma StartGate(s: State, base: nat, target: nat, targetOnly: bool, releaseOnly: bool)
    requires GateInv(s) && ShapeInv(s)
    ensures GateInv(StepStart(s, base, target, targetOnly, releaseOnly))
      && ShapeInv(StepStart(s, base, target, targetOnly, releaseOnly))
  {
  }

  lemma DetectGate(s: State, obs: Option<Observation>)
    requires GateInv(s) && ShapeInv(s)
    ensures GateInv(StepDetect(s, obs)) && ShapeInv(StepDetect(s, obs))
  {
  }

  lemma BeginGate(s: State, state: Option<Identity>, admit: bool, request: nat, save: SaveOutcome)
    requires GateInv(s) && ShapeInv(s)
    ensures GateInv(StepBegin(s, state, admit, request, save)) && ShapeInv(StepBegin(s, state, admit, request, save))
  {
  }

  lemma CommitGate(s: State, admit: bool, save: SaveOutcome)
    requires GateInv(s) && ShapeInv(s)
    ensures GateInv(StepBeginCommit(s, admit, save)) && ShapeInv(StepBeginCommit(s, admit, save))
  {
  }

  lemma AdoptGate(s: State, terminal: Option<Result>, save: SaveOutcome)
    requires GateInv(s) && ShapeInv(s)
    ensures GateInv(StepAdopt(s, terminal, save)) && ShapeInv(StepAdopt(s, terminal, save))
  {
  }

  lemma ReleasedGate(s: State, save: SaveOutcome)
    requires GateInv(s) && ShapeInv(s)
    ensures GateInv(StepReleased(s, save)) && ShapeInv(StepReleased(s, save))
  {
  }

  lemma ExitGate(s: State, save: SaveOutcome)
    requires GateInv(s) && ShapeInv(s)
    ensures GateInv(StepExit(s, save)) && ShapeInv(StepExit(s, save))
  {
  }

  lemma CustodyGate(s: State, e: CustodyEvent)
    requires GateInv(s)
    ensures GateInv(StepCustody(s, e))
  {
  }
}
