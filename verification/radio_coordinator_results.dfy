/** Passive results: an answer that is read late never crosses another operation. */
module RadioCoordinatorResults {
  import Runs
  import opened RadioCoordinatorModel
  import opened RadioCoordinatorProofs

  /** What an admission leaves as the current operation: a volume change names the source it found. */
  function OperationOf(e: Entry): Command
    requires e.Admitted?
  {
    if e.command.action == Volume then e.command.(station := e.before.station, target := e.before.target) else e.command
  }

  /** Position i holds the last admission, and that is the current operation. */
  ghost predicate LastAdmitted(s: State, i: int) {
    && 0 <= i < |s.log| && s.log[i].Admitted? && s.operation == Some(OperationOf(s.log[i]))
    && forall k :: i < k < |s.log| ==> !s.log[k].Admitted?
  }

  ghost predicate OperationInv(s: State) {
    && (forall i :: 0 <= i < |s.log| && s.log[i].Admitted? ==> s.log[i].command.id in s.seen)
    && (forall i, j :: 0 <= i < j < |s.log| && s.log[i].Admitted? && s.log[j].Admitted? ==>
      s.log[i].command.id != s.log[j].command.id)
    && (s.operation.Some? ==> exists i :: LastAdmitted(s, i))
  }

  /** Nothing is admitted. */
  ghost predicate NoAdmit(s: State, t: State) {
    && t.operation == s.operation && s.seen <= t.seen && s.log <= t.log
    && forall k :: |s.log| <= k < |t.log| ==> !t.log[k].Admitted?
  }

  lemma NoAdmitKeeps(s: State, t: State)
    requires OperationInv(s) && NoAdmit(s, t)
    ensures OperationInv(t)
  {
    if s.operation.Some? {
      var i :| LastAdmitted(s, i);
      assert LastAdmitted(t, i);
    }
  }

  lemma TurnOperation(s: State, t: State, tid: nat, q: Command)
    requires OperationInv(s) && AdmitTurns(s, t, tid, q)
    ensures OperationInv(t)
  {
    if t.log == s.log {
      NoAdmitKeeps(s, t);
    } else {
      assert LastAdmitted(t, |s.log|);
    }
  }

  lemma ThreadAdmitsNothing(s: State, e: Event)
    requires e.PreflightReply? || e.Check? || e.ReserveAnswer?
    ensures NoAdmit(s, Step(s, e))
  {
  }

  lemma CallAdmitsNothing(s: State, e: Event)
    requires e.CallReply? || e.FinishReply?
    ensures NoAdmit(s, Step(s, e))
  {
  }

  lemma OtherAdmitsNothing(s: State, e: Event)
    requires !(e.Admit? || e.PreflightReply? || e.Check? || e.ReserveAnswer? || e.CallReply? || e.FinishReply?)
    ensures NoAdmit(s, Step(s, e))
  {
  }

  lemma AdmitOperation(s: State, e: Event)
    requires OperationInv(s) && e.Admit?
    ensures OperationInv(Step(s, e)) && s.log <= Step(s, e).log
  {
    AdmitIsTurn(s, e.tid, e.command);
    TurnOperation(s, StepAdmit(s, e.tid, e.command), e.tid, Resolved(s.radio, e.command));
  }

  lemma StepOperation(s: State, e: Event)
    requires OperationInv(s)
    ensures OperationInv(Step(s, e)) && s.log <= Step(s, e).log
  {
    if e.Admit? {
      AdmitOperation(s, e);
    } else {
      if e.PreflightReply? || e.Check? || e.ReserveAnswer? {
        ThreadAdmitsNothing(s, e);
      } else if e.CallReply? || e.FinishReply? {
        CallAdmitsNothing(s, e);
      } else {
        OtherAdmitsNothing(s, e);
      }
      NoAdmitKeeps(s, Step(s, e));
    }
  }

  lemma RunOperation(es: seq<Event>, more: seq<Event>)
    ensures OperationInv(Run(es)) && OperationInv(Run(es + more)) && Run(es).log <= Run(es + more).log
  {
    var inv := (s: State) => OperationInv(s);
    var rel := (s: State, t: State) => s.log <= t.log;
    forall s: State, e: Event | inv(s) ensures inv(Step(s, e)) { StepOperation(s, e); }
    forall s: State, t: State, e: Event | inv(t) && rel(s, t) ensures rel(s, Step(t, e)) { StepOperation(t, e); }
    Runs.Invariant(Step, Init(), inv, es);
    Runs.Invariant(Step, Init(), inv, es + more);
    Runs.Connected(Step, Init(), inv, rel, es, more);
  }

  /**
    A result that was asked for after `es` and is answered after `more` names the last operation ever
    admitted: none was admitted before the question or while it was under way. A committed answer shows
    what that operation, as admitted, asked for.
   */
  lemma ResultCrossesNoOperation(es: seq<Event>, more: seq<Event>, r: Reconciliation, process: nat, action: nat,
    generation: nat)
    requires Answers(Run(es), Run(es + more), r, process, action, generation)
    ensures exists i ::
      LastAdmitted(Run(es), i) && LastAdmitted(Run(es + more), i) && Run(es).log[i].command.id == action == r.action
                        && (r.outcome == Committed ==> FitsOperation(r.observation, OperationOf(Run(es).log[i])))
  {
    RunOperation(es, more);
    var i :| LastAdmitted(Run(es), i);
    var j :| LastAdmitted(Run(es + more), j);
    assert Run(es + more).log[i] == Run(es).log[i];
    assert i == j;
  }
}
