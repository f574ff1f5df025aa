/**
  The durable custody journal of native attention: which BEGINs this room still has to retire,
  what proves a retirement, and what a journal image must satisfy to be loaded again.
  A text that must be a UUID or a nonzero numeral is a nat here, and 0 stands for any other text.
 */
module CustodyJournal {

  datatype Option<+T> = None | Some(value: T)

  /** `formed` stands for the well-formedness of the numerals and volumes that nothing else compares. */
  datatype Identity = Identity(
    process: nat, device: nat, incarnation: nat, session: nat, base: nat, lease: nat, restoring: bool, formed: bool)

  predicate ValidIdentity(i: Identity) {
    i.process != 0 && i.incarnation != 0 && i.formed
  }

  datatype Action = Begin | Update | Release | Recover | OtherAction

  datatype Outcome = Pending | DesiredOnly | ProtocolAccepted | NoEffect | Failed | Unknown | OtherOutcome

  datatype Command = Command(expected: Identity, request: nat, action: Action, cap: int, ttl: int)

  datatype Result = Result(
    identity: Identity, request: nat, operation: nat, action: Action, outcome: Outcome, code: int, cseq: int,
      current: bool)

  datatype Origin = Origin(process: nat, request: nat)

  datatype RecoveryCommand = RecoveryCommand(command: Command, origin: Origin)

  datatype Terminal = Terminal(identity: Identity, request: nat, operation: nat, action: Action, code: int, cseq: int)

  datatype Proof = Proof(database: nat, complete: bool, terminal: Option<Terminal>)

  datatype RecoveryState = StillPending | Restored | AlreadyRetired | NeverAdmitted | StateUnknown | OtherState

  datatype RecoveryResult = RecoveryResult(result: Result, origin: Origin, state: RecoveryState, proof: Option<Proof>)

  datatype Drain = Drain(process: nat, operation: nat, request: nat)

  datatype Output = Output(
    base: nat,
    device: nat,
    origin: Origin,
    original: Identity,
    retired: bool,
    noSubmission: bool,
    release: Option<Result>,
    recovery: Option<RecoveryCommand>,
    result: Option<RecoveryResult>,
    rejected: bool,
    consumed: set<Drain>)

  datatype Session = Session(process: nat, revision: nat, nonce: nat, retired: bool, outputs: map<nat, Output>)

  // ----- receipts -----

  /** validCustodyRelease */
  predicate ValidRelease(o: Output) {
    o.release.Some?
    && var r := o.release.value;
       && ValidIdentity(r.identity) && r.identity.device == o.device && r.identity.process == o.original.process
       && r.identity.incarnation == o.original.incarnation && r.identity.lease != 0
       && r.request != 0 && r.operation != 0 && r.action == Release && r.current
       && r.outcome == ProtocolAccepted && r.code == 200 && r.cseq > 0
  }

  /** What both readings of a recovery answer demand of its identity. */
  predicate AnswersRecovery(c: RecoveryCommand, device: nat, r: RecoveryResult) {
    && r.origin == c.origin && ValidIdentity(r.result.identity) && r.result.identity.device == device
    && r.result.identity.process == c.command.expected.process
    && r.result.identity.incarnation == c.command.expected.incarnation
    && r.result.request == c.command.request && r.result.action == Recover && r.result.operation != 0
  }

  /** validRecoveryObservation */
  predicate ValidRecoveryObservation(c: RecoveryCommand, device: nat, r: RecoveryResult) {
    AnswersRecovery(c, device, r) && !r.result.outcome.DesiredOnly? && !r.result.outcome.OtherOutcome?
      && !r.state.OtherState?
  }

  predicate Silent(r: Result) {
    r.outcome == NoEffect && r.code == 0 && r.cseq == 0
  }

  /** The terminal command that a recovery proof names: a release of the original lease, or a recovery. */
  predicate TerminalProves(t: Terminal, original: Identity, device: nat) {
    && ValidIdentity(t.identity) && t.identity.device == device && t.request != 0 && t.operation != 0 && t.code == 200
      && t.cseq > 0
    && ((t.action == Release && t.identity.process == original.process && t.identity.incarnation == original.incarnation
         && t.identity.lease != 0)
        || t.action == Recover)
  }

  /** recoveryReceipt */
  predicate RecoveryReceipt(c: RecoveryCommand, original: Identity, device: nat, r: RecoveryResult) {
    && AnswersRecovery(c, device, r) && r.result.identity.lease == 0 && !r.result.identity.restoring && r.result.current
    && r.proof.Some? && r.proof.value.database != 0 && r.proof.value.complete
    && match r.state
       case NeverAdmitted => Silent(r.result) && r.proof.value.terminal.None?
       case AlreadyRetired =>
         r.proof.value.terminal.Some? && TerminalProves(r.proof.value.terminal.value, original, device)
         && Silent(r.result)
       case Restored =>
         && r.proof.value.terminal.Some? && TerminalProves(r.proof.value.terminal.value, original, device)
         && r.result.outcome == ProtocolAccepted && r.result.code == 200 && r.result.cseq > 0
         && var t := r.proof.value.terminal.value;
            t.identity == r.result.identity && t.request == r.result.request && t.operation == r.result.operation
            && t.action == Recover && t.cseq == r.result.cseq
       case _ => false
  }

  // ----- images -----

  /** A retired output was never submitted, or carries the exact proof that its BEGIN is over. */
  predicate RetiredWithProof(o: Output) {
    o.noSubmission || ValidRelease(o)
    || (o.recovery.Some? && o.result.Some? && RecoveryReceipt(o.recovery.value, o.original, o.device, o.result.value))
  }

  predicate RecoveryLoads(o: Output, c: RecoveryCommand) {
    && ValidIdentity(c.command.expected) && c.command.expected.device == o.device && c.command.request != 0
    && c.command.action == Recover && c.origin == o.origin && c.command.cap == 0 && c.command.ttl == 0
  }

  predicate OutputLoads(sessionRetired: bool, key: nat, o: Output) {
    && key == o.origin.request && key != 0 && o.origin.process != 0 && ValidIdentity(o.original)
    && o.original.device == o.device && o.original.process == o.origin.process && o.base != 0
    && (sessionRetired ==> o.retired)
    && (o.rejected ==> o.recovery.Some? && o.result.None? && !o.retired)
    && (o.retired ==> RetiredWithProof(o))
    && (o.recovery.Some? ==> RecoveryLoads(o, o.recovery.value))
  }

  predicate SessionLoads(s: Session) {
    && s.process != 0 && s.nonce != 0 && s.revision != 0
    && forall key :: key in s.outputs ==> OutputLoads(s.retired, key, s.outputs[key])
  }

  function Owner(s: Session): (nat, nat) {
    (s.process, s.nonce)
  }

  /** No two sessions answer to one (process, nonce). */
  predicate DistinctOwners(j: seq<Session>) {
    forall a, b :: 0 <= a < b < |j| ==> Owner(j[a]) != Owner(j[b])
  }

  /** What loadCustody demands of an image it has decoded. */
  predicate Loadable(j: seq<Session>) {
    (forall i :: 0 <= i < |j| ==> SessionLoads(j[i])) && DistinctOwners(j)
  }

  predicate Unretired(j: seq<Session>) {
    exists i :: 0 <= i < |j| && !j[i].retired
  }

  method SessionChecks(s: Session) returns (ok: bool)
    ensures ok <==> SessionLoads(s)
  {
    if s.process == 0 || s.nonce == 0 || s.revision == 0 { return false; }
    var left := s.outputs.Keys;
    while left != {}
      invariant left <= s.outputs.Keys
      invariant forall key :: key in s.outputs && key !in left ==> OutputLoads(s.retired, key, s.outputs[key])
      decreases left
    {
      var key :| key in left;
      if !OutputLoads(s.retired, key, s.outputs[key]) { return false; }
      left := left - {key};
    }
    return true;
  }

  /** loadCustody on a decoded image: either a fault, or the flag that some session is still to be retired. */
  method LoadCustody(j: seq<Session>) returns (fault: bool, imported: bool)
    ensures fault <==> !Loadable(j)
    ensures !fault ==> (imported <==> Unretired(j))
  {
    fault, imported := false, false;
    var seen: set<(nat, nat)> := {};
    var i := 0;
    while i < |j|
      invariant 0 <= i <= |j|
      invariant seen == set a | 0 <= a < i :: Owner(j[a])
      invariant forall a :: 0 <= a < i ==> SessionLoads(j[a])
      invariant forall a, b :: 0 <= a < b < i ==> Owner(j[a]) != Owner(j[b])
      invariant imported <==> Unretired(j[..i])
    {
      var ok := SessionChecks(j[i]);
      if !ok || Owner(j[i]) in seen {
        fault := true;
        return;
      }
      seen := seen + {Owner(j[i])};
      UnretiredGrows(j, i);
      if !j[i].retired { imported := true; }
      i := i + 1;
    }
    assert j[..i] == j;
  }

  lemma UnretiredGrows(j: seq<Session>, i: nat)
    requires i < |j|
    ensures Unretired(j[..i + 1]) <==> Unretired(j[..i]) || !j[i].retired
  {
    if Unretired(j[..i]) {
      var a :| 0 <= a < i && !j[..i][a].retired;
      assert !j[..i + 1][a].retired;
    }
    if !j[i].retired { assert !j[..i + 1][i].retired; }
    if Unretired(j[..i + 1]) {
      var a :| 0 <= a < i + 1 && !j[..i + 1][a].retired;
      if a < i { assert !j[..i][a].retired; }
    }
  }
}
