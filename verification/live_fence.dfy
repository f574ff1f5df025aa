/** Revisions fence: equal revisions mean equal state, over every run and for every admitted decision. */
module LiveFence {
  import Runs
  import opened LiveModel

  /** Revisions never go back, and a revision that did not move pins down its group. */
  ghost predicate Fenced(g: Engine, h: Engine) {
    && g.aliasRevision <= h.aliasRevision && g.transportRevision <= h.transportRevision
    && g.runEpoch <= h.runEpoch && g.phaseEpoch <= h.phaseEpoch
    && (g.aliasRevision == h.aliasRevision ==>
          h.st.alias == g.st.alias && h.runEpoch == g.runEpoch && h.phaseEpoch == g.phaseEpoch
            && h.sourceRetired == g.sourceRetired)
    && (g.transportRevision == h.transportRevision ==> h.st.transport == g.st.transport)
  }

  lemma AcceptStatusFenced(g: Engine, r: Request, st: Status)
    ensures Fenced(g, AcceptStatus(g, r, st))
  {
    var a := AcceptTransport(g, r, st.transport);
    var b := AcceptVolume(a, r, st.volume);
    assert Fenced(g, a) && Fenced(a, b) && Fenced(b, AcceptAlias(b, r, st.alias));
  }

  lemma EngineFenced(g: Engine, k: Custody, e: Event)
    ensures Fenced(g, EngineAct(g, k, e))
  {
    if e.EvAcceptStatus? {
      AcceptStatusFenced(g, e.request, e.st);
    }
  }

  lemma StepFenced(s: State, e: Event)
    ensures Fenced(s.engine, Step(s, e).engine)
  {
    EngineFenced(s.engine, s.custody, e);
  }

  /** Over any run: an unchanged revision is an unchanged source and alias, or an unchanged transport. No ABA. */
  lemma RunFenced(es: seq<Event>, more: seq<Event>)
    ensures Fenced(Run(es).engine, Run(es + more).engine)
  {
    forall s: State, t: State, e: Event | Fenced(s.engine, t.engine) ensures Fenced(s.engine, Step(t, e).engine) {
      StepFenced(t, e);
    }
    Runs.Connected(Step, Init(), (_: State) => true, (s: State, t: State) => Fenced(s.engine, t.engine), es, more);
  }

  // ----- admitted decisions -----

  /** The engine has moved on from what `p` showed, or still shows it. */
  ghost predicate Shown(p: Snapshot, g: Engine) {
    && p.intent.aliasRevision <= g.aliasRevision && p.intent.transportRevision <= g.transportRevision
    && (p.intent.aliasRevision == g.aliasRevision ==>
          p.status.alias == g.st.alias && p.intent.alias == g.st.alias.selected
          && p.intent.run == g.runEpoch && p.intent.phase == g.phaseEpoch)
    && (p.intent.transportRevision == g.transportRevision ==> p.status.transport == g.st.transport)
  }

  ghost predicate SameAlias(p: Snapshot, revision: nat, st: Status) {
    p.intent.aliasRevision == revision ==> p.status.alias == st.alias
  }

  ghost predicate SameTransport(p: Snapshot, revision: nat, st: Status) {
    p.intent.transportRevision == revision ==> p.status.transport == st.transport
  }

  /** An admission has seen what every snapshot with its revisions showed. */
  ghost predicate Rests(p: Snapshot, a: Admission) {
    match a
    case TransportAdmitted(intent, st) =>
      SameAlias(p, intent.aliasRevision, st) && SameTransport(p, intent.transportRevision, st)
    case RouteAdmitted(_, revision, st) => SameAlias(p, revision, st)
    case LeaseCommitted(_, _, _) => true
  }

  ghost predicate AdmissionShown(a: Admission, g: Engine) {
    match a
    case TransportAdmitted(intent, st) => Shown(Snapshot(intent, st), g)
    case RouteAdmitted(_, revision, st) =>
      revision <= g.aliasRevision && (revision == g.aliasRevision ==> st.alias == g.st.alias)
    case LeaseCommitted(_, p, st) => p.status.alias == st.alias && p.status.transport == st.transport
  }

  ghost predicate ClaimsInv(g: Engine, d: Claims) {
    && (forall p :: p in d.snapshots ==> Shown(p, g))
    && (forall i :: 0 <= i < |d.log| ==> AdmissionShown(d.log[i], g))
    && (forall p, i :: p in d.snapshots && 0 <= i < |d.log| ==> Rests(p, d.log[i]))
    && (d.lease.Some? ==> d.lease.value.snapshot in d.snapshots && d.lease.value.id in d.leases)
    && (forall id :: id in d.committing ==>
          id in d.leases && d.committing[id].snapshot in d.snapshots
          && (d.committing[id].Claimed? ==>
                d.committing[id].status.alias == d.committing[id].snapshot.status.alias
                && d.committing[id].status.transport == d.committing[id].snapshot.status.transport))
  }

  lemma EngineKeepsClaims(g: Engine, h: Engine, d: Claims)
    requires ClaimsInv(g, d) && Fenced(g, h)
    ensures ClaimsInv(h, d)
  {
  }

  lemma SnapshotKeeps(h: Engine, d: Claims)
    requires ClaimsInv(h, d)
    ensures ClaimsInv(h, TakeSnapshot(h, d))
  {
    var t := TakeSnapshot(h, d);
    forall p, i | p in t.snapshots && 0 <= i < |t.log| ensures Rests(p, t.log[i]) {
      assert AdmissionShown(d.log[i], h);
    }
  }

  lemma AdmitKeeps(h: Engine, d: Claims, a: Admission, routeDispatchSeq: nat)
    requires ClaimsInv(h, d)
    requires a == TransportAdmitted(IntentOf(h), h.st) || a == RouteAdmitted(h.st.alias.selected, h.aliasRevision, h.st)
    ensures ClaimsInv(h, d.(log := d.log + [a], routeDispatchSeq := routeDispatchSeq))
  {
    var t := d.(log := d.log + [a], routeDispatchSeq := routeDispatchSeq);
    forall p, i | p in t.snapshots && 0 <= i < |t.log| ensures Rests(p, t.log[i]) {
      assert Shown(p, h);
    }
  }

  lemma ClaimsActKeeps(h: Engine, d: Claims, e: Event, now: int)
    requires ClaimsInv(h, d)
    ensures ClaimsInv(h, ClaimsAct(h, d, e, now))
  {
    match e
    case EvSnapshot => SnapshotKeeps(h, d);
    case EvAdmitTransport(intent, bound) =>
      AdmitKeeps(h, d, TransportAdmitted(IntentOf(h), h.st), d.routeDispatchSeq);
    case EvAdmitRoute(alias, revision) =>
      AdmitKeeps(h, d, RouteAdmitted(h.st.alias.selected, h.aliasRevision, h.st), d.routeDispatchSeq + 1);
    case EvCommitLease(lease) =>
    case _ =>
  }

  // ----- start leases -----

  /** A lease that has been committed was issued, is spent, and no request is still committing it. */
  ghost predicate LeasesInv(d: Claims) {
    && (d.lease.Some? ==>
      d.lease.value.id in d.leases && (d.lease.value.id in d.committing ==> d.lease.value.committed))
    && (forall id :: id in d.committing ==> id in d.leases && d.committing[id].snapshot == d.leases[id])
    && (forall id :: id in d.leases ==> d.leases[id] in d.snapshots)
    && (d.lease.Some? ==> d.lease.value.snapshot == d.leases[d.lease.value.id])
    && (forall a :: a in d.log && a.LeaseCommitted? ==> CommitSettled(d, a))
    && (forall i, j :: 0 <= i < j < |d.log| && d.log[i].LeaseCommitted? && d.log[j].LeaseCommitted? ==>
      d.log[i].lease != d.log[j].lease)
  }

  ghost predicate CommitSettled(d: Claims, a: Admission)
    requires a.LeaseCommitted?
  {
    && a.lease in d.leases && a.lease !in d.committing && a.snapshot == d.leases[a.lease]
    && (d.lease.Some? && d.lease.value.id == a.lease ==> d.lease.value.committed)
  }

  /** No lease moves, and what is logged is not a commit. */
  ghost predicate CarriesLeases(d: Claims, t: Claims) {
    && t.lease == d.lease && t.committing == d.committing && t.leases == d.leases && d.snapshots <= t.snapshots
    && (t.log == d.log || (|t.log| == |d.log| + 1 && t.log[..|d.log|] == d.log && !t.log[|d.log|].LeaseCommitted?))
  }

  lemma CarriedLeases(d: Claims, t: Claims)
    requires LeasesInv(d) && CarriesLeases(d, t)
    ensures LeasesInv(t)
  {
    forall a | a in t.log && a.LeaseCommitted? ensures CommitSettled(t, a) { assert a in d.log && CommitSettled(d, a); }
    forall i, j | 0 <= i < j < |t.log| && t.log[i].LeaseCommitted? && t.log[j].LeaseCommitted?
      ensures t.log[i].lease != t.log[j].lease
    {
      assert t.log[..|d.log|][i] == t.log[i] && t.log[..|d.log|][j] == t.log[j];
    }
  }

  lemma IssueKeeps(d: Claims, id: nat, snapshot: Snapshot, now: int)
    requires LeasesInv(d)
    ensures LeasesInv(IssueLease(d, id, snapshot, now))
  {
    var t := IssueLease(d, id, snapshot, now);
    forall a | a in t.log && a.LeaseCommitted? ensures CommitSettled(t, a) { assert CommitSettled(d, a); }
  }

  lemma SpendKeeps(d: Claims, id: nat, now: int)
    requires LeasesInv(d)
    ensures LeasesInv(SpendLease(d, id, now))
  {
    var t := SpendLease(d, id, now);
    forall a | a in t.log && a.LeaseCommitted? ensures CommitSettled(t, a) { assert CommitSettled(d, a); }
  }

  lemma ReclaimKeeps(h: Engine, d: Claims, id: nat)
    requires LeasesInv(d)
    ensures LeasesInv(ReclaimLease(h, d, id))
  {
    var t := ReclaimLease(h, d, id);
    forall a | a in t.log && a.LeaseCommitted? ensures CommitSettled(t, a) { assert CommitSettled(d, a); }
  }

  lemma CommitKeeps(d: Claims, id: nat, now: int)
    requires LeasesInv(d)
    ensures LeasesInv(CommitLease(d, id, now))
  {
    var t := CommitLease(d, id, now);
    forall a | a in t.log && a.LeaseCommitted? ensures CommitSettled(t, a) {
      assert a in d.log ==> CommitSettled(d, a);
    }
    forall i, j | 0 <= i < j < |t.log| && t.log[i].LeaseCommitted? && t.log[j].LeaseCommitted?
      ensures t.log[i].lease != t.log[j].lease
    {
      assert t.log[i] in d.log && CommitSettled(d, t.log[i]);
    }
  }

  lemma LeasesActKeeps(h: Engine, d: Claims, e: Event, now: int)
    requires LeasesInv(d)
    ensures LeasesInv(ClaimsAct(h, d, e, now))
  {
    match e
    case EvIssueLease(lease, snapshot) => IssueKeeps(d, lease, snapshot, now);
    case EvSpendLease(lease) => SpendKeeps(d, lease, now);
    case EvReclaimLease(lease) => ReclaimKeeps(h, d, lease);
    case EvCommitLease(lease) => CommitKeeps(d, lease, now);
    case _ => CarriedLeases(d, ClaimsAct(h, d, e, now));
  }

  // ----- over every run -----

  lemma StepKeeps(s: State, e: Event)
    requires ClaimsInv(s.engine, s.claims) && LeasesInv(s.claims)
    ensures ClaimsInv(Step(s, e).engine, Step(s, e).claims) && LeasesInv(Step(s, e).claims)
  {
    var h := EngineAct(s.engine, s.custody, e);
    EngineFenced(s.engine, s.custody, e);
    EngineKeepsClaims(s.engine, h, s.claims);
    ClaimsActKeeps(h, s.claims, e, s.now);
    LeasesActKeeps(h, s.claims, e, s.now);
    EngineKeepsClaims(h, Step(s, e).engine, Step(s, e).claims);
  }

  lemma RunKeeps(es: seq<Event>)
    ensures ClaimsInv(Run(es).engine, Run(es).claims) && LeasesInv(Run(es).claims)
  {
    var inv := (s: State) => ClaimsInv(s.engine, s.claims) && LeasesInv(s.claims);
    forall s: State, e: Event | inv(s) ensures inv(Step(s, e)) { StepKeeps(s, e); }
    Runs.Invariant(Step, Init(), inv, es);
  }

  /** A transport decision is admitted on exactly the alias and transport its snapshot showed. */
  lemma TransportRestsOnSnapshot(es: seq<Event>, p: Snapshot, i: nat)
    requires p in Run(es).claims.snapshots && i < |Run(es).claims.log|
    requires Run(es).claims.log[i].TransportAdmitted? && Run(es).claims.log[i].intent == p.intent
    ensures Run(es).claims.log[i].status.transport == p.status.transport
    ensures Run(es).claims.log[i].status.alias == p.status.alias
  {
    RunKeeps(es);
    assert Rests(p, Run(es).claims.log[i]);
  }

  /** A route claim is admitted on exactly the alias and binding that carried its revision. */
  lemma RouteRestsOnSnapshot(es: seq<Event>, p: Snapshot, i: nat)
    requires p in Run(es).claims.snapshots && i < |Run(es).claims.log|
    requires Run(es).claims.log[i].RouteAdmitted? && Run(es).claims.log[i].revision == p.intent.aliasRevision
    ensures Run(es).claims.log[i].status.alias == p.status.alias
  {
    RunKeeps(es);
    assert Rests(p, Run(es).claims.log[i]);
  }

  /** What a lease was issued with never changes. */
  lemma LeaseIssuedOnce(es: seq<Event>, more: seq<Event>, id: nat)
    requires id in Run(es).claims.leases
    ensures id in Run(es + more).claims.leases && Run(es + more).claims.leases[id] == Run(es).claims.leases[id]
  {
    var rel := (s: State, t: State) => forall k :: k in s.claims.leases ==>
      k in t.claims.leases && t.claims.leases[k] == s.claims.leases[k];
    forall s: State, t: State, e: Event | rel(s, t) ensures rel(s, Step(t, e)) {}
    Runs.Connected(Step, Init(), (_: State) => true, rel, es, more);
  }

  /** A start lease is committed at most once, and on the alias and transport of the snapshot it was issued with. */
  lemma LeaseCommittedOnce(es: seq<Event>, i: nat)
    requires i < |Run(es).claims.log| && Run(es).claims.log[i].LeaseCommitted?
    ensures var d := Run(es).claims;
      && d.log[i].lease in d.leases && d.leases[d.log[i].lease] in d.snapshots
      && d.leases[d.log[i].lease].status.alias == d.log[i].status.alias
      && d.leases[d.log[i].lease].status.transport == d.log[i].status.transport
      && forall j :: 0 <= j < |d.log| && d.log[j].LeaseCommitted? && d.log[j].lease == d.log[i].lease ==> j == i
  {
    RunKeeps(es);
    var d := Run(es).claims;
    assert AdmissionShown(d.log[i], Run(es).engine) && d.log[i] in d.log;
  }
}
