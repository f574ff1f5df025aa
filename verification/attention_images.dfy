/** Journal images: what every operation on them keeps, and how they only grow. */
module AttentionImages {
  import opened CustodyJournal
  import opened AttentionModel

  ghost predicate SessionsLoad(j: seq<Session>) {
    forall i :: 0 <= i < |j| ==> SessionLoads(j[i])
  }

  /** At most one session is not retired. */
  ghost predicate OneOpen(j: seq<Session>) {
    forall a, b :: 0 <= a < b < |j| ==> j[a].retired || j[b].retired
  }

  /** Within one manager process, later sessions have later revisions. */
  ghost predicate RevisionsGrow(j: seq<Session>) {
    forall a, b :: 0 <= a < b < |j| && j[a].process == j[b].process ==> j[a].revision < j[b].revision
  }

  ghost predicate ImageOk(j: seq<Session>) {
    SessionsLoad(j) && OneOpen(j) && RevisionsGrow(j)
  }

  // ----- growth -----

  /** What an output is for never changes, and its retirement is final. */
  ghost predicate OutputGrows(o: Output, p: Output) {
    && p.base == o.base && p.device == o.device && p.origin == o.origin && p.original == o.original
    && (o.retired ==> p.retired) && o.consumed <= p.consumed
  }

  ghost predicate SessionGrows(s: Session, t: Session) {
    && t.process == s.process && t.revision == s.revision && t.nonce == s.nonce && (s.retired ==> t.retired)
    && forall key :: key in s.outputs ==> key in t.outputs && OutputGrows(s.outputs[key], t.outputs[key])
  }

  ghost predicate Grows(j: seq<Session>, h: seq<Session>) {
    |j| <= |h| && forall i :: 0 <= i < |j| ==> SessionGrows(j[i], h[i])
  }

  lemma GrowsReflexive(j: seq<Session>)
    ensures Grows(j, j)
  {
    forall i | 0 <= i < |j| ensures SessionGrows(j[i], j[i]) { }
  }

  lemma GrowsTransitive(i: seq<Session>, j: seq<Session>, h: seq<Session>)
    requires Grows(i, j) && Grows(j, h)
    ensures Grows(i, h)
  {
    forall a | 0 <= a < |i| ensures SessionGrows(i[a], h[a]) {
      assert SessionGrows(i[a], j[a]) && SessionGrows(j[a], h[a]);
    }
  }

  // ----- operations -----

  lemma SetOutputOk(j: seq<Session>, k: nat, key: nat, o: Output)
    requires ImageOk(j) && k < |j| && OutputLoads(j[k].retired, key, o)
    requires key in j[k].outputs ==> OutputGrows(j[k].outputs[key], o)
    ensures ImageOk(SetOutput(j, k, key, o)) && Grows(j, SetOutput(j, k, key, o))
  {
    var h := SetOutput(j, k, key, o);
    forall i | 0 <= i < |h| ensures SessionLoads(h[i]) && SessionGrows(j[i], h[i]) {
      assert SessionLoads(j[i]);
    }
  }

  lemma SetRetiredOk(j: seq<Session>, k: nat)
    requires ImageOk(j) && k < |j| && AllRetired(j[k])
    ensures ImageOk(SetRetired(j, k)) && Grows(j, SetRetired(j, k))
  {
    var h := SetRetired(j, k);
    forall i | 0 <= i < |h| ensures SessionLoads(h[i]) && SessionGrows(j[i], h[i]) {
      assert SessionLoads(j[i]);
    }
  }

  lemma AppendOk(j: seq<Session>, s: Session)
    requires ImageOk(j) && !Unretired(j) && SessionLoads(s)
    requires forall i :: 0 <= i < |j| && j[i].process == s.process ==> j[i].revision < s.revision
    ensures ImageOk(j + [s]) && Grows(j, j + [s])
  {
    var h := j + [s];
    forall i | 0 <= i < |h| ensures SessionLoads(h[i]) && (i < |j| ==> SessionGrows(j[i], h[i])) {
      assert i < |j| ==> h[i] == j[i];
    }
  }

  // ----- the store -----

  /** The image on disk is always sound; the one in memory is, and extends it, for as long as it may still be saved. */
  ghost predicate StoreOk(c: Store) {
    ImageOk(c.disk) && (!c.fault ==> ImageOk(c.journal) && Grows(c.disk, c.journal))
  }

  lemma SaveOk(c: Store, d: Store, outcome: SaveOutcome)
    requires StoreOk(c) && d == c.(journal := d.journal)
    requires !c.fault ==> ImageOk(d.journal) && Grows(c.journal, d.journal)
    ensures StoreOk(Save(d, outcome)) && StoreOk(d)
    ensures Grows(c.disk, Save(d, outcome).disk)
  {
    GrowsReflexive(c.disk);
    if !c.fault {
      GrowsTransitive(c.disk, c.journal, d.journal);
      GrowsReflexive(d.journal);
    }
  }
}
