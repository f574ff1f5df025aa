/**
  Freshness never goes backwards. A wire event is stamped by its arrival and a status reply by the
  start of its request, so a reply that was slow cannot replace anything newer, even across the
  source restarts that forget which reply was accepted last.
 */
module LiveFreshness {
  import Runs
  import opened LiveModel

  /** The published values are no older, and a stamp that did not move pins down its value. */
  ghost predicate Fresher(g: Engine, h: Engine) {
    && g.stamp.transport <= h.stamp.transport
    && (g.stamp.transport == h.stamp.transport ==> h.st.transport == g.st.transport)
    && g.stamp.volume <= h.stamp.volume
    && (g.stamp.volume == h.stamp.volume ==> h.st.volume == g.st.volume)
    && g.stamp.alias <= h.stamp.alias
    && (g.stamp.alias == h.stamp.alias ==> h.st.alias == g.st.alias)
  }

  ghost predicate StampsPast(g: Engine) {
    g.stamp.transport < g.tick && g.stamp.volume < g.tick && g.stamp.alias < g.tick
  }

  /** A request that could still be accepted. */
  ghost predicate Live(g: Engine, r: Request) {
    r.source.phase == g.phaseEpoch && r.sequence > g.acceptedRequest
  }

  /** A reply that could still publish a group started after that group's value. */
  ghost predicate RequestOk(g: Engine, r: Request) {
    && r.source.phase <= g.phaseEpoch && r.sequence <= g.nextRequest && r.startedAt < g.tick
    && r.wire.transport <= g.wire.transport && r.wire.volume <= g.wire.volume && r.wire.alias <= g.wire.alias
    && (Live(g, r) && r.wire.transport == g.wire.transport ==> r.startedAt > g.stamp.transport)
    && (Live(g, r) && r.wire.volume == g.wire.volume ==> r.startedAt > g.stamp.volume)
    && (Live(g, r) && r.wire.alias == g.wire.alias ==> r.startedAt > g.stamp.alias)
  }

  ghost predicate StartOrder(requests: set<Request>) {
    forall q, r :: q in requests && r in requests && q.sequence < r.sequence ==> q.startedAt < r.startedAt
  }

  ghost predicate FreshInv(g: Engine) {
    StampsPast(g) && StartOrder(g.requests) && forall r :: r in g.requests ==> RequestOk(g, r)
  }

  /** A reply that is accepted publishes only the groups whose wire revision it still carries. */
  ghost predicate Replies(g: Engine, h: Engine, r: Request) {
    && h.requests == g.requests && h.nextRequest == g.nextRequest && h.tick == g.tick
    && h.phaseEpoch == g.phaseEpoch && h.wire == g.wire
    && ((h.acceptedRequest == g.acceptedRequest && h.stamp == g.stamp && h.st == g.st)
        || (r in g.requests && Live(g, r) && h.acceptedRequest == r.sequence
            && ((h.stamp.transport == g.stamp.transport && h.st.transport == g.st.transport)
                || (r.wire.transport == g.wire.transport && h.stamp.transport == r.startedAt))
            && ((h.stamp.volume == g.stamp.volume && h.st.volume == g.st.volume)
                || (r.wire.volume == g.wire.volume && h.stamp.volume == r.startedAt))
            && ((h.stamp.alias == g.stamp.alias && h.st.alias == g.st.alias)
                || (r.wire.alias == g.wire.alias && h.stamp.alias == r.startedAt))))
  }

  lemma AcceptReplies(g: Engine, r: Request, st: Status)
    ensures Replies(g, AcceptStatus(g, r, st), r)
  {
  }

  lemma ReplyFresher(g: Engine, h: Engine, r: Request)
    requires FreshInv(g) && Replies(g, h, r)
    ensures Fresher(g, h) && FreshInv(h.(tick := g.tick + 1))
  {
    var t := h.(tick := g.tick + 1);
    if h.acceptedRequest != g.acceptedRequest { assert RequestOk(g, r); }
    forall q | q in t.requests ensures RequestOk(t, q) { assert RequestOk(g, q); }
  }

  lemma AcceptFresher(g: Engine, r: Request, st: Status)
    requires FreshInv(g)
    ensures Fresher(g, AcceptStatus(g, r, st)) && FreshInv(AcceptStatus(g, r, st).(tick := g.tick + 1))
  {
    AcceptReplies(g, r, st);
    ReplyFresher(g, AcceptStatus(g, r, st), r);
  }

  lemma BeginFresher(g: Engine, source: Source)
    requires FreshInv(g)
    ensures FreshInv(BeginStatus(g, source).(tick := g.tick + 1))
  {
    var h := BeginStatus(g, source).(tick := g.tick + 1);
    forall q | q in h.requests ensures RequestOk(h, q) { assert q in g.requests ==> RequestOk(g, q); }
    forall q, r | q in h.requests && r in h.requests && q.sequence < r.sequence ensures q.startedAt < r.startedAt {
      assert q in g.requests ==> RequestOk(g, q);
      assert r in g.requests ==> RequestOk(g, r);
    }
  }

  /** An event with no request of its own: what it publishes is new, and it makes old requests fail their wire check. */
  ghost predicate PublishesNow(g: Engine, h: Engine) {
    && h.requests == g.requests && h.nextRequest == g.nextRequest && h.tick == g.tick
    && (h.phaseEpoch == g.phaseEpoch ==> h.acceptedRequest == g.acceptedRequest) && g.phaseEpoch <= h.phaseEpoch
    && ((h.wire.transport == g.wire.transport && h.stamp.transport == g.stamp.transport
      && h.st.transport == g.st.transport)
        || (h.wire.transport > g.wire.transport && h.stamp.transport == g.tick))
    && ((h.wire.volume == g.wire.volume && h.stamp.volume == g.stamp.volume && h.st.volume == g.st.volume)
        || (h.wire.volume > g.wire.volume && h.stamp.volume == g.tick))
    && ((h.wire.alias == g.wire.alias && h.stamp.alias == g.stamp.alias && h.st.alias == g.st.alias)
        || (h.wire.alias > g.wire.alias && h.stamp.alias == g.tick))
  }

  lemma PublishFresher(g: Engine, h: Engine)
    requires FreshInv(g) && PublishesNow(g, h)
    ensures Fresher(g, h) && FreshInv(h.(tick := g.tick + 1))
  {
    var t := h.(tick := g.tick + 1);
    forall r | r in t.requests ensures RequestOk(t, r) { assert RequestOk(g, r); }
  }

  lemma EnginePublishes(g: Engine, k: Custody, e: Event)
    requires !e.EvAcceptStatus? && !e.EvBeginStatus?
    ensures PublishesNow(g, EngineAct(g, k, e))
  {
  }

  lemma ActFresher(g: Engine, k: Custody, e: Event)
    requires FreshInv(g)
    ensures var h := EngineAct(g, k, e).(tick := g.tick + 1);
      Fresher(g, h) && FreshInv(h) && EngineAct(g, k, e).tick == g.tick
  {
    if e.EvAcceptStatus? {
      AcceptFresher(g, e.request, e.st);
    } else if e.EvBeginStatus? {
      BeginFresher(g, e.source);
    } else {
      EnginePublishes(g, k, e);
      PublishFresher(g, EngineAct(g, k, e));
    }
  }

  lemma StepFresher(s: State, e: Event)
    requires FreshInv(s.engine)
    ensures Fresher(s.engine, Step(s, e).engine) && FreshInv(Step(s, e).engine)
  {
    ActFresher(s.engine, s.custody, e);
    assert Step(s, e).engine == EngineAct(s.engine, s.custody, e).(tick := s.engine.tick + 1);
  }

  /**
    Over every run, restarts included: each published group only gets fresher, and it changes value
    only by getting strictly fresher.
   */
  lemma FreshnessNeverGoesBack(es: seq<Event>, more: seq<Event>)
    ensures Fresher(Run(es).engine, Run(es + more).engine)
  {
    var inv := (s: State) => FreshInv(s.engine);
    var rel := (s: State, t: State) => Fresher(s.engine, t.engine);
    forall s: State, e: Event | inv(s) ensures inv(Step(s, e)) { StepFresher(s, e); }
    forall s: State, t: State, e: Event | inv(t) && rel(s, t) ensures rel(s, Step(t, e)) { StepFresher(t, e); }
    Runs.Connected(Step, Init(), inv, rel, es, more);
  }

  /** A reply publishes a group only when nothing arrived for that group since the request started. */
  lemma SlowReplyNeverOverwrites(es: seq<Event>, r: Request, st: Status)
    requires r in Run(es).engine.requests
    ensures var g := Run(es).engine; var h := AcceptStatus(g, r, st);
      && (h.stamp.transport != g.stamp.transport ==> g.stamp.transport < r.startedAt == h.stamp.transport)
      && (h.stamp.volume != g.stamp.volume ==> g.stamp.volume < r.startedAt == h.stamp.volume)
      && (h.stamp.alias != g.stamp.alias ==> g.stamp.alias < r.startedAt == h.stamp.alias)
  {
    var inv := (s: State) => FreshInv(s.engine);
    forall s: State, e: Event | inv(s) ensures inv(Step(s, e)) { StepFresher(s, e); }
    Runs.Invariant(Step, Init(), inv, es);
    assert RequestOk(Run(es).engine, r);
  }
}
