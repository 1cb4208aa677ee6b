/** From a partition to one route: the Redis sets and the stream lake that the consumer machine leaves for the
    events of a route (services/worker/app/stream_features/consumer.py,
    services/worker/app/stream_features/redis_ops.py, tools/reconstruct.py). */
module RouteDelivery {
  import opened Options
  import opened Offsets
  import opened AtLeastOnce
  import opened StreamConsumer
  import opened StreamDelivery
  import SW = SlidingWindow
  import LQ = LakeQuery

  // ---------------------------------------------------------------- choosing some positions of a log

  /** How many of the first `n` positions are chosen. */
  function Rank(chosen: nat -> bool, n: nat): nat {
    if n == 0 then 0 else Rank(chosen, n - 1) + (if chosen(n - 1) then 1 else 0)
  }

  lemma {:induction false} RankGrows(chosen: nat -> bool, m: nat, n: nat)
    requires m <= n
    ensures Rank(chosen, m) <= Rank(chosen, n)
    ensures m < n && chosen(m) ==> Rank(chosen, m) < Rank(chosen, n)
  {
    if m < n {
      RankGrows(chosen, m, n - 1);
    }
  }

  lemma {:induction false} Unrank(chosen: nat -> bool, n: nat, r: nat) returns (q: nat)
    requires r < Rank(chosen, n)
    ensures q < n && chosen(q) && Rank(chosen, q) == r
  {
    if chosen(n - 1) && Rank(chosen, n - 1) == r {
      q := n - 1;
    } else {
      q := Unrank(chosen, n - 1, r);
    }
  }

  /** The visits to chosen positions, as visits to the log of chosen positions. */
  function Project(w: seq<Visit>, chosen: nat -> bool): seq<Visit> {
    if w == [] then []
    else
      var v := w[|w| - 1];
      Project(w[..|w| - 1], chosen) + (if chosen(v.pos) then [v.(pos := Rank(chosen, v.pos))] else [])
  }

  lemma {:induction false} ProjectIn(w: seq<Visit>, chosen: nat -> bool, n: nat)
    requires Walk(w, n)
    ensures Walk(Project(w, chosen), Rank(chosen, n))
  {
    if w != [] {
      ProjectIn(w[..|w| - 1], chosen, n);
      RankGrows(chosen, w[|w| - 1].pos, n);
    }
  }

  /** The last visit of a chosen position stays its last visit, and stays whole. */
  lemma {:induction false} ProjectSettled(w: seq<Visit>, chosen: nat -> bool, q: nat)
    requires Settled(w, q) && chosen(q)
    ensures Settled(Project(w, chosen), Rank(chosen, q))
  {
    var j :| IsLastVisit(w, q, j) && w[j].whole;
    var n := |w| - 1;
    var before := Project(w[..n], chosen);
    var u := Project(w, chosen);
    if j == n {
      assert IsLastVisit(u, Rank(chosen, q), |before|) && u[|before|].whole;
    } else {
      assert IsLastVisit(w[..n], q, j) && w[..n][j].whole;
      ProjectSettled(w[..n], chosen, q);
      var i :| IsLastVisit(before, Rank(chosen, q), i) && before[i].whole;
      RankGrows(chosen, q, w[n].pos);
      assert IsLastVisit(u, Rank(chosen, q), i) && u[i].whole;
    }
  }

  lemma ProjectCaughtUp(w: seq<Visit>, chosen: nat -> bool, n: nat)
    requires CaughtUp(w, n)
    ensures CaughtUp(Project(w, chosen), Rank(chosen, n))
  {
    ProjectIn(w, chosen, n);
    forall r: nat | r < Rank(chosen, n) ensures Settled(Project(w, chosen), r) {
      var q := Unrank(chosen, n, r);
      ProjectSettled(w, chosen, q);
    }
  }

  // ---------------------------------------------------------------- the events of a route

  /** What the valid messages of a topic say. */
  datatype Content = Content(city: Pos -> string, event: Pos -> SW.Event)

  function OfRoute(log: Log, p: nat, content: Content, city: string): nat -> bool
    requires p < |log|
  {
    (o: nat) => o < |log[p]| && log[p][o] == Valid && content.city(Pos(p, o)) == city
  }

  /** The events of a route among the first `n` offsets of its partition. */
  function EventsUpTo(log: Log, p: nat, content: Content, city: string, n: nat): (r: seq<SW.Event>)
    requires p < |log|
    ensures |r| == Rank(OfRoute(log, p, content, city), n)
  {
    if n == 0 then []
    else
      EventsUpTo(log, p, content, city, n - 1)
      + (if OfRoute(log, p, content, city)(n - 1) then [content.event(Pos(p, n - 1))] else [])
  }

  function RouteLog(log: Log, p: nat, content: Content, city: string): seq<SW.Event>
    requires p < |log|
  {
    EventsUpTo(log, p, content, city, |log[p]|)
  }

  lemma {:induction false} EventAtRank(log: Log, p: nat, content: Content, city: string, n: nat, q: nat)
    requires p < |log| && q < n && OfRoute(log, p, content, city)(q)
    ensures var r := Rank(OfRoute(log, p, content, city), q);
            r < |EventsUpTo(log, p, content, city, n)|
            && EventsUpTo(log, p, content, city, n)[r] == content.event(Pos(p, q))
  {
    if q < n - 1 {
      EventAtRank(log, p, content, city, n - 1, q);
    }
  }

  lemma EventsHave(log: Log, p: nat, content: Content, city: string, e: SW.Event)
    requires p < |log|
    ensures e in RouteLog(log, p, content, city) <==>
            exists q: nat :: OfRoute(log, p, content, city)(q) && content.event(Pos(p, q)) == e
  {
    var chosen, events := OfRoute(log, p, content, city), RouteLog(log, p, content, city);
    if e in events {
      var r :| 0 <= r < |events| && events[r] == e;
      var q := Unrank(chosen, |log[p]|, r);
      EventAtRank(log, p, content, city, |log[p]|, q);
    }
    if q: nat :| chosen(q) && content.event(Pos(p, q)) == e {
      EventAtRank(log, p, content, city, |log[p]|, q);
    }
  }

  // ---------------------------------------------------------------- Redis

  /** One side's sorted set of a route after a run: every delivered event of the route sends its commands, all
      of them or as many as `parts` says. */
  ghost function RedisAfter(log: Log, evs: seq<Event>, p: nat, parts: nat -> nat, content: Content, city: string,
                            side: SW.Side): SW.ZSet
    requires p < |log| && After(log, evs).Some?
  {
    if evs == [] then map[]
    else
      var n := |evs| - 1;
      var before := RedisAfter(log, evs[..n], p, parts, content, city, side);
      if !VisitsPartition(evs[n], p) then before
      else
        var s := After(log, evs[..n]).value;
        var v := VisitNow(log, s, evs[n], parts(n));
        if OfRoute(log, p, content, city)(v.pos)
        then SW.Effect(before, content.event(Pos(p, v.pos)), side, SW.Adds(v), SW.Trims(v, side))
        else before
  }

  /** The visits of a run to the events of a route. */
  ghost function RouteVisits(log: Log, evs: seq<Event>, p: nat, parts: nat -> nat, content: Content,
                             city: string): seq<Visit>
    requires p < |log| && After(log, evs).Some?
  {
    Project(VisitsOf(log, evs, p, parts), OfRoute(log, p, content, city))
  }

  lemma RouteVisitsIn(log: Log, evs: seq<Event>, p: nat, parts: nat -> nat, content: Content, city: string)
    requires p < |log| && After(log, evs).Some?
    ensures Walk(RouteVisits(log, evs, p, parts, content, city), |RouteLog(log, p, content, city)|)
  {
    DeliveryHolds(log, evs, p, parts);
    ProjectIn(VisitsOf(log, evs, p, parts), OfRoute(log, p, content, city), |log[p]|);
  }

  /** The machine's Redis set is the one its visits produce. */
  lemma {:induction false} RedisIsSetAfter(log: Log, evs: seq<Event>, p: nat, parts: nat -> nat, content: Content,
                                           city: string, side: SW.Side)
    requires p < |log| && After(log, evs).Some?
    ensures Walk(RouteVisits(log, evs, p, parts, content, city), |RouteLog(log, p, content, city)|)
    ensures RedisAfter(log, evs, p, parts, content, city, side)
         == SW.SetAfter(RouteLog(log, p, content, city), RouteVisits(log, evs, p, parts, content, city), side)
  {
    RouteVisitsIn(log, evs, p, parts, content, city);
    if evs != [] {
      var n := |evs| - 1;
      var events, u := RouteLog(log, p, content, city), RouteVisits(log, evs[..n], p, parts, content, city);
      RedisIsSetAfter(log, evs[..n], p, parts, content, city, side);
      if VisitsPartition(evs[n], p) {
        var v := VisitNow(log, After(log, evs[..n]).value, evs[n], parts(n));
        OneMoreRouteVisit(log, evs, p, parts, content, city);
        if OfRoute(log, p, content, city)(v.pos) {
          EventAtRank(log, p, content, city, |log[p]|, v.pos);
          var last := v.(pos := Rank(OfRoute(log, p, content, city), v.pos));
          SetAfterOneMore(events, u, last, side);
        } else {
          assert u + [] == u;
        }
      }
    }
  }

  lemma OneMoreRouteVisit(log: Log, evs: seq<Event>, p: nat, parts: nat -> nat, content: Content, city: string)
    requires p < |log| && After(log, evs).Some? && evs != [] && VisitsPartition(evs[|evs| - 1], p)
    ensures var n, chosen := |evs| - 1, OfRoute(log, p, content, city);
            var v := VisitNow(log, After(log, evs[..n]).value, evs[n], parts(n));
            RouteVisits(log, evs, p, parts, content, city)
            == RouteVisits(log, evs[..n], p, parts, content, city)
               + (if chosen(v.pos) then [v.(pos := Rank(chosen, v.pos))] else [])
  {
    var w := VisitsOf(log, evs[..|evs| - 1], p, parts);
    assert VisitsOf(log, evs, p, parts)[..|w|] == w;
  }

  lemma SetAfterOneMore(events: seq<SW.Event>, u: seq<Visit>, v: Visit, side: SW.Side)
    requires Walk(u + [v], |events|)
    ensures Walk(u, |events|) && v.pos < |events|
    ensures SW.SetAfter(events, u + [v], side)
         == SW.Effect(SW.SetAfter(events, u, side), events[v.pos], side, SW.Adds(v), SW.Trims(v, side))
  {
    assert (u + [v])[..|u|] == u;
    assert (u + [v])[|u|] == v;
    forall i | 0 <= i < |u| ensures u[i].pos < |events| { assert (u + [v])[i] == u[i]; }
  }

  lemma RouteCaughtUp(log: Log, evs: seq<Event>, p: nat, parts: nat -> nat, content: Content, city: string)
    requires p < |log| && After(log, evs).Some?
    requires !After(log, evs).value.overtaken && ReadToEnd(log, After(log, evs).value, p)
    ensures CaughtUp(RouteVisits(log, evs, p, parts, content, city), |RouteLog(log, p, content, city)|)
  {
    ReadMeansCaughtUp(log, evs, p, parts);
    ProjectCaughtUp(VisitsOf(log, evs, p, parts), OfRoute(log, p, content, city), |log[p]|);
  }

  /** Redis converges: every run in which no failure was overtaken and that has read the partition to its end
      leaves, for every route, the sets and the published aggregates of one uninterrupted pass. */
  lemma RedisConverges(log: Log, evs: seq<Event>, p: nat, parts: nat -> nat, content: Content, city: string)
    requires p < |log| && After(log, evs).Some?
    requires !After(log, evs).value.overtaken && ReadToEnd(log, After(log, evs).value, p)
    ensures var events := RouteLog(log, p, content, city);
            && (forall side: SW.Side :: RedisAfter(log, evs, p, parts, content, city, side)
                                        == SW.SetAfter(events, Straight(|events|), side))
            && Walk(RouteVisits(log, evs, p, parts, content, city), |events|)
            && SW.AggregatesAfter(events, RouteVisits(log, evs, p, parts, content, city))
               == SW.AggregatesAfter(events, Straight(|events|))
  {
    var events, w := RouteLog(log, p, content, city), RouteVisits(log, evs, p, parts, content, city);
    RouteCaughtUp(log, evs, p, parts, content, city);
    forall side: SW.Side
      ensures RedisAfter(log, evs, p, parts, content, city, side) == SW.SetAfter(events, Straight(|events|), side)
    {
      RedisIsSetAfter(log, evs, p, parts, content, city, side);
      SW.Convergence(events, w, side);
    }
    SW.AggregatesConverge(events, w);
  }

  /** Two searches of one route. */
  const TWO_SEARCHES := Content((at: Pos) => "london",
                                (at: Pos) => SW.Event(if at.offset == 0 then "a" else "b", "search", 0.0))

  lemma TwoSearchesLog(log: Log)
    requires log == [[Valid, Valid]]
    ensures RouteLog(log, 0, TWO_SEARCHES, "london") == [SW.Event("a", "search", 0.0), SW.Event("b", "search", 0.0)]
  {
    var chosen := OfRoute(log, 0, TWO_SEARCHES, "london");
    assert chosen(0) && chosen(1) && |log[0]| == 2;
    assert EventsUpTo(log, 0, TWO_SEARCHES, "london", 0) == [];
    assert EventsUpTo(log, 0, TWO_SEARCHES, "london", 1) == [SW.Event("a", "search", 0.0)];
  }

  lemma OvertakingSets(log: Log)
    requires log == [[Valid, Valid]] && After(log, OVERTAKING).Some?
    ensures "a" !in RedisAfter(log, OVERTAKING, 0, (i: nat) => 0, TWO_SEARCHES, "london", SW.Searches)
  {
    var s1, s2, s3, s4 := OvertakingStates();
    var evs, parts := OVERTAKING, (i: nat) => 0;
    assert evs[..3][..2] == evs[..2] && evs[..2][..1] == evs[..1] && evs[..1][..0] == [];
    assert RedisAfter(log, evs[..1], 0, parts, TWO_SEARCHES, "london", SW.Searches) == map[];
    assert RedisAfter(log, evs[..2], 0, parts, TWO_SEARCHES, "london", SW.Searches) == map[];
    assert "a" !in RedisAfter(log, evs[..3], 0, parts, TWO_SEARCHES, "london", SW.Searches);
  }

  lemma OvertakingPasses(log: Log)
    requires log == [[Valid, Valid]]
    ensures Passed(log, OVERTAKING, 0, (i: nat) => 0, 0) && ReadToEnd(log, After(log, OVERTAKING).value, 0)
  {
    var s1, s2, s3, s4 := OvertakingStates();
    var evs, parts := OVERTAKING, (i: nat) => 0;
    assert evs[..3][..2] == evs[..2] && evs[..2][..1] == evs[..1] && evs[..1][..0] == [];
    assert VisitsOf(log, evs[..1], 0, parts) == [];
    assert VisitsOf(log, evs[..2], 0, parts) == [Visit(0, false, 0)];
    assert VisitsOf(log, evs[..3], 0, parts) == [Visit(0, false, 0), Visit(1, true, 0)];
    var w := VisitsOf(log, evs, 0, parts);
    assert w[0].pos == 0 && !w[0].whole && w[1].pos != 0;
  }

  lemma StraightKeepsBoth(events: seq<SW.Event>)
    requires events == [SW.Event("a", "search", 0.0), SW.Event("b", "search", 0.0)]
    ensures "a" in SW.SetAfter(events, Straight(|events|), SW.Searches)
  {
    StraightCaughtUp(|events|);
    assert SW.KeptByLog(events, SW.Searches, "a", 0.0, 0);
    SW.KeptIsKeptByLog(events, Straight(|events|), SW.Searches, "a", 0.0);
  }

  /** An overtaken failure breaks convergence, for good: after that run the partition is read and committed to
      its end, the first search is missing from the set that an uninterrupted pass would leave, and no
      continuation without an offset reset ever catches up. */
  lemma OvertakenFailureDiverges(more: seq<Event>)
    requires NoResets(more) && After([[Valid, Valid]], OVERTAKING + more).Some?
    ensures var log := [[Valid, Valid]]; var parts := (i: nat) => 0;
            var events := RouteLog(log, 0, TWO_SEARCHES, "london");
            && After(log, OVERTAKING).Some? && ReadToEnd(log, After(log, OVERTAKING).value, 0)
            && "a" in SW.SetAfter(events, Straight(|events|), SW.Searches)
            && "a" !in RedisAfter(log, OVERTAKING, 0, parts, TWO_SEARCHES, "london", SW.Searches)
            && !CaughtUp(VisitsOf(log, OVERTAKING + more, 0, parts), 2)
  {
    var log := [[Valid, Valid]];
    OvertakingPasses(log);
    OvertakingSets(log);
    TwoSearchesLog(log);
    StraightKeepsBoth(RouteLog(log, 0, TWO_SEARCHES, "london"));
    PassedFailureIsFinal(log, OVERTAKING, more, 0, (i: nat) => 0, 0);
  }

  // ---------------------------------------------------------------- the lake

  /** Messages of a route are keyed by city, so they are all in one partition. */
  ghost predicate Keyed(log: Log, p: nat, content: Content, city: string) {
    forall at: Pos | InLog(log, at) && MessageAt(log, at) == Valid && content.city(at) == city :: at.partition == p
  }

  /** The rows of the lake are the stored messages. */
  ghost predicate LakeHolds(lake: LQ.Lake, stored: set<Pos>, content: Content) {
    forall r :: r in LQ.AllRows(lake) <==> exists at ::
        at in stored && LQ.Record(content.city(at), content.event(at)) == r
  }

  ghost predicate OnlyValid(log: Log, s: State) {
    forall at | at in s.lake || at in s.buffer :: InLog(log, at) && MessageAt(log, at) == Valid
  }

  lemma {:induction false} OnlyValidHolds(log: Log, evs: seq<Event>)
    requires After(log, evs).Some?
    ensures OnlyValid(log, After(log, evs).value)
  {
    if evs != [] {
      var n := |evs| - 1;
      OnlyValidHolds(log, evs[..n]);
      OnlyValidStep(log, After(log, evs[..n]).value, evs[n]);
    }
  }

  lemma OnlyValidStep(log: Log, s: State, ev: Event)
    requires OnlyValid(log, s) && Enabled(log, s, ev)
    ensures OnlyValid(log, Do(log, s, ev))
  {
  }

  /** With nothing overtaken, nothing lost in a crash and nothing left in the buffer, a partition that was read
      to its end is in the lake. */
  lemma EverythingIsStored(log: Log, evs: seq<Event>, p: nat, o: nat)
    requires p < |log| && After(log, evs).Some? && o < |log[p]| && log[p][o] == Valid
    requires var s := After(log, evs).value;
             !s.overtaken && s.gone == {} && s.buffer == {} && ReadToEnd(log, s, p)
    ensures Pos(p, o) in After(log, evs).value.lake
  {
    StreamConsumer.LakeHolds(log, evs);
    InvHolds(log, evs);
    var s, at := After(log, evs).value, Pos(p, o);
    assert InLog(log, at) && MessageAt(log, at) == Valid;
    if Get(s.committed, p) <= o {
      assert Noted(s, at);
    }
  }

  /** Then the lake mirrors the route's history, which is what the lake query relies on. */
  lemma LakeMirrorsRoute(log: Log, evs: seq<Event>, p: nat, content: Content, city: string, lake: LQ.Lake)
    requires p < |log| && After(log, evs).Some? && Keyed(log, p, content, city)
    requires var s := After(log, evs).value;
             !s.overtaken && s.gone == {} && s.buffer == {} && ReadToEnd(log, s, p) && LakeHolds(lake, s.lake, content)
    ensures LQ.Mirrors(lake, city, RouteLog(log, p, content, city))
  {
    var s, events := After(log, evs).value, RouteLog(log, p, content, city);
    OnlyValidHolds(log, evs);
    forall e | e in events ensures LQ.Record(city, e) in LQ.AllRows(lake) {
      EventsHave(log, p, content, city, e);
      var q: nat :| OfRoute(log, p, content, city)(q) && content.event(Pos(p, q)) == e;
      EverythingIsStored(log, evs, p, q);
    }
    forall r | r in LQ.AllRows(lake) && r.city == city ensures r.event in events {
      var at :| at in s.lake && LQ.Record(content.city(at), content.event(at)) == r;
      assert OfRoute(log, p, content, city)(at.offset) && Pos(p, at.offset) == at;
      EventsHave(log, p, content, city, r.event);
    }
  }

  /** The two stores agree: after such a run the lake query at the route's last event answers with the
      aggregates the machine published, if the route's events come in time order. */
  lemma StoresAgree(log: Log, evs: seq<Event>, p: nat, parts: nat -> nat, content: Content, city: string, lake: LQ.Lake)
    requires p < |log| && After(log, evs).Some? && Keyed(log, p, content, city)
    requires var s := After(log, evs).value;
             !s.overtaken && s.gone == {} && s.buffer == {} && ReadToEnd(log, s, p) && LakeHolds(lake, s.lake, content)
    requires RouteLog(log, p, content, city) != [] && LQ.NonDecreasing(RouteLog(log, p, content, city))
    ensures var events := RouteLog(log, p, content, city);
            var a := LQ.Answer(LQ.AllRows(lake), city, events[|events| - 1].epoch, 0);
            && Walk(RouteVisits(log, evs, p, parts, content, city), |events|)
            && SW.AggregatesAfter(events, RouteVisits(log, evs, p, parts, content, city))
               == [SW.Aggregates(a.searches5m, a.bookings15m, a.lookToBook1h)]
  {
    RouteCaughtUp(log, evs, p, parts, content, city);
    LakeMirrorsRoute(log, evs, p, content, city, lake);
    LQ.LakeAgreesWithRedis(lake, city, RouteLog(log, p, content, city), RouteVisits(log, evs, p, parts, content, city));
  }
}
