/** WebSocket fan-out: one bounded queue per subscriber, filled by broadcasts that never wait
    (services/api/app/main.py). */
module FanOut {
  import opened Options

  const QUEUE_SIZE: nat := 50

  type Message = string

  predicate Full(queue: seq<Message>) {
    QUEUE_SIZE <= |queue|
  }

  function Offered(queue: seq<Message>, msg: Message): seq<Message> {
    if Full(queue) then queue else queue + [msg]
  }

  /** A queue takes fifty messages, in order, and refuses the next. */
  lemma QueueTakesFifty(queue: seq<Message>, msg: Message)
    ensures |queue| < 50 ==> !Full(queue) && Offered(queue, msg) == queue + [msg]
    ensures 50 <= |queue| ==> Full(queue) && Offered(queue, msg) == queue
  {
  }

  // ---------------------------------------------------------------- the implementation

  class Queue {
    var items: seq<Message>

    constructor ()
      ensures items == []
    {
      items := [];
    }

    method PutNowait(msg: Message) returns (ok: bool)
      modifies this
      ensures ok <==> !Full(old(items))
      ensures items == Offered(old(items), msg)
    {
      ok := |items| < QUEUE_SIZE;
      if ok {
        items := items + [msg];
      }
    }
  }

  class Hub {
    var subscribers: set<Queue>

    constructor ()
      ensures subscribers == {}
    {
      subscribers := {};
    }

    method Subscribe() returns (q: Queue)
      modifies this
      ensures fresh(q) && q.items == [] && subscribers == old(subscribers) + {q}
    {
      q := new Queue();
      subscribers := subscribers + {q};
    }

    method Unsubscribe(q: Queue)
      modifies this
      ensures subscribers == old(subscribers) - {q}
    {
      subscribers := subscribers - {q};
    }

    /** Offer the message to every queue; `dead` are those that were full. */
    static method OfferAll(queues: set<Queue>, msg: Message) returns (dead: set<Queue>)
      modifies queues
      ensures forall q | q in queues :: q.items == Offered(old(q.items), msg)
      ensures forall q :: q in dead <==> q in queues && Full(old(q.items))
    {
      var todo := queues;
      dead := {};
      while todo != {}
        invariant todo <= queues
        invariant forall q :: q in dead <==> q in queues - todo && Full(old(q.items))
        invariant forall q | q in todo :: q.items == old(q.items)
        invariant forall q | q in queues - todo :: q.items == Offered(old(q.items), msg)
        decreases todo
      {
        var q :| q in todo;
        todo := todo - {q};
        var ok := q.PutNowait(msg);
        if !ok {
          dead := dead + {q};
        }
      }
    }

    /** Every subscriber that has room gets the message; every one that has not is dropped. */
    method Broadcast(msg: Message)
      modifies this, subscribers
      ensures forall q | q in old(subscribers) :: q.items == Offered(old(q.items), msg)
      ensures forall q :: q in subscribers <==> q in old(subscribers) && !Full(old(q.items))
    {
      var dead := OfferAll(subscribers, msg);
      subscribers := subscribers - dead;
    }
  }

  // ---------------------------------------------------------------- all interleavings

  /** A connection.  `since` is how many messages had been broadcast when it subscribed; `until` how many
      when it stopped being a subscriber.  A message leaves the queue into the hand and then is sent. */
  datatype Client = Client(since: nat, until: Option<nat>, queue: seq<Message>, hand: Option<Message>,
                           sent: seq<Message>, open: bool)

  datatype State = State(log: seq<Message>, clients: seq<Client>)

  const SILENT := State([], [])

  datatype Event = Connect | Publish(msg: Message) | Get(client: nat) | Send(client: nat, delivered: bool)

  predicate Enabled(s: State, e: Event) {
    match e
    case Connect => true
    case Publish(_) => true
    case Get(i) => i < |s.clients| && s.clients[i].open && s.clients[i].hand.None? && s.clients[i].queue != []
    case Send(i, _) => i < |s.clients| && s.clients[i].open && s.clients[i].hand.Some?
  }

  function Hear(c: Client, msg: Message, index: nat): Client {
    if c.until.Some? then c
    else if Full(c.queue) then c.(until := Some(index))
    else c.(queue := Offered(c.queue, msg))
  }

  function SendOne(c: Client, delivered: bool, now: nat): Client
    requires c.hand.Some?
  {
    if delivered then c.(sent := c.sent + [c.hand.value], hand := None)
    else c.(open := false, until := if c.until.Some? then c.until else Some(now))
  }

  function Do(s: State, e: Event): State
    requires Enabled(s, e)
  {
    match e
    case Connect => s.(clients := s.clients + [Client(|s.log|, None, [], None, [], true)])
    case Publish(msg) =>
      State(s.log + [msg], seq(|s.clients|, i requires 0 <= i < |s.clients| => Hear(s.clients[i], msg, |s.log|)))
    case Get(i) =>
      var c := s.clients[i];
      s.(clients := s.clients[i := c.(hand := Some(c.queue[0]), queue := c.queue[1..])])
    case Send(i, delivered) => s.(clients := s.clients[i := SendOne(s.clients[i], delivered, |s.log|)])
  }

  /** A connection hears of what is broadcast from then on; a broadcast reaches every subscriber that has room and
      ends the subscription of every one that has not. */
  lemma WhatEventsDo(s: State, msg: Message)
    ensures Do(s, Connect) == State(s.log, s.clients + [Client(|s.log|, None, [], None, [], true)])
    ensures var t := Do(s, Publish(msg));
            && t.log == s.log + [msg] && |t.clients| == |s.clients|
            && forall i | 0 <= i < |s.clients| :: var c, d := s.clients[i], t.clients[i];
                 if c.until.Some? then d == c
                 else if |c.queue| < 50 then d == c.(queue := c.queue + [msg])
                 else d == c.(until := Some(|s.log|))
  {
  }

  function After(events: seq<Event>): Option<State> {
    if events == [] then Some(SILENT)
    else
      var before := After(events[..|events| - 1]);
      if before.Some? && Enabled(before.value, events[|events| - 1])
      then Some(Do(before.value, events[|events| - 1]))
      else None
  }

  /** A send that goes through moves the message in hand to the sent ones; one that fails ends the connection and
      the subscription, with nothing more sent. */
  lemma OneSend(c: Client, delivered: bool, now: nat)
    requires c.hand.Some?
    ensures var d := SendOne(c, delivered, now);
            && d.queue == c.queue && d.since == c.since
            && (delivered ==> d.sent == c.sent + [c.hand.value] && d.hand.None?)
            && (delivered ==> d.open == c.open && d.until == c.until)
            && (!delivered ==> d.sent == c.sent && !d.open && d.until == if c.until.Some? then c.until else Some(now))
  {
  }

  // ---------------------------------------------------------------- the invariant

  function HandOf(c: Client): seq<Message> {
    if c.hand.Some? then [c.hand.value] else []
  }

  /** The first message the client did not hear of, or the next one to come. */
  function End(s: State, c: Client): nat {
    if c.until.Some? then c.until.value else |s.log|
  }

  /** Sent, in hand and queued are one gap-free segment of the broadcasts, from the subscription on. */
  ghost predicate ClientOk(s: State, c: Client) {
    && c.since <= End(s, c) <= |s.log|
    && c.sent + HandOf(c) + c.queue == s.log[c.since..End(s, c)]
    && |c.queue| <= QUEUE_SIZE
    && (!c.open ==> c.until.Some?)
  }

  ghost predicate Inv(s: State) {
    forall i | 0 <= i < |s.clients| :: ClientOk(s, s.clients[i])
  }

  lemma HearKeeps(s: State, c: Client, msg: Message)
    requires ClientOk(s, c)
    ensures ClientOk(s.(log := s.log + [msg]), Hear(c, msg, |s.log|))
  {
    var t, d := s.(log := s.log + [msg]), Hear(c, msg, |s.log|);
    assert t.log[c.since..End(s, c)] == s.log[c.since..End(s, c)];
    if c.until.None? && !Full(c.queue) {
      assert t.log[c.since..|t.log|] == s.log[c.since..|s.log|] + [msg];
      assert d.sent + HandOf(d) + d.queue == c.sent + HandOf(c) + c.queue + [msg];
    }
  }

  lemma GetKeeps(s: State, c: Client)
    requires ClientOk(s, c) && c.hand.None? && c.queue != []
    ensures ClientOk(s, c.(hand := Some(c.queue[0]), queue := c.queue[1..]))
  {
    assert [c.queue[0]] + c.queue[1..] == c.queue;
    assert c.sent + ([c.queue[0]] + c.queue[1..]) == c.sent + [c.queue[0]] + c.queue[1..];
  }

  lemma InvStep(s: State, e: Event)
    requires Inv(s) && Enabled(s, e)
    ensures Inv(Do(s, e))
  {
    var t := Do(s, e);
    forall i | 0 <= i < |t.clients| ensures ClientOk(t, t.clients[i]) {
      if i < |s.clients| {
        var c := s.clients[i];
        assert ClientOk(s, c);
        match e
        case Connect =>
        case Publish(msg) => HearKeeps(s, c, msg);
        case Get(k) => if i == k { GetKeeps(s, c); }
        case Send(k, _) =>
      }
    }
  }

  lemma {:induction false} InvHolds(events: seq<Event>)
    requires After(events).Some?
    ensures Inv(After(events).value)
  {
    if events != [] {
      var init := events[..|events| - 1];
      InvHolds(init);
      InvStep(After(init).value, events[|events| - 1]);
    }
  }

  // ---------------------------------------------------------------- the promises

  /** In every reachable state, for every client: one gap-free in-order segment of the broadcasts, starting
      at the subscription, and never more than 50 queued. */
  lemma SegmentIsGapFree(events: seq<Event>, s: State, i: nat)
    requires After(events) == Some(s) && i < |s.clients|
    ensures var c := s.clients[i];
            && c.since <= End(s, c) <= |s.log|
            && c.sent + HandOf(c) + c.queue == s.log[c.since..End(s, c)]
            && |c.queue| <= QUEUE_SIZE
  {
    InvHolds(events);
    assert ClientOk(s, s.clients[i]);
  }

  /** A broadcast drops a subscriber exactly when its queue holds the 50 messages before this one: it is
      then at least 50 sends behind, and at most 51. */
  lemma DroppedIffBehind(events: seq<Event>, s: State, msg: Message, i: nat)
    requires After(events) == Some(s) && i < |s.clients| && s.clients[i].until.None?
    ensures var c, d := s.clients[i], Do(s, Publish(msg)).clients[i];
            && |c.sent| + |HandOf(c)| + |c.queue| == |s.log| - c.since
            && (d.until == Some(|s.log|) <==> |s.log| - c.since - |c.sent| == QUEUE_SIZE + |HandOf(c)|)
            && (d.until.Some? ==> c.queue == s.log[|s.log| - QUEUE_SIZE..] && d.queue == c.queue)
            && (d.until.None? <==> d.queue == c.queue + [msg])
  {
    InvHolds(events);
    var c := s.clients[i];
    assert ClientOk(s, c);
    assert |c.sent + HandOf(c) + c.queue| == |s.log| - c.since;
    if Full(c.queue) {
      assert c.queue == (c.sent + HandOf(c) + c.queue)[|c.sent| + |HandOf(c)|..];
    }
  }

  /** The end is final: nothing that is broadcast after it ever reaches the client. */
  lemma NothingAfterTheEnd(events: seq<Event>, s: State, e: Event, i: nat)
    requires After(events) == Some(s) && Enabled(s, e) && i < |s.clients| && s.clients[i].until.Some?
    ensures var c, d := s.clients[i], Do(s, e).clients[i];
            d.until == c.until && d.since == c.since && |c.sent| <= |d.sent| <= c.until.value - c.since
  {
    InvHolds(events + [e]) by {
      assert (events + [e])[..|events|] == events;
    }
    var d := Do(s, e).clients[i];
    assert (events + [e])[..|events|] == events;
    assert ClientOk(Do(s, e), d);
    assert |d.sent + HandOf(d) + d.queue| == d.until.value - d.since;
  }

  /** A dropped client whose connection stays up is sent all of its segment: what it gets is exactly the
      broadcasts from its subscription to its drop. */
  lemma DrainedClientHasItsSegment(events: seq<Event>, s: State, i: nat)
    requires After(events) == Some(s) && i < |s.clients|
    ensures var c := s.clients[i];
            c.since <= End(s, c) <= |s.log|
            && c.sent <= s.log[c.since..End(s, c)]
            && (c.sent == s.log[c.since..End(s, c)] <==> c.hand.None? && c.queue == [])
  {
    SegmentIsGapFree(events, s, i);
    var c := s.clients[i];
    var whole := c.sent + HandOf(c) + c.queue;
    assert c.sent == whole[..|c.sent|];
    assert |whole| == |c.sent| + |HandOf(c)| + |c.queue|;
    if c.hand.None? && c.queue == [] { assert whole == c.sent; }
  }

  // ---------------------------------------------------------------- progress

  function Run(s: State, events: seq<Event>): Option<State>
    decreases |events|
  {
    if events == [] then Some(s)
    else if Enabled(s, events[0]) then Run(Do(s, events[0]), events[1..])
    else None
  }

  /** The event a connection's own loop does next, if there is anything left to send. */
  function NextOf(s: State, i: nat): Event
    requires i < |s.clients|
  {
    if s.clients[i].hand.Some? then Send(i, true) else Get(i)
  }

  predicate HasWork(c: Client) {
    c.open && (c.hand.Some? || c.queue != [])
  }

  predicate OfClient(e: Event, i: nat) {
    (e.Get? || e.Send?) && e.client == i
  }

  /** A connection with anything queued or in hand can always go on, and nothing that happens elsewhere stops
      it. */
  lemma WorkStaysPossible(s: State, i: nat, e: Event)
    requires i < |s.clients| && HasWork(s.clients[i]) && Enabled(s, e) && !OfClient(e, i)
    ensures Enabled(s, NextOf(s, i))
    ensures i < |Do(s, e).clients| && HasWork(Do(s, e).clients[i]) && Enabled(Do(s, e), NextOf(s, i))
  {
  }

  lemma NextDone(s: State, i: nat)
    requires Inv(s) && i < |s.clients| && HasWork(s.clients[i])
    ensures Enabled(s, NextOf(s, i))
    ensures var t := Do(s, NextOf(s, i)); var c, d := s.clients[i], t.clients[i];
            && Inv(t) && t == s.(clients := s.clients[i := d]) && d.open && d.since == c.since && d.until == c.until
            && 2 * |d.queue| + |HandOf(d)| == 2 * |c.queue| + |HandOf(c)| - 1
  {
    InvStep(s, NextOf(s, i));
  }

  /** A connection that stays up is sent everything it was queued, by its own steps alone: afterwards it has
      its whole segment. */
  lemma Drains(s: State, i: nat) returns (events: seq<Event>, t: State)
    requires Inv(s) && i < |s.clients| && s.clients[i].open
    ensures Run(s, events) == Some(t) && forall e | e in events :: OfClient(e, i)
    ensures i < |t.clients| && t == s.(clients := s.clients[i := t.clients[i]])
    ensures var c := s.clients[i];
            && c.since <= End(s, c) <= |s.log|
            && t.clients[i].sent == s.log[c.since..End(s, c)] && t.clients[i].queue == [] && t.clients[i].hand.None?
    decreases 2 * |s.clients[i].queue| + |HandOf(s.clients[i])|
  {
    var c := s.clients[i];
    assert ClientOk(s, c);
    if HasWork(c) {
      NextDone(s, i);
      var rest;
      rest, t := Drains(Do(s, NextOf(s, i)), i);
      events := [NextOf(s, i)] + rest;
      assert events[1..] == rest;
    } else {
      events, t := [], s;
      assert c.sent + [] + [] == c.sent;
      assert s.clients[i := c] == s.clients;
    }
  }
}
