/** The WebSocket hub: one loop that registers, unregisters and broadcasts, with bounded client queues
    and eviction of slow clients (controller/api/websocket.go). */
module Hub {

  /** make(chan []byte, 256) */
  const CAPACITY := 256

  /** What travels through a client's queue: hub broadcasts, and the one greeting its handler sends. */
  datatype Item = Event(message: string) | Greeting

  /** Where the goroutines of a connection are: before `register`, between `register` and the greeting,
      with the pumps running, and after the reader has unregistered. */
  datatype Stage = Created | Registered | Live | Gone

  /** A connection: its queue, how often the queue was closed, what the writer has taken out of it, the
      hub messages it was given, and how long the broadcast log was when it registered. */
  datatype Conn = Conn(
    stage: Stage,
    queue: seq<Item>,
    closes: nat,
    taken: seq<Item>,
    given: seq<string>,
    start: nat)

  const NEW_CONN := Conn(Created, [], 0, [], [], 0)

  /** The hub's map of clients, all connections ever made, and every message broadcast so far. */
  datatype HubState<!C> = HubState(clients: set<C>, conns: map<C, Conn>, log: seq<string>)

  // ---------- steps ----------

  datatype Step<C> =
    | Connect(c: C)
    | Register(c: C)
    | Greet(c: C)
    | Take(c: C)
    | Unregister(c: C)
    | Broadcast(message: string)

  predicate HasRoom(conn: Conn) {
    |conn.queue| < CAPACITY
  }

  function Closed(conn: Conn): Conn {
    conn.(closes := conn.closes + 1)
  }

  /** One client's turn of a broadcast: the message if there is room, else eviction. */
  function Offered(conn: Conn, m: string): Conn {
    if HasRoom(conn) then conn.(queue := conn.queue + [Event(m)], given := conn.given + [m]) else Closed(conn)
  }

  function RegisterStep<C>(s: HubState<C>, c: C): HubState<C>
    requires c in s.conns
  {
    s.(clients := s.clients + {c}, conns := s.conns[c := s.conns[c].(stage := Registered, start := |s.log|)])
  }

  function UnregisterStep<C>(s: HubState<C>, c: C): HubState<C>
    requires c in s.conns
  {
    var gone := s.conns[c].(stage := Gone);
    s.(clients := s.clients - {c}, conns := s.conns[c := if c in s.clients then Closed(gone) else gone])
  }

  function BroadcastStep<C>(s: HubState<C>, m: string): HubState<C> {
    HubState(set c | c in s.clients && (c in s.conns ==> HasRoom(s.conns[c])),
             map c | c in s.conns :: if c in s.clients then Offered(s.conns[c], m) else s.conns[c],
             s.log + [m])
  }

  /** HandleWebSocket registers before it greets, greets before the pumps start, and only the running
      reader unregisters, once. A send waits while the queue is full. */
  ghost predicate Next<C>(s: HubState<C>, step: Step<C>, s': HubState<C>) {
    match step
    case Connect(c) => c !in s.conns && s' == s.(conns := s.conns[c := NEW_CONN])
    case Register(c) => c in s.conns && s.conns[c].stage == Created && s' == RegisterStep(s, c)
    case Greet(c) =>
      && c in s.conns && s.conns[c].stage == Registered && s.conns[c].closes == 0 && HasRoom(s.conns[c])
      && s' == s.(conns := s.conns[c := s.conns[c].(stage := Live, queue := s.conns[c].queue + [Greeting])])
    case Take(c) =>
      && c in s.conns && (s.conns[c].stage.Live? || s.conns[c].stage.Gone?) && s.conns[c].queue != []
      && s' == s.(conns := s.conns[c :=
        s.conns[c].(queue := s.conns[c].queue[1..], taken := s.conns[c].taken + [s.conns[c].queue[0]])])
    case Unregister(c) => c in s.conns && s.conns[c].stage == Live && s' == UnregisterStep(s, c)
    case Broadcast(m) => s' == BroadcastStep(s, m)
  }

  /** Step i leads from state i to the next one. */
  ghost predicate StepAt<C>(run: seq<HubState<C>>, steps: seq<Step<C>>, i: nat)
    requires i < |steps| && |run| == |steps| + 1
  {
    Next(run[i], steps[i], run[i + 1])
  }

  ghost predicate IsHubRun<C>(run: seq<HubState<C>>, steps: seq<Step<C>>) {
    && |run| == |steps| + 1
    && run[0] == HubState({}, map[], [])
    && forall i: nat | i < |steps| :: StepAt(run, steps, i)
  }

  // ---------- the invariant ----------

  /** The hub messages among the items. */
  function Events(items: seq<Item>): seq<string> {
    if items == [] then []
    else
      var front, last := items[..|items| - 1], items[|items| - 1];
      if last.Event? then Events(front) + [last.message] else Events(front)
  }

  predicate ConnOk(conn: Conn, inMap: bool, log: seq<string>) {
    && conn.closes <= 1
    && (conn.stage == Created ==> conn == NEW_CONN && !inMap)
    && (conn.stage != Created ==> (inMap <==> conn.closes == 0))
    && (conn.stage == Gone ==> !inMap)
    && conn.start + |conn.given| <= |log|
    && conn.given == log[conn.start..conn.start + |conn.given|]
    && (inMap ==> conn.start + |conn.given| == |log|)
    && |conn.queue| <= CAPACITY
    && Events(conn.taken + conn.queue) == conn.given
    && (conn.stage == Registered ==> conn.taken == [] && |conn.queue| == |conn.given|)
    && (conn.stage == Registered && !inMap ==> |conn.given| == CAPACITY && conn.start + CAPACITY < |log|)
  }

  ghost predicate Ok<C>(s: HubState<C>) {
    && (forall c | c in s.clients :: c in s.conns)
    && (forall c | c in s.conns :: ConnOk(s.conns[c], c in s.clients, s.log))
  }

  lemma {:induction false} EventsConcat(a: seq<Item>, b: seq<Item>)
    ensures Events(a + b) == Events(a) + Events(b)
    decreases |b|
  {
    if b == [] {
      assert a + b == a;
    } else {
      assert (a + b)[..|a + b| - 1] == a + b[..|b| - 1];
      EventsConcat(a, b[..|b| - 1]);
    }
  }

  lemma OfferedOk(conn: Conn, log: seq<string>, m: string)
    requires ConnOk(conn, true, log)
    ensures ConnOk(Offered(conn, m), HasRoom(conn), log + [m])
  {
    if HasRoom(conn) {
      EventsConcat(conn.taken, conn.queue);
      EventsConcat(conn.taken, conn.queue + [Event(m)]);
      assert (conn.queue + [Event(m)])[..|conn.queue|] == conn.queue;
    }
  }

  lemma LongerLogOk(conn: Conn, log: seq<string>, m: string)
    requires ConnOk(conn, false, log)
    ensures ConnOk(conn, false, log + [m])
  {
  }

  lemma GreetedOk(conn: Conn, log: seq<string>)
    requires ConnOk(conn, true, log) && conn.stage == Registered && HasRoom(conn)
    ensures ConnOk(conn.(stage := Live, queue := conn.queue + [Greeting]), true, log)
  {
    assert (conn.taken + (conn.queue + [Greeting]))[..|conn.taken| + |conn.queue|] == conn.taken + conn.queue;
  }

  lemma TakenOk(conn: Conn, inMap: bool, log: seq<string>)
    requires ConnOk(conn, inMap, log) && (conn.stage == Live || conn.stage == Gone) && conn.queue != []
    ensures ConnOk(conn.(queue := conn.queue[1..], taken := conn.taken + [conn.queue[0]]), inMap, log)
  {
    assert conn.taken + [conn.queue[0]] + conn.queue[1..] == conn.taken + conn.queue;
  }

  lemma RegisteredOk(log: seq<string>)
    ensures ConnOk(NEW_CONN.(stage := Registered, start := |log|), true, log)
  {
  }

  lemma GoneOk(conn: Conn, inMap: bool, log: seq<string>)
    requires ConnOk(conn, inMap, log) && conn.stage == Live
    ensures var gone := conn.(stage := Gone); ConnOk(if inMap then Closed(gone) else gone, false, log)
  {
  }

  /** Replacing one connection keeps the others as they are. */
  lemma ReplacedOk<C>(s: HubState<C>, c: C, conn: Conn, clients: set<C>)
    requires Ok(s) && ConnOk(conn, c in clients, s.log)
    requires forall d | d != c :: d in clients <==> d in s.clients
    ensures Ok(s.(clients := clients, conns := s.conns[c := conn]))
  {
  }

  lemma BroadcastOk<C>(s: HubState<C>, m: string)
    requires Ok(s)
    ensures Ok(BroadcastStep(s, m))
  {
    var s' := BroadcastStep(s, m);
    forall c | c in s'.conns
      ensures ConnOk(s'.conns[c], c in s'.clients, s'.log)
    {
      if c in s.clients {
        OfferedOk(s.conns[c], s.log, m);
      } else {
        LongerLogOk(s.conns[c], s.log, m);
      }
    }
  }

  lemma StepOk<C>(s: HubState<C>, step: Step<C>, s': HubState<C>)
    requires Ok(s) && Next(s, step, s')
    ensures Ok(s')
  {
    match step {
      case Connect(c) => ReplacedOk(s, c, NEW_CONN, s.clients);
      case Register(c) =>
        RegisteredOk(s.log);
        ReplacedOk(s, c, s'.conns[c], s'.clients);
      case Greet(c) =>
        GreetedOk(s.conns[c], s.log);
        ReplacedOk(s, c, s'.conns[c], s.clients);
      case Take(c) =>
        TakenOk(s.conns[c], c in s.clients, s.log);
        ReplacedOk(s, c, s'.conns[c], s.clients);
      case Unregister(c) =>
        GoneOk(s.conns[c], c in s.clients, s.log);
        ReplacedOk(s, c, s'.conns[c], s'.clients);
      case Broadcast(m) => BroadcastOk(s, m);
    }
  }

  lemma {:induction false} HubRunOk<C>(run: seq<HubState<C>>, steps: seq<Step<C>>, i: nat)
    requires IsHubRun(run, steps) && i < |run|
    ensures Ok(run[i])
  {
    if i > 0 {
      HubRunOk(run, steps, i - 1);
      assert StepAt(run, steps, i - 1);
      StepOk(run[i - 1], steps[i - 1], run[i]);
    }
  }

  /** Over every run: a queue is closed at most once, and a registered client's queue is closed exactly
      when the client has left the map. */
  lemma ClosedOnce<C>(run: seq<HubState<C>>, steps: seq<Step<C>>, i: nat, c: C)
    requires IsHubRun(run, steps) && i < |run| && c in run[i].conns
    ensures run[i].conns[c].closes <= 1
    ensures run[i].conns[c].stage != Created ==> (run[i].conns[c].closes == 1 <==> c !in run[i].clients)
  {
    HubRunOk(run, steps, i);
  }

  /** Over every run: the hub messages a client was given are a contiguous block of the broadcast log
      that starts at its registration and, while the client is in the map, reaches to the end; and what
      its writer has taken and what is still queued are exactly these messages, in order. */
  lemma Delivery<C>(run: seq<HubState<C>>, steps: seq<Step<C>>, i: nat, c: C)
    requires IsHubRun(run, steps) && i < |run| && c in run[i].conns
    ensures var conn, log := run[i].conns[c], run[i].log;
      && conn.start + |conn.given| <= |log|
      && conn.given == log[conn.start..conn.start + |conn.given|]
      && (c in run[i].clients ==> conn.given == log[conn.start..])
      && Events(conn.taken + conn.queue) == conn.given
  {
    HubRunOk(run, steps, i);
  }

  /** A handler that has registered but not yet greeted finds its queue closed, and would panic, exactly
      when more than CAPACITY messages were broadcast in between. */
  lemma GreetingMeetsClosedQueueExactly<C>(run: seq<HubState<C>>, steps: seq<Step<C>>, i: nat, c: C)
    requires IsHubRun(run, steps) && i < |run| && c in run[i].conns && run[i].conns[c].stage == Registered
    ensures run[i].conns[c].closes > 0 <==> |run[i].log| - run[i].conns[c].start > 256
  {
    HubRunOk(run, steps, i);
  }

  lemma RunExtends<C>(run: seq<HubState<C>>, steps: seq<Step<C>>, step: Step<C>, s': HubState<C>)
    requires IsHubRun(run, steps) && Next(run[|steps|], step, s')
    ensures IsHubRun(run + [s'], steps + [step])
  {
    var run', steps' := run + [s'], steps + [step];
    forall i: nat | i < |steps'|
      ensures StepAt(run', steps', i)
    {
      assert i < |steps| ==> StepAt(run, steps, i);
    }
  }

  function Queued(messages: seq<string>): (queue: seq<Item>)
    ensures |queue| == |messages|
  {
    seq(|messages|, i requires 0 <= i < |messages| => Event(messages[i]))
  }

  /** One client that has registered and been given `messages`, which it has not read yet. */
  function Unread<C>(c: C, messages: seq<string>): HubState<C> {
    HubState({c}, map[c := Conn(Registered, Queued(messages), 0, [], messages, 0)], messages)
  }

  lemma {:induction false} RunToUnread<C>(c: C, messages: seq<string>)
      returns (run: seq<HubState<C>>, steps: seq<Step<C>>)
    requires |messages| <= CAPACITY
    ensures IsHubRun(run, steps) && |steps| == |messages| + 2 && run[|steps|] == Unread(c, messages)
  {
    if messages == [] {
      var s0: HubState<C> := HubState({}, map[], []);
      var s1 := s0.(conns := s0.conns[c := NEW_CONN]);
      run, steps := [s0, s1, RegisterStep(s1, c)], [Connect(c), Register(c)];
      assert RegisterStep(s1, c).conns == Unread(c, []).conns;
    } else {
      var n := |messages| - 1;
      run, steps := RunToUnread(c, messages[..n]);
      UnreadStep(c, messages);
      RunExtends(run, steps, Broadcast(messages[n]), Unread(c, messages));
      run, steps := run + [Unread(c, messages)], steps + [Broadcast(messages[n])];
    }
  }

  lemma UnreadStep<C>(c: C, messages: seq<string>)
    requires 0 < |messages| <= CAPACITY
    ensures BroadcastStep(Unread(c, messages[..|messages| - 1]), messages[|messages| - 1]) == Unread(c, messages)
  {
    var n := |messages| - 1;
    var s, s' := Unread(c, messages[..n]), Unread(c, messages);
    assert messages[..n] + [messages[n]] == messages;
    assert Queued(messages[..n]) + [Event(messages[n])] == Queued(messages);
    assert BroadcastStep(s, messages[n]).clients == s'.clients;
    assert BroadcastStep(s, messages[n]).conns == s'.conns;
  }

  /** It does happen: any 257 messages broadcast between a client's registration and its greeting make
      the hub close the queue the handler is about to send on. */
  lemma GreetingCanMeetClosedQueue<C>(c: C, messages: seq<string>) returns (run: seq<HubState<C>>, steps: seq<Step<C>>)
    requires |messages| == 257
    ensures IsHubRun(run, steps) && c in run[|steps|].conns
    ensures run[|steps|].conns[c].stage == Registered && run[|steps|].conns[c].closes == 1
    ensures run[|steps|].log == messages
  {
    var front, last := messages[..CAPACITY], messages[CAPACITY];
    run, steps := RunToUnread(c, front);
    var s' := BroadcastStep(Unread(c, front), last);
    RunExtends(run, steps, Broadcast(last), s');
    run, steps := run + [s'], steps + [Broadcast(last)];
    assert front + [last] == messages;
  }

  // ---------- a broadcast, client by client ----------

  function OfferTurn<C>(s: HubState<C>, c: C, m: string): HubState<C>
    requires c in s.conns
  {
    s.(clients := if HasRoom(s.conns[c]) then s.clients else s.clients - {c},
       conns := s.conns[c := Offered(s.conns[c], m)])
  }

  /** A broadcast in which the clients `todo` have not had their turn. */
  function HalfBroadcast<C>(s: HubState<C>, todo: set<C>, m: string): HubState<C> {
    HubState(set c | c in s.clients && (c in todo || (c in s.conns ==> HasRoom(s.conns[c]))),
             map c | c in s.conns :: if c in s.clients && c !in todo then Offered(s.conns[c], m) else s.conns[c],
             s.log)
  }

  lemma OfferTurnStep<C>(s: HubState<C>, todo: set<C>, c: C, m: string)
    requires Ok(s) && todo <= s.clients && c in todo
    ensures c in HalfBroadcast(s, todo, m).conns
    ensures OfferTurn(HalfBroadcast(s, todo, m), c, m) == HalfBroadcast(s, todo - {c}, m)
  {
    var half, next := HalfBroadcast(s, todo, m), HalfBroadcast(s, todo - {c}, m);
    assert half.conns[c] == s.conns[c];
    assert OfferTurn(half, c, m).conns == next.conns;
    assert OfferTurn(half, c, m).clients == next.clients;
  }

  lemma HalfBroadcastEnds<C>(s: HubState<C>, m: string)
    requires Ok(s)
    ensures HalfBroadcast(s, s.clients, m) == s
    ensures HalfBroadcast(s, {}, m).(log := s.log + [m]) == BroadcastStep(s, m)
  {
    assert HalfBroadcast(s, s.clients, m).clients == s.clients;
    assert HalfBroadcast(s, s.clients, m).conns == s.conns;
    assert HalfBroadcast(s, {}, m).conns == BroadcastStep(s, m).conns;
    assert HalfBroadcast(s, {}, m).clients == BroadcastStep(s, m).clients;
  }

  lemma OpenBeforeTurn<C>(s: HubState<C>, todo: set<C>, c: C, m: string)
    requires Ok(s) && todo <= s.clients && c in todo
    ensures c in HalfBroadcast(s, todo, m).clients
    ensures c in HalfBroadcast(s, todo, m).conns && HalfBroadcast(s, todo, m).conns[c].closes == 0
  {
    assert ConnOk(s.conns[c], true, s.log);
  }

  lemma OpenInMap<C>(s: HubState<C>, c: C)
    requires Ok(s) && c in s.conns
    ensures c in s.clients ==> s.conns[c].closes == 0
  {
    assert ConnOk(s.conns[c], c in s.clients, s.log);
  }

  // ---------- the hub's loop body ----------

  /** A client's channel. Sending on or closing a closed channel panics, so both ask for an open one. */
  class Client {
    var queue: seq<Item>
    var closed: bool
    ghost var conn: Conn

    ghost predicate Valid()
      reads this
    {
      queue == conn.queue && (closed <==> conn.closes > 0)
    }

    constructor ()
      ensures Valid() && conn == NEW_CONN
    {
      queue, closed, conn := [], false, NEW_CONN;
    }

    /** select { case client.send <- message: default: } */
    method TrySend(m: string) returns (sent: bool)
      requires Valid() && !closed
      modifies this
      ensures Valid() && (sent <==> HasRoom(old(conn)))
      ensures conn == if sent then Offered(old(conn), m) else old(conn)
    {
      sent := |queue| < CAPACITY;
      if sent {
        queue := queue + [Event(m)];
        conn := Offered(conn, m);
      }
    }

    method Close()
      requires Valid() && !closed
      modifies this
      ensures Valid() && conn == Closed(old(conn))
    {
      closed := true;
      conn := Closed(conn);
    }
  }

  class WebSocketHub {
    var clients: set<Client>
    ghost var known: set<Client>
    ghost var log: seq<string>

    ghost function View(): HubState<Client>
      reads this, known
    {
      HubState(clients, map c | c in known :: c.conn, log)
    }

    ghost predicate Valid()
      reads this, known
    {
      clients <= known && forall c | c in known :: c.Valid()
    }

    constructor ()
      ensures Valid() && View() == HubState({}, map[], [])
    {
      clients, known, log := {}, {}, [];
    }

    /** case client := <-h.register */
    method HandleRegister(client: Client)
      requires Valid() && client in known
      modifies this, client
      ensures Valid() && known == old(known) && View() == RegisterStep(old(View()), client)
    {
      clients := clients + {client};
      client.conn := client.conn.(stage := Registered, start := |log|);
    }

    /** case client := <-h.unregister: delete and close only if the client is still in the map, so in a
        reachable state an evicted client is not closed again. */
    method HandleUnregister(client: Client)
      requires Valid() && client in known && Ok(View())
      modifies this, client
      ensures Valid() && known == old(known) && View() == UnregisterStep(old(View()), client)
    {
      OpenInMap(View(), client);
      Leave(client);
      if client in clients {
        Drop(client);
      }
    }

    /** The reader of the connection has stopped. */
    ghost method Leave(client: Client)
      requires Valid() && client in known
      modifies client
      ensures Valid() && client.closed == old(client.closed)
      ensures View() == old(View()).(conns := old(View()).conns[client := old(View()).conns[client].(stage := Gone)])
    {
      client.conn := client.conn.(stage := Gone);
    }

    /** Deletes a client from the map and closes its queue. */
    method Drop(client: Client)
      requires Valid() && client in clients && !client.closed
      modifies this`clients, client
      ensures Valid() && known == old(known)
      ensures View() == old(View()).(clients := old(clients) - {client},
                                     conns := old(View()).conns[client := Closed(old(View()).conns[client])])
    {
      clients := clients - {client};
      client.Close();
    }

    /** One client's turn of a broadcast. */
    method Offer(client: Client, message: string)
      requires Valid() && client in clients && !client.closed
      modifies this`clients, client
      ensures Valid() && known == old(known) && View() == OfferTurn(old(View()), client, message)
    {
      var sent := client.TrySend(message);
      if !sent {
        Drop(client);
      }
    }

    /** case message := <-h.broadcast: visit the clients in any order, evicting those that are full while
        iterating; in a reachable state no queue it touches is closed. */
    method HandleBroadcast(message: string)
      requires Valid() && Ok(View())
      modifies this, known
      ensures Valid() && known == old(known) && View() == BroadcastStep(old(View()), message)
    {
      ghost var was := View();
      var todo := clients;
      HalfBroadcastEnds(was, message);
      while todo != {}
        invariant Valid() && todo <= was.clients && known == old(known)
        invariant View() == HalfBroadcast(was, todo, message)
        decreases todo
      {
        var client :| client in todo;
        OpenBeforeTurn(was, todo, client, message);
        assert client.conn == View().conns[client];
        OfferTurnStep(was, todo, client, message);
        Offer(client, message);
        todo := todo - {client};
      }
      log := log + [message];
    }
  }
}
