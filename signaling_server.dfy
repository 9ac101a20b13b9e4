/**
 * The backend's HTTP endpoints and its WebSocket signaling relay (`main.py`): admission of a
 * socket to a room, registration of the participant, relaying of every frame to the others,
 * pruning of recipients whose send failed, and the cleanup when the socket goes away.
 */
module SignalingServer {
  import opened Wrappers
  import opened Json
  import Lists
  import opened RoomService

  // ---------------------------------------------------------------------------
  // Messages

  /** What the server sends: its own two notices, and relayed client messages */
  datatype Outgoing =
    | ParticipantJoined(participantId: string, count: nat)
    | ParticipantLeft(participantId: string, count: nat)
    | Relayed(message: Object)

  /** `json.loads(data)`: not JSON, JSON that is not an object, or an object */
  datatype Parsed = NotJson | NotAnObject | Message(fields: Object)

  /** What `websocket.receive_text()` yields: a text frame, a disconnect, or another error */
  datatype Incoming = Frame(parsed: Parsed) | Disconnect | ReceiveError

  /** The outcome of `websocket.accept()` */
  datatype AcceptOutcome = AcceptOk | AcceptDisconnect | AcceptError

  /** What the server does to its sockets, in order */
  datatype Event =
    | Closed(conn: ConnId, code: nat, reason: string)
    | Accepted(conn: ConnId)
    | SendAttempt(to: string, conn: ConnId, msg: Outgoing, ok: bool)

  const POLICY_VIOLATION := 1008
  const INTERNAL_ERROR := 1011

  // ---------------------------------------------------------------------------
  // HTTP endpoints

  /** What a service call raised: an `HTTPException`, or any other exception */
  datatype Raised = Http(error: HttpError) | Internal

  /** The body `create_room` returns */
  datatype RoomCreated = RoomCreated(roomId: string, roomKey: string)

  /** The body `health_check` returns */
  datatype HealthReport = HealthReport(status: string, timestamp: string, activeRooms: nat)

  /** `except Exception: raise HTTPException(500, detail)`, which also catches an `HTTPException` */
  function CatchAll(e: Raised, detail: string): HttpError {
    HttpError(500, detail)
  }

  /** `except HTTPException: raise` followed by `except Exception: raise HTTPException(500, detail)` */
  function PassHttp(e: Raised, detail: string): (r: HttpError)
    ensures e.Http? ==> r == e.error
    ensures e.Internal? ==> r == HttpError(500, detail)
  {
    match e
    case Http(err) => err
    case Internal => HttpError(500, detail)
  }

  /**
   * The two handlers differ exactly on an `HTTPException` that is not already a 500 with the
   * handler's detail: `create_room`'s masks it, `verify_room`'s lets it through.
   */
  lemma HandlersDiffer(e: Raised, detail: string)
    ensures CatchAll(e, detail) != PassHttp(e, detail) <==> e.Http? && e.error != HttpError(500, detail)
    ensures CatchAll(e, detail).status == 500 && CatchAll(e, detail).detail == detail
  {
  }

  // ---------------------------------------------------------------------------
  // Socket admission and participant ids

  /** The checks before `websocket.accept()`, in order; a failure is the close reason */
  function Admission(rooms: map<string, Room>, roomId: string, key: Option<string>): (r: Result<Room, string>)
    ensures key.None? || key == Some("") ==> r == Failure("Missing room key")
    ensures key.Some? && key.value != "" && roomId !in rooms ==> r == Failure("Room not found")
    ensures key.Some? && key.value != "" && roomId in rooms && rooms[roomId].roomKey != key.value ==>
      r == Failure("Invalid room key")
    ensures r.Success? <==> key.Some? && key.value != "" && roomId in rooms && rooms[roomId].roomKey == key.value
    ensures r.Success? ==> r.value == rooms[roomId]
  {
    if key.None? || key.value == "" then Failure("Missing room key")
    else if roomId !in rooms then Failure("Room not found")
    else if rooms[roomId].roomKey != key.value then Failure("Invalid room key")
    else Success(rooms[roomId])
  }

  /** `f"user_{n}_{stamp}"`, `stamp` standing for `datetime.now().timestamp()` */
  function ParticipantId(n: nat, stamp: string): (id: string)
    ensures |id| > 6 && id[..5] == "user_"
  {
    "user_" + NatToString(n) + "_" + stamp
  }

  /** At one instant, different participant counts give different ids */
  lemma ParticipantIdsDiffer(n: nat, m: nat, stamp: string)
    ensures ParticipantId(n, stamp) == ParticipantId(m, stamp) ==> n == m
  {
    var a, b := NatToString(n), NatToString(m);
    if ParticipantId(n, stamp) == ParticipantId(m, stamp) {
      assert |a| == |b|;
      assert ParticipantId(n, stamp)[5..5 + |a|] == a;
      assert ParticipantId(m, stamp)[5..5 + |b|] == b;
      NatToStringInjective(n, m);
    }
  }

  // ---------------------------------------------------------------------------
  // Relay rules

  /** What the receive loop does with one incoming item */
  datatype Step = Relay(message: Object) | Skip | Stop

  /**
   * One turn of the receive loop: stamp `sender_id`, stop on `leave`, skip what is not JSON,
   * and stop on a disconnect or on any other error (a non-object cannot take `sender_id`).
   */
  function RelayStep(pid: string, item: Incoming): (s: Step)
    ensures s == Skip <==> item == Frame(NotJson)
    ensures s.Relay? ==> item.Frame? && item.parsed.Message?
    ensures s.Relay? ==> Get(s.message, "sender_id") == Some(Text(pid))
    ensures s.Relay? ==> Get(s.message, "type") != Some(Text("leave"))
    ensures s.Relay? ==> forall k :: k in item.parsed.fields && k != "sender_id" ==>
      k in s.message && s.message[k] == item.parsed.fields[k]
    ensures s.Relay? ==> s.message.Keys == item.parsed.fields.Keys + {"sender_id"}
    ensures item.Frame? && item.parsed.Message? ==>
      (s.Stop? <==> Get(item.parsed.fields, "type") == Some(Text("leave")))
  {
    match item
    case Frame(NotJson) => Skip
    case Frame(NotAnObject) => Stop
    case Frame(Message(fields)) =>
      var message := fields["sender_id" := Text(pid)];
      if Get(message, "type") == Some(Text("leave")) then Stop else Relay(message)
    case Disconnect => Stop
    case ReceiveError => Stop
  }

  // ---------------------------------------------------------------------------
  // Broadcast

  /** Those a broadcast excluding `exclude` addresses */
  ghost function Targets(ps: map<string, ConnId>, exclude: Option<string>): set<string> {
    set p | p in ps && Some(p) != exclude
  }

  /** The addressed participants whose socket fails to send */
  ghost function Unreachable(ps: map<string, ConnId>, exclude: Option<string>, broken: set<ConnId>): set<string> {
    set p | p in ps && Some(p) != exclude && ps[p] in broken
  }

  /** The attempt to send `msg` to `p`, which fails exactly when its socket is broken */
  function Attempt(ps: map<string, ConnId>, p: string, msg: Outgoing, broken: set<ConnId>): Event
    requires p in ps
  {
    SendAttempt(p, ps[p], msg, ps[p] !in broken)
  }

  /** The send attempts to `order`, in that order */
  function Attempts(ps: map<string, ConnId>, order: seq<string>, msg: Outgoing, broken: set<ConnId>): (r: seq<Event>)
    requires forall p :: p in order ==> p in ps
    ensures |r| == |order|
    ensures forall i :: 0 <= i < |order| ==> r[i] == Attempt(ps, order[i], msg, broken)
  {
    if order == [] then []
    else
      var p := order[|order| - 1];
      Attempts(ps, order[..|order| - 1], msg, broken) + [Attempt(ps, p, msg, broken)]
  }

  /** One more recipient, one more attempt at the end */
  lemma AttemptsSnoc(ps: map<string, ConnId>, order: seq<string>, p: string, msg: Outgoing, broken: set<ConnId>)
    requires forall p :: p in order ==> p in ps
    requires p in ps
    ensures Attempts(ps, order + [p], msg, broken) == Attempts(ps, order, msg, broken) + [Attempt(ps, p, msg, broken)]
  {
    assert (order + [p])[..|order|] == order;
  }

  // ---------------------------------------------------------------------------
  // The receive loop, turn by turn

  /** The participants after one turn: a relay drops the recipients it could not reach */
  ghost function AfterTurn(ps: map<string, ConnId>, pid: string, item: Incoming, broken: set<ConnId>): map<string, ConnId> {
    if RelayStep(pid, item).Relay? then ps - Unreachable(ps, Some(pid), broken) else ps
  }

  /** The participants after the first `n` turns for `items`, starting from `ps` */
  ghost function Survivors(ps: map<string, ConnId>, pid: string, items: seq<Incoming>, n: nat, broken: set<ConnId>): map<string, ConnId>
    requires n <= |items|
  {
    if n == 0 then ps
    else AfterTurn(Survivors(ps, pid, items, n - 1, broken), pid, items[n - 1], broken)
  }

  /** The turns only ever drop participants, and never the sender itself */
  lemma {:induction false} SurvivorsShrink(ps: map<string, ConnId>, pid: string, items: seq<Incoming>, n: nat, broken: set<ConnId>)
    requires n <= |items|
    ensures forall p :: p in Survivors(ps, pid, items, n, broken) ==> p in ps && Survivors(ps, pid, items, n, broken)[p] == ps[p]
    ensures pid in ps ==> pid in Survivors(ps, pid, items, n, broken)
  {
    if n > 0 {
      SurvivorsShrink(ps, pid, items, n - 1, broken);
      var prev := Survivors(ps, pid, items, n - 1, broken);
      assert pid !in Unreachable(prev, Some(pid), broken);
    }
  }

  /** `order` is an order in which a turn over `ps` may visit its recipients (none without a relay) */
  ghost predicate TurnOrder(ps: map<string, ConnId>, pid: string, item: Incoming, broken: set<ConnId>, order: seq<string>) {
    if RelayStep(pid, item).Relay? then Lists.Distinct(order) && forall p :: p in order <==> p in Targets(ps, Some(pid))
    else order == []
  }

  /** The sends of one turn: a relayed message goes to every recipient of `order` */
  ghost function TurnLog(ps: map<string, ConnId>, pid: string, item: Incoming, broken: set<ConnId>, order: seq<string>): seq<Event>
    requires TurnOrder(ps, pid, item, broken, order)
  {
    var step := RelayStep(pid, item);
    if step.Relay? then Attempts(ps, order, Relayed(step.message), broken) else []
  }

  /** One visiting order for each of the first `|orders|` turns, valid for the participants present then */
  ghost predicate RunOrders(ps: map<string, ConnId>, pid: string, items: seq<Incoming>, broken: set<ConnId>,
                            orders: seq<seq<string>>)
    decreases |orders|
  {
    && |orders| <= |items|
    && (orders != [] ==>
         var n := |orders| - 1;
         && RunOrders(ps, pid, items, broken, orders[..n])
         && TurnOrder(Survivors(ps, pid, items, n, broken), pid, items[n], broken, orders[n]))
  }

  /** The sends of the first `|orders|` turns, in turn order */
  ghost function RunLog(ps: map<string, ConnId>, pid: string, items: seq<Incoming>, broken: set<ConnId>,
                        orders: seq<seq<string>>): seq<Event>
    requires RunOrders(ps, pid, items, broken, orders)
    decreases |orders|
  {
    if orders == [] then []
    else
      var n := |orders| - 1;
      RunLog(ps, pid, items, broken, orders[..n]) + TurnLog(Survivors(ps, pid, items, n, broken), pid, items[n], broken, orders[n])
  }

  /** One more turn: its order extends the run, and its sends come after the run's */
  lemma RunLogSnoc(ps: map<string, ConnId>, pid: string, items: seq<Incoming>, broken: set<ConnId>,
                   orders: seq<seq<string>>, order: seq<string>)
    requires |orders| < |items| && RunOrders(ps, pid, items, broken, orders)
    requires TurnOrder(Survivors(ps, pid, items, |orders|, broken), pid, items[|orders|], broken, order)
    ensures RunOrders(ps, pid, items, broken, orders + [order])
    ensures RunLog(ps, pid, items, broken, orders + [order]) ==
      RunLog(ps, pid, items, broken, orders) + TurnLog(Survivors(ps, pid, items, |orders|, broken), pid, items[|orders|], broken, order)
  {
    var ext, n := orders + [order], |orders|;
    assert |ext| - 1 == n && ext[..n] == orders && ext[n] == order;
    assert RunOrders(ps, pid, items, broken, ext);
    var turn := TurnLog(Survivors(ps, pid, items, n, broken), pid, items[n], broken, order);
    assert RunLog(ps, pid, items, broken, ext) == RunLog(ps, pid, items, broken, ext[..n]) + turn;
  }

  /**
   * After the turns `orders` stands for, starting from `ps` with log `base`: the log holds the
   * run's sends after `base`, and the participants are the run's survivors.
   */
  ghost predicate Ran(ps: map<string, ConnId>, pid: string, items: seq<Incoming>, broken: set<ConnId>,
                      orders: seq<seq<string>>, base: seq<Event>, log: seq<Event>, now: map<string, ConnId>) {
    && RunOrders(ps, pid, items, broken, orders)
    && log == base + RunLog(ps, pid, items, broken, orders)
    && now == Survivors(ps, pid, items, |orders|, broken)
  }

  /** The receive loop's step: one more order, its sends at the end of the log, and its pruning */
  lemma RunSnoc(ps: map<string, ConnId>, pid: string, items: seq<Incoming>, broken: set<ConnId>,
                orders: seq<seq<string>>, order: seq<string>, base: seq<Event>, before: seq<Event>, after: seq<Event>,
                was: map<string, ConnId>, now: map<string, ConnId>)
    requires |orders| < |items| && Ran(ps, pid, items, broken, orders, base, before, was)
    requires TurnOrder(was, pid, items[|orders|], broken, order)
    requires after == before + TurnLog(was, pid, items[|orders|], broken, order)
    requires now == AfterTurn(was, pid, items[|orders|], broken)
    ensures Ran(ps, pid, items, broken, orders + [order], base, after, now)
  {
    var ext, n := orders + [order], |orders|;
    RunLogSnoc(ps, pid, items, broken, orders, order);
    assert was == Survivors(ps, pid, items, n, broken);
    var turn := TurnLog(was, pid, items[n], broken, order);
    assert after == base + (RunLog(ps, pid, items, broken, orders) + turn);
    assert |ext| == n + 1 && now == Survivors(ps, pid, items, n + 1, broken);
  }

  /** Every send of one turn relays a message stamped with `pid`, and never to `pid` */
  lemma TurnLogRelayedFrom(ps: map<string, ConnId>, pid: string, item: Incoming, broken: set<ConnId>, order: seq<string>)
    requires TurnOrder(ps, pid, item, broken, order)
    ensures forall e :: e in TurnLog(ps, pid, item, broken, order) ==> RelayedFrom(e, pid)
  {
    var step := RelayStep(pid, item);
    if step.Relay? {
      var turn := Attempts(ps, order, Relayed(step.message), broken);
      forall j | 0 <= j < |turn| ensures RelayedFrom(turn[j], pid) {
        assert order[j] in Targets(ps, Some(pid));
      }
    }
  }

  /** The last turn of a run: the earlier turns are a run of their own, and its sends come last */
  lemma RunLogLast(ps: map<string, ConnId>, pid: string, items: seq<Incoming>, broken: set<ConnId>, orders: seq<seq<string>>)
    requires orders != [] && RunOrders(ps, pid, items, broken, orders)
    ensures var n := |orders| - 1;
      && RunOrders(ps, pid, items, broken, orders[..n])
      && TurnOrder(Survivors(ps, pid, items, n, broken), pid, items[n], broken, orders[n])
      && RunLog(ps, pid, items, broken, orders) ==
         RunLog(ps, pid, items, broken, orders[..n]) + TurnLog(Survivors(ps, pid, items, n, broken), pid, items[n], broken, orders[n])
  {
  }

  /** Every send of the receive loop relays a message stamped with `pid`, and never to `pid` */
  lemma {:induction false} RunLogRelayedFrom(ps: map<string, ConnId>, pid: string, items: seq<Incoming>, broken: set<ConnId>,
                                             orders: seq<seq<string>>)
    requires RunOrders(ps, pid, items, broken, orders)
    ensures forall e :: e in RunLog(ps, pid, items, broken, orders) ==> RelayedFrom(e, pid)
    decreases |orders|
  {
    if orders != [] {
      var n := |orders| - 1;
      RunLogLast(ps, pid, items, broken, orders);
      RunLogRelayedFrom(ps, pid, items, broken, orders[..n]);
      var S := Survivors(ps, pid, items, n, broken);
      TurnLogRelayedFrom(S, pid, items[n], broken, orders[n]);
      var earlier, turn := RunLog(ps, pid, items, broken, orders[..n]), TurnLog(S, pid, items[n], broken, orders[n]);
      forall e | e in earlier + turn ensures RelayedFrom(e, pid) {
        assert e in earlier || e in turn;
      }
    }
  }

  /**
   * The order-dependent choices of one served connection: who the join notice visits, the
   * index of the item that ended the loop, each turn's order, and who the leave notice visits.
   */
  datatype ServeTrace = ServeTrace(joinOrder: seq<string>, stop: nat, turnOrders: seq<seq<string>>, leaveOrder: seq<string>)

  /** The participants once `pid` joined on `conn` and the join notice pruned the unreachable */
  ghost function AfterJoin(ps0: map<string, ConnId>, conn: ConnId, pid: string, broken: set<ConnId>): map<string, ConnId> {
    var joined := ps0[pid := conn];
    joined - Unreachable(joined, Some(pid), broken)
  }

  /** The join phase: `pid` is the id for the room's new size, the notice visits everyone else once */
  ghost predicate JoinPhase(ps0: map<string, ConnId>, conn: ConnId, pid: string, stamp: string, joinOrder: seq<string>) {
    && pid == ParticipantId(|ps0| + 1, stamp)
    && Lists.Distinct(joinOrder) && forall p :: p in joinOrder <==> p in Targets(ps0[pid := conn], Some(pid))
  }

  /** The loop phase: it ran the turns before `stop`, none of which stopped it, and `pid` stayed */
  ghost predicate LoopPhase(ps: map<string, ConnId>, pid: string, items: seq<Incoming>, broken: set<ConnId>,
                            stop: nat, turnOrders: seq<seq<string>>) {
    && stop <= |items|
    && (stop < |items| ==> RelayStep(pid, items[stop]).Stop?)
    && (forall j :: 0 <= j < stop ==> !RelayStep(pid, items[j]).Stop?)
    && |turnOrders| == stop && RunOrders(ps, pid, items, broken, turnOrders)
    && pid in Survivors(ps, pid, items, stop, broken)
  }

  /** The leave phase: the notice visits each remaining participant once */
  ghost predicate LeavePhase(rest: map<string, ConnId>, leaveOrder: seq<string>) {
    Lists.Distinct(leaveOrder) && forall p :: p in leaveOrder <==> p in rest
  }

  /**
   * What serving an admitted socket does, from a room whose participants were `ps0`: `events`
   * are the socket events in order (accept, the join notice, the relays of every turn before
   * the one that stopped the loop, the leave notice) and `ps` the participants at the end.
   */
  ghost predicate Served(ps0: map<string, ConnId>, conn: ConnId, pid: string, stamp: string, items: seq<Incoming>,
                         broken: set<ConnId>, t: ServeTrace, events: seq<Event>, ps: map<string, ConnId>) {
    var joined := ps0[pid := conn];
    var afterJoin := AfterJoin(ps0, conn, pid, broken);
    && JoinPhase(ps0, conn, pid, stamp, t.joinOrder)
    && LoopPhase(afterJoin, pid, items, broken, t.stop, t.turnOrders)
    && var rest := Survivors(afterJoin, pid, items, t.stop, broken) - {pid};
       && LeavePhase(rest, t.leaveOrder)
       && events == [Accepted(conn)] + Attempts(joined, t.joinOrder, ParticipantJoined(pid, |joined|), broken)
                    + RunLog(afterJoin, pid, items, broken, t.turnOrders)
                    + Attempts(rest, t.leaveOrder, ParticipantLeft(pid, |rest|), broken)
       && ps == rest - Unreachable(rest, None, broken)
  }

  /** `Served` from the effects of its three phases: admission, the receive loop, and the cleanup */
  lemma ServedByPhases(ps0: map<string, ConnId>, conn: ConnId, pid: string, stamp: string, items: seq<Incoming>,
                       broken: set<ConnId>, t: ServeTrace, base: seq<Event>, joinLog: seq<Event>, relayLog: seq<Event>,
                       log: seq<Event>, relayed: map<string, ConnId>, ps: map<string, ConnId>)
    requires JoinPhase(ps0, conn, pid, stamp, t.joinOrder)
    requires LoopPhase(AfterJoin(ps0, conn, pid, broken), pid, items, broken, t.stop, t.turnOrders)
    requires relayed == Survivors(AfterJoin(ps0, conn, pid, broken), pid, items, t.stop, broken)
    requires LeavePhase(relayed - {pid}, t.leaveOrder)
    requires var joined := ps0[pid := conn];
      joinLog == base + ([Accepted(conn)] + Attempts(joined, t.joinOrder, ParticipantJoined(pid, |joined|), broken))
    requires relayLog == joinLog + RunLog(AfterJoin(ps0, conn, pid, broken), pid, items, broken, t.turnOrders)
    requires var rest := relayed - {pid};
      && log == relayLog + Attempts(rest, t.leaveOrder, ParticipantLeft(pid, |rest|), broken)
      && ps == rest - Unreachable(rest, None, broken)
    ensures base <= log && Served(ps0, conn, pid, stamp, items, broken, t, log[|base|..], ps)
  {
    var joined := ps0[pid := conn];
    var rest := relayed - {pid};
    LogInPhases(base, [Accepted(conn)] + Attempts(joined, t.joinOrder, ParticipantJoined(pid, |joined|), broken),
                RunLog(AfterJoin(ps0, conn, pid, broken), pid, items, broken, t.turnOrders),
                Attempts(rest, t.leaveOrder, ParticipantLeft(pid, |rest|), broken), joinLog, relayLog, log);
  }

  /** A log grown by three phases in turn holds, after `base`, the three phases' events */
  lemma LogInPhases(base: seq<Event>, first: seq<Event>, second: seq<Event>, third: seq<Event>,
                    log1: seq<Event>, log2: seq<Event>, log3: seq<Event>)
    requires log1 == base + first && log2 == log1 + second && log3 == log2 + third
    ensures base <= log3 && log3[|base|..] == first + second + third
  {
    assert log3 == base + (first + second + third);
  }

  /** The server: the room registry and what it has done to its sockets */
  class Server {
    const service: VideoService
    var log: seq<Event>

    constructor (service: VideoService)
      ensures this.service == service && log == []
    {
      this.service := service;
      log := [];
    }

    /**
     * `POST /api/rooms/create`. `raised` stands for an exception escaping `create_room` before it
     * registers anything; the handler turns any exception into a 500.
     */
    method CreateRoomEndpoint(idDraws: seq<IdPicks>, keyDraw: KeyPicks, raised: Option<Raised>)
      returns (r: Result<RoomCreated, HttpError>)
      requires service.Valid()
      requires SomeFresh(idDraws, service.activeRooms.Keys)
      modifies service`activeRooms
      ensures service.Valid()
      ensures raised.Some? ==>
        r == Failure(HttpError(500, "Failed to create room")) && service.activeRooms == old(service.activeRooms)
      ensures raised.None? ==>
        && r.Success? && r.value.roomId !in old(service.activeRooms)
        && service.activeRooms.Keys == old(service.activeRooms).Keys + {r.value.roomId}
        && service.activeRooms[r.value.roomId].roomKey == r.value.roomKey
    {
      if raised.Some? {
        return Failure(CatchAll(raised.value, "Failed to create room"));
      }
      var roomId, roomKey := service.CreateRoom(idDraws, keyDraw);
      r := Success(RoomCreated(roomId, roomKey));
    }

    /** `GET /api/rooms/verify/{room_id}`: the 404 and 401 of `verify_room` reach the client */
    method VerifyRoomEndpoint(roomId: string, roomKey: string) returns (r: Result<(), HttpError>)
      ensures roomId !in service.activeRooms ==> r == Failure(HttpError(404, "Room not found"))
      ensures roomId in service.activeRooms && service.activeRooms[roomId].roomKey != roomKey ==>
        r == Failure(HttpError(401, "Invalid room key"))
      ensures r.Success? <==> roomId in service.activeRooms && service.activeRooms[roomId].roomKey == roomKey
    {
      var out := service.VerifyRoom(roomId, roomKey);
      if out.Failure? {
        r := Failure(PassHttp(Http(out.error), "Failed to verify room"));
      } else {
        r := Success(());
      }
    }

    /** `GET /api/health` */
    method HealthCheck(timestamp: string) returns (h: HealthReport)
      ensures h.status == "healthy" && h.timestamp == timestamp
      ensures h.activeRooms == |service.activeRooms|
    {
      var n := service.GetRoomCount();
      h := HealthReport("healthy", timestamp, n);
    }

    /** The first loop of `broadcast_to_room`: try every addressed socket, collect the failures */
    method SendAll(ps: map<string, ConnId>, msg: Outgoing, exclude: Option<string>, broken: set<ConnId>)
      returns (disconnected: seq<string>, ghost order: seq<string>)
      modifies this`log
      ensures Lists.Distinct(order) && forall p :: p in order <==> p in Targets(ps, exclude)
      ensures log == old(log) + Attempts(ps, order, msg, broken)
      ensures forall p :: p in disconnected <==> p in Unreachable(ps, exclude, broken)
    {
      var pending := ps.Keys;
      disconnected, order := [], [];
      while pending != {}
        invariant pending <= ps.Keys
        invariant forall p :: p in order <==> p in ps && p !in pending && Some(p) != exclude
        invariant Lists.Distinct(order)
        invariant log == old(log) + Attempts(ps, order, msg, broken)
        invariant forall p :: p in disconnected <==> p in order && ps[p] in broken
        decreases pending
      {
        var p :| p in pending;
        if Some(p) != exclude {
          var ok := ps[p] !in broken;
          AttemptsSnoc(ps, order, p, msg, broken);
          Lists.DistinctSnoc(order, p);
          ghost var sent := Attempt(ps, p, msg, broken);
          assert old(log) + Attempts(ps, order + [p], msg, broken) == log + [sent];
          log, order := log + [SendAttempt(p, ps[p], msg, ok)], order + [p];
          if !ok {
            disconnected := disconnected + [p];
          }
        }
        pending := pending - {p};
      }
    }

    /** The second loop of `broadcast_to_room`: drop every collected participant still present */
    method Prune(room: Room, disconnected: seq<string>)
      modifies room`participants
      ensures forall p :: p in room.participants <==> p in old(room.participants) && p !in disconnected
      ensures forall p :: p in room.participants ==> room.participants[p] == old(room.participants)[p]
    {
      var i := 0;
      while i < |disconnected|
        invariant 0 <= i <= |disconnected|
        invariant forall p :: p in room.participants <==> p in old(room.participants) && p !in disconnected[..i]
        invariant forall p :: p in room.participants ==> room.participants[p] == old(room.participants)[p]
      {
        assert disconnected[..i + 1] == disconnected[..i] + [disconnected[i]];
        if disconnected[i] in room.participants {
          room.participants := room.participants - {disconnected[i]};
        }
        i := i + 1;
      }
      assert disconnected[..i] == disconnected;
    }

    /**
     * `broadcast_to_room(room, message, exclude_participant)`: one attempt per participant other
     * than the excluded one, then exactly those whose send failed are removed.
     */
    method Broadcast(room: Room, msg: Outgoing, exclude: Option<string>, broken: set<ConnId>)
      returns (ghost order: seq<string>)
      modifies this`log, room`participants
      ensures Lists.Distinct(order) && forall p :: p in order <==> p in Targets(old(room.participants), exclude)
      ensures log == old(log) + Attempts(old(room.participants), order, msg, broken)
      ensures room.participants == old(room.participants) - Unreachable(old(room.participants), exclude, broken)
      ensures old(room.participants) == map[] ==> log == old(log) && room.participants == map[]
    {
      if room.participants == map[] {
        order := [];
        return;
      }
      var ps := room.participants;
      var disconnected;
      disconnected, order := SendAll(ps, msg, exclude, broken);
      Prune(room, disconnected);
      assert room.participants == ps - Unreachable(ps, exclude, broken);
    }

    /** `websocket.accept()` then registration under a fresh `user_N_stamp` id */
    method Register(room: Room, conn: ConnId, stamp: string) returns (pid: string)
      modifies this`log, room`participants
      ensures pid == ParticipantId(|old(room.participants)| + 1, stamp)
      ensures room.participants == old(room.participants)[pid := conn]
      ensures log == old(log) + [Accepted(conn)]
    {
      log := log + [Accepted(conn)];
      pid := ParticipantId(|room.participants| + 1, stamp);
      room.participants := room.participants[pid := conn];
    }

    /**
     * Registration followed by the `participant_joined` notice: every participant but the
     * joiner is told the room's size after registration, and those unreachable are dropped.
     */
    method Admit(room: Room, conn: ConnId, stamp: string, broken: set<ConnId>) returns (pid: string, ghost order: seq<string>)
      modifies this`log, room`participants
      ensures pid == ParticipantId(|old(room.participants)| + 1, stamp)
      ensures var joined := old(room.participants)[pid := conn];
        && Lists.Distinct(order) && (forall p :: p in order <==> p in Targets(joined, Some(pid)))
        && log == old(log) + [Accepted(conn)] + Attempts(joined, order, ParticipantJoined(pid, |joined|), broken)
        && room.participants == joined - Unreachable(joined, Some(pid), broken)
      ensures pid in room.participants && room.participants[pid] == conn
    {
      pid := Register(room, conn, stamp);
      ghost var joined := room.participants;
      order := Broadcast(room, ParticipantJoined(pid, |room.participants|), Some(pid), broken);
      assert pid !in Unreachable(joined, Some(pid), broken);
    }

    /**
     * The `while True` receive loop of participant `pid`. `items` is what the socket yields,
     * the end of it a disconnect; `stop` is the index of the item that ended the loop.
     */
    method ReceiveLoop(room: Room, pid: string, items: seq<Incoming>, broken: set<ConnId>)
      returns (stop: nat, ghost orders: seq<seq<string>>)
      modifies this`log, room`participants
      ensures stop <= |items|
      ensures stop < |items| ==> RelayStep(pid, items[stop]).Stop?
      ensures forall j :: 0 <= j < stop ==> !RelayStep(pid, items[j]).Stop?
      ensures |orders| == stop && Ran(old(room.participants), pid, items, broken, orders, old(log), log, room.participants)
    {
      ghost var ps0 := room.participants;
      var i, done := 0, false;
      orders := [];
      while !done && i < |items|
        invariant 0 <= i <= |items|
        invariant done ==> i < |items| && RelayStep(pid, items[i]).Stop?
        invariant forall j :: 0 <= j < i ==> !RelayStep(pid, items[j]).Stop?
        invariant |orders| == i && Ran(ps0, pid, items, broken, orders, old(log), log, room.participants)
        decreases |items| - i, !done
      {
        ghost var order;
        ghost var before, was := log, room.participants;
        done, order := Turn(room, pid, items[i], broken);
        if !done {
          RunSnoc(ps0, pid, items, broken, orders, order, old(log), before, log, was, room.participants);
          orders := orders + [order];
          i := i + 1;
        }
      }
      stop := i;
    }

    /** One turn of the receive loop: `done` when the loop stops, else the item is handled */
    method Turn(room: Room, pid: string, item: Incoming, broken: set<ConnId>) returns (done: bool, ghost order: seq<string>)
      modifies this`log, room`participants
      ensures done <==> RelayStep(pid, item).Stop?
      ensures !done ==>
        && TurnOrder(old(room.participants), pid, item, broken, order)
        && log == old(log) + TurnLog(old(room.participants), pid, item, broken, order)
        && room.participants == AfterTurn(old(room.participants), pid, item, broken)
      ensures done ==> log == old(log) && room.participants == old(room.participants)
    {
      var step := RelayStep(pid, item);
      done, order := step.Stop?, [];
      if step.Relay? {
        order := RelayTurn(room, pid, step.message, broken);
      }
    }

    /** The relay of one message: a broadcast to everyone but its sender */
    method RelayTurn(room: Room, pid: string, message: Object, broken: set<ConnId>) returns (ghost order: seq<string>)
      requires Get(message, "sender_id") == Some(Text(pid))
      modifies this`log, room`participants
      ensures Lists.Distinct(order) && forall p :: p in order <==> p in Targets(old(room.participants), Some(pid))
      ensures log == old(log) + Attempts(old(room.participants), order, Relayed(message), broken)
      ensures forall j :: |old(log)| <= j < |log| ==> RelayedFrom(log[j], pid)
      ensures room.participants == old(room.participants) - Unreachable(old(room.participants), Some(pid), broken)
    {
      ghost var ps := room.participants;
      order := Broadcast(room, Relayed(message), Some(pid), broken);
      forall i | 0 <= i < |order| ensures order[i] != pid {
        assert order[i] in Targets(ps, Some(pid));
      }
    }

    /**
     * The `finally` cleanup for a registered participant: remove it, tell the others how many
     * remain, and remove the room from the registry once nobody is left.
     */
    method Cleanup(room: Room, roomId: string, pid: string, broken: set<ConnId>) returns (ghost order: seq<string>)
      requires service.Valid()
      modifies this`log, room`participants, service`activeRooms
      ensures service.Valid()
      ensures pid !in old(room.participants) ==>
        room.participants == old(room.participants) && log == old(log) && service.activeRooms == old(service.activeRooms)
      ensures pid in old(room.participants) ==>
        var rest := old(room.participants) - {pid};
        && room.participants == rest - Unreachable(rest, None, broken)
        && Lists.Distinct(order) && (forall p :: p in order <==> p in rest)
        && log == old(log) + Attempts(rest, order, ParticipantLeft(pid, |rest|), broken)
        && service.activeRooms == if room.participants == map[] then old(service.activeRooms) - {roomId} else old(service.activeRooms)
    {
      order := [];
      if pid in room.participants {
        room.participants := room.participants - {pid};
        order := Broadcast(room, ParticipantLeft(pid, |room.participants|), None, broken);
        if |room.participants| == 0 {
          service.RemoveRoom(roomId);
        }
      }
    }
    /**
     * `websocket_endpoint(websocket, room_id)` for the socket `conn`, whose query `key` may be
     * absent: the admission checks, `accept`, registration and the `participant_joined` notice,
     * the receive loop, and the cleanup. Returns the id the participant was registered under.
     */
    method Endpoint(conn: ConnId, roomId: string, key: Option<string>, accept: AcceptOutcome, stamp: string,
                    items: seq<Incoming>, broken: set<ConnId>) returns (pid: Option<string>, ghost trace: ServeTrace)
      requires service.Valid()
      modifies this`log, service`activeRooms, service.activeRooms.Values`participants
      ensures service.Valid()
      ensures var adm := Admission(old(service.activeRooms), roomId, key);
        adm.Failure? ==>
          && pid.None? && log == old(log) + [Closed(conn, POLICY_VIOLATION, adm.error)]
          && service.activeRooms == old(service.activeRooms) && unchanged(old(service.activeRooms).Values)
      ensures var adm := Admission(old(service.activeRooms), roomId, key);
        adm.Success? && !accept.AcceptOk? ==>
          && pid.None? && log == old(log) + (if accept.AcceptError? then [Closed(conn, INTERNAL_ERROR, "")] else [])
          && service.activeRooms == old(service.activeRooms) && unchanged(old(service.activeRooms).Values)
      ensures var adm := Admission(old(service.activeRooms), roomId, key);
        adm.Success? && accept.AcceptOk? ==>
          var room := adm.value;
          && pid.Some? && old(log) <= log
          && Served(old(room.participants), conn, pid.value, stamp, items, broken, trace, log[|old(log)|..], room.participants)
          && service.activeRooms == if room.participants == map[] then old(service.activeRooms) - {roomId} else old(service.activeRooms)
    {
      trace := ServeTrace([], 0, [], []);
      var admitted := Admission(service.activeRooms, roomId, key);
      if admitted.Failure? {
        log := log + [Closed(conn, POLICY_VIOLATION, admitted.error)];
        return None, trace;
      }
      var room := admitted.value;
      if accept.AcceptError? {
        log := log + [Closed(conn, INTERNAL_ERROR, "")];
        return None, trace;
      } else if accept.AcceptDisconnect? {
        return None, trace;
      }
      var id;
      id, trace := Serve(room, roomId, conn, stamp, items, broken);
      pid := Some(id);
    }

    /**
     * The part of `websocket_endpoint` after admission, from `accept` to the cleanup: accept and
     * register, notify the others, relay until the loop stops, then clean up.
     */
    method Serve(room: Room, roomId: string, conn: ConnId, stamp: string, items: seq<Incoming>, broken: set<ConnId>)
      returns (pid: string, ghost trace: ServeTrace)
      requires service.Valid() && roomId in service.activeRooms && service.activeRooms[roomId] == room
      modifies this`log, room`participants, service`activeRooms
      ensures service.Valid()
      ensures old(log) <= log
      ensures Served(old(room.participants), conn, pid, stamp, items, broken, trace, log[|old(log)|..], room.participants)
      ensures service.activeRooms == if room.participants == map[] then old(service.activeRooms) - {roomId} else old(service.activeRooms)
    {
      ghost var ps0 := room.participants;
      ghost var joinOrder;
      pid, joinOrder := Admit(room, conn, stamp, broken);
      ghost var afterJoin := room.participants;
      ghost var joinLog := log;
      ghost var joined := ps0[pid := conn];
      assert joinLog == old(log) + ([Accepted(conn)] + Attempts(joined, joinOrder, ParticipantJoined(pid, |joined|), broken));
      var stop;
      ghost var orders;
      stop, orders := ReceiveLoop(room, pid, items, broken);
      ghost var relayed := room.participants;
      ghost var relayLog := log;
      SurvivorsShrink(afterJoin, pid, items, stop, broken);
      ghost var leaveOrder := Cleanup(room, roomId, pid, broken);
      trace := ServeTrace(joinOrder, stop, orders, leaveOrder);
      assert JoinPhase(ps0, conn, pid, stamp, joinOrder);
      assert afterJoin == AfterJoin(ps0, conn, pid, broken);
      assert LoopPhase(afterJoin, pid, items, broken, stop, orders);
      assert LeavePhase(relayed - {pid}, leaveOrder);
      ServedByPhases(ps0, conn, pid, stamp, items, broken, trace, old(log), joinLog, relayLog, log, relayed, room.participants);
    }
  }

  /** A send of a relayed message stamped with `pid`, to someone other than `pid` */
  predicate RelayedFrom(e: Event, pid: string) {
    && e.SendAttempt? && e.to != pid && e.msg.Relayed?
    && Get(e.msg.message, "sender_id") == Some(Text(pid))
  }
}
