/** `RabbitMQClient`: one broker connection and channel, reused while open; queue
    declaration; publishing with serialisation and a routing-key fallback; and
    consumers, each a background worker that decodes every delivery, hands it to a
    callback, counts the callbacks that returned, stops at `max_messages` and acks
    when `auto_ack` is off. The broker's answer to a connection attempt, the
    deliveries a worker sees and the callback's outcome on each are inputs; the
    calls made on the channel and connection are recorded in order. */
module MqUtils {
  import opened Common
  import opened Json
  import Utf8

  type Config = map<string, Value>

  // ---------------------------------------------------------------------------
  // Connecting

  datatype ConnParams = ConnParams(user: Value, password: Option<string>, host: Value, port: Value,
                                   virtualHost: Value, heartbeat: int)

  /** The connection parameters `connect` builds, in the order it reads them:
      `user`, `password_key` (looked up in the environment, so it must be a string),
      `host`, `port`; `virtual_host` defaults to "/" and the heartbeat is 600. */
  function ConnParamsFrom(config: Config, env: Env): (r: Result<ConnParams>)
    ensures r.Ok? <==> && "user" in config && "password_key" in config && config["password_key"].Str?
                       && "host" in config && "port" in config
    ensures r.Ok? ==> && r.value.user == config["user"] && r.value.host == config["host"] && r.value.port == config["port"]
                      && r.value.password == GetEnv(env, config["password_key"].s)
                      && r.value.virtualHost == (if "virtual_host" in config then config["virtual_host"] else Str("/"))
                      && r.value.heartbeat == 600
    ensures "user" !in config ==> r == Err(KeyError("user"))
    ensures r.Err? ==> r.error.KeyError? || r.error == TypeError
  {
    if "user" !in config then Err(KeyError("user"))
    else if "password_key" !in config then Err(KeyError("password_key"))
    else if !config["password_key"].Str? then Err(TypeError)
    else if "host" !in config then Err(KeyError("host"))
    else if "port" !in config then Err(KeyError("port"))
    else Ok(ConnParams(config["user"], GetEnv(env, config["password_key"].s), config["host"], config["port"],
                       GetOr(config, "virtual_host", Str("/")), 600))
  }

  datatype Connection = Connection(params: ConnParams, isOpen: bool)

  datatype Channel = Channel(id: nat)

  /** How the broker answers a connection attempt: it refuses the connection, it
      opens the connection but refuses the channel, or it opens both. */
  datatype Attempt = Refused | NoChannel | Opened(channelId: nat)

  // ---------------------------------------------------------------------------
  // Publishing

  /** The message properties pika is given. */
  datatype Properties = Properties(deliveryMode: int, contentType: string)

  /** The calls made on the channel and the connection, in order. */
  datatype BrokerOp =
    | QueueDeclare(queue: string, durable: bool, exclusive: bool, autoDelete: bool)
    | Publish(exchange: string, routingKey: Value, body: string, properties: Properties)
    | StopConsuming
    | Join(worker: nat)
    | CloseConnection

  /** `routing_key or queue_name`. */
  function RoutingKey(routingKey: Value, queue: string): (r: Value)
    ensures Truthy(routingKey) ==> r == routingKey
    ensures !Truthy(routingKey) ==> r == Str(queue)
  {
    if Truthy(routingKey) then routingKey else Str(queue)
  }

  /** A dict is sent as its JSON text, a string as itself, anything else as `str()`. */
  function Serialize(message: Value, codec: Codec): (r: string)
    ensures message.Dict? ==> r == codec.dumps(message)
    ensures !message.Dict? ==> r == Text(codec, message)
  {
    if message.Dict? then codec.dumps(message) else Text(codec, message)
  }

  /** The content type the source picks, looking at the message after it has
      been serialised. */
  function ContentType(message: Value): (r: string)
    ensures r == "application/json" <==> message.Dict?
    ensures r != "application/json" ==> r == "text/plain"
  {
    if message.Dict? then "application/json" else "text/plain"
  }

  // ---------------------------------------------------------------------------
  // Consuming

  /** What the user callback did with a payload. */
  datatype CallbackOutcome = Returns | Raises

  /** One message the broker delivers to a worker, with what the callback will do. */
  datatype Delivery = Delivery(tag: nat, body: seq<byte>, outcome: CallbackOutcome)

  /** What a worker does on its channel: call back, stop consuming, ack. */
  datatype WorkerOp = Called(payload: Value) | StoppedConsuming | Acked(tag: nat)

  /** A consumer thread: its parameters, the closure's `messages_received`
      counter, whether it has stopped consuming, and what it did in order. */
  datatype Worker = Worker(queue: string, autoAck: bool, maxMessages: Value,
                           received: nat, stopped: bool, effects: seq<WorkerOp>)

  function NewWorker(queue: string, autoAck: bool, maxMessages: Value): Worker
  {
    Worker(queue, autoAck, maxMessages, 0, false, [])
  }

  /** A worker thread runs until its consuming loop has stopped. */
  predicate Alive(w: Worker)
  {
    !w.stopped
  }

  /** The payload handed to the callback: the JSON value of the body when it
      parses, else the body as UTF-8 text; None when the body is not UTF-8 (the
      fallback decode raises and the callback is not called). */
  function Payload(body: seq<byte>, codec: Codec): (r: Option<Value>)
    ensures r.Some? <==> Utf8.Decode(body).Some?
    ensures r.Some? && codec.loads(Utf8.Decode(body).value).None? ==> r.value == Str(Utf8.Decode(body).value)
    ensures r.Some? && codec.loads(Utf8.Decode(body).value).Some? ==> r.value == codec.loads(Utf8.Decode(body).value).value
  {
    match Utf8.Decode(body)
    case None => None
    case Some(text) =>
      match codec.loads(text)
      case Some(v) => Some(v)
      case None => Some(Str(text))
  }

  /** A delivery whose callback returned normally. */
  predicate Succeeds(d: Delivery, codec: Codec)
  {
    Payload(d.body, codec).Some? && d.outcome.Returns?
  }

  /** `on_message`: decode, call back; only a normal return advances the counter,
      and only then is the limit checked (a limit that does not compare with an int
      raises there, which is logged and swallowed). The ack follows whatever
      happened before it when `auto_ack` is off. */
  function OnMessage(w: Worker, d: Delivery, codec: Codec): (r: Worker)
    ensures r.queue == w.queue && r.autoAck == w.autoAck && r.maxMessages == w.maxMessages
    ensures r.received == w.received + (if Succeeds(d, codec) then 1 else 0)
    ensures r.stopped <==> w.stopped || (Succeeds(d, codec) && Truthy(w.maxMessages) && AtLeast(r.received, w.maxMessages) == Ok(true))
  {
    var payload := Payload(d.body, codec);
    var ok := payload.Some? && d.outcome.Returns?;
    var received := if ok then w.received + 1 else w.received;
    var stop := ok && Truthy(w.maxMessages) && AtLeast(received, w.maxMessages) == Ok(true);
    w.(received := received, stopped := w.stopped || stop,
       effects := w.effects + HandlerEffects(payload, stop, w.autoAck, d.tag))
  }

  /** `on_message` on the closure's state: decode, call back, count a normal return
      and request the stop at the limit, then ack when `auto_ack` is off. */
  method HandleMessage(w: Worker, d: Delivery, codec: Codec) returns (r: Worker)
    ensures r == OnMessage(w, d, codec)
  {
    var received, stopped, effects := w.received, w.stopped, w.effects;
    var data := Payload(d.body, codec);
    if data.Some? {
      effects := effects + [Called(data.value)];
      if d.outcome.Returns? {
        received := received + 1;
        if Truthy(w.maxMessages) && AtLeast(received, w.maxMessages) == Ok(true) {
          effects := effects + [StoppedConsuming];
          stopped := true;
        }
      }
    }
    if !w.autoAck {
      effects := effects + [Acked(d.tag)];
    }
    r := w.(received := received, stopped := stopped, effects := effects);
  }

  /** What one `on_message` does on the channel, in order: the callback (when the
      body decodes), the stop request, the ack (when `auto_ack` is off). */
  function HandlerEffects(payload: Option<Value>, stop: bool, autoAck: bool, tag: nat): seq<WorkerOp>
  {
    (if payload.Some? then [Called(payload.value)] else [])
    + (if stop then [StoppedConsuming] else [])
    + (if autoAck then [] else [Acked(tag)])
  }

  /** The worker's loop: deliveries are handled in order until it stops. */
  function Consume(w: Worker, ds: seq<Delivery>, codec: Codec): (r: Worker)
    ensures r.queue == w.queue && r.autoAck == w.autoAck && r.maxMessages == w.maxMessages
    decreases |ds|
  {
    if ds == [] || w.stopped then w else Consume(OnMessage(w, ds[0], codec), ds[1..], codec)
  }

  /** How many deliveries the loop handles before it stops. */
  function Processed(w: Worker, ds: seq<Delivery>, codec: Codec): (n: nat)
    ensures n <= |ds|
    decreases |ds|
  {
    if ds == [] || w.stopped then 0 else 1 + Processed(OnMessage(w, ds[0], codec), ds[1..], codec)
  }

  function Successes(ds: seq<Delivery>, codec: Codec): nat
  {
    if ds == [] then 0 else (if Succeeds(ds[0], codec) then 1 else 0) + Successes(ds[1..], codec)
  }

  function Tags(ds: seq<Delivery>): seq<nat>
  {
    if ds == [] then [] else [ds[0].tag] + Tags(ds[1..])
  }

  /** The tags acked, in order. */
  function AckedTags(e: seq<WorkerOp>): seq<nat>
  {
    if e == [] then [] else (if e[0].Acked? then [e[0].tag] else []) + AckedTags(e[1..])
  }

  /** The payloads the callback was called with, in order. */
  function Calls(e: seq<WorkerOp>): seq<Value>
  {
    if e == [] then [] else (if e[0].Called? then [e[0].payload] else []) + Calls(e[1..])
  }

  lemma {:induction false} AckedAppend(a: seq<WorkerOp>, b: seq<WorkerOp>)
    ensures AckedTags(a + b) == AckedTags(a) + AckedTags(b)
    ensures Calls(a + b) == Calls(a) + Calls(b)
  {
    if a == [] {
      assert a + b == b;
    } else {
      var ab := a + b;
      assert ab[0] == a[0] && ab[1..] == a[1..] + b;
      AckedAppend(a[1..], b);
      assert AckedTags(ab) == (if a[0].Acked? then [a[0].tag] else []) + AckedTags(a[1..] + b);
      assert Calls(ab) == (if a[0].Called? then [a[0].payload] else []) + Calls(a[1..] + b);
    }
  }

  /** One step acks its delivery exactly when `auto_ack` is off, and calls back
      exactly when the body decodes. */
  lemma OnMessageEffects(w: Worker, d: Delivery, codec: Codec)
    ensures AckedTags(OnMessage(w, d, codec).effects) == AckedTags(w.effects) + (if w.autoAck then [] else [d.tag])
    ensures Calls(OnMessage(w, d, codec).effects) == Calls(w.effects) + (if Payload(d.body, codec).Some? then [Payload(d.body, codec).value] else [])
  {
    var payload := Payload(d.body, codec);
    var stop := Succeeds(d, codec) && Truthy(w.maxMessages) && AtLeast(w.received + 1, w.maxMessages) == Ok(true);
    var h := HandlerEffects(payload, stop, w.autoAck, d.tag);
    assert OnMessage(w, d, codec).effects == w.effects + h;
    AckedAppend(w.effects, h);
    HandlerTags(payload, stop, w.autoAck, d.tag);
  }

  lemma HandlerTags(payload: Option<Value>, stop: bool, autoAck: bool, tag: nat)
    ensures AckedTags(HandlerEffects(payload, stop, autoAck, tag)) == (if autoAck then [] else [tag])
    ensures Calls(HandlerEffects(payload, stop, autoAck, tag)) == (if payload.Some? then [payload.value] else [])
  {
    var called: seq<WorkerOp> := if payload.Some? then [Called(payload.value)] else [];
    var stops: seq<WorkerOp> := if stop then [StoppedConsuming] else [];
    var acks: seq<WorkerOp> := if autoAck then [] else [Acked(tag)];
    AckedAppend(called, stops);
    AckedAppend(called + stops, acks);
    if payload.Some? { AckedSingle(Called(payload.value)); }
    if stop { AckedSingle(StoppedConsuming); }
    if !autoAck { AckedSingle(Acked(tag)); }
  }

  lemma AckedSingle(op: WorkerOp)
    ensures AckedTags([op]) == (if op.Acked? then [op.tag] else [])
    ensures Calls([op]) == (if op.Called? then [op.payload] else [])
  {
    assert [op][1..] == [];
  }

  /** Over a run: the counter grows by the number of handled deliveries whose
      callback returned; with `auto_ack` off every handled delivery is acked exactly
      once, in order, and with it on none is. */
  lemma {:induction false} ConsumeCounts(w: Worker, ds: seq<Delivery>, codec: Codec)
    ensures var n := Processed(w, ds, codec);
            var r := Consume(w, ds, codec);
            && r.received == w.received + Successes(ds[..n], codec)
            && AckedTags(r.effects) == AckedTags(w.effects) + (if w.autoAck then [] else Tags(ds[..n]))
    decreases |ds|
  {
    if ds == [] || w.stopped {
      assert ds[..0] == [];
    } else {
      var w1 := OnMessage(w, ds[0], codec);
      OnMessageEffects(w, ds[0], codec);
      ConsumeCounts(w1, ds[1..], codec);
      var n1 := Processed(w1, ds[1..], codec);
      assert ds[..1 + n1] == [ds[0]] + ds[1..][..n1];
      assert ([ds[0]] + ds[1..][..n1])[1..] == ds[1..][..n1];
    }
  }

  /** The counter never goes down. */
  lemma CounterMonotone(w: Worker, ds: seq<Delivery>, codec: Codec)
    ensures Consume(w, ds, codec).received >= w.received
  {
    ConsumeCounts(w, ds, codec);
  }

  /** A running worker that ends stopped has reached a truthy limit; one that ends
      running has handled every delivery. */
  lemma {:induction false} StopMeansLimitReached(w: Worker, ds: seq<Delivery>, codec: Codec)
    requires !w.stopped
    ensures var r := Consume(w, ds, codec);
            && (r.stopped ==> Truthy(w.maxMessages) && AtLeast(r.received, w.maxMessages) == Ok(true))
            && (!r.stopped ==> Processed(w, ds, codec) == |ds|)
    decreases |ds|
  {
    if ds != [] {
      var w1 := OnMessage(w, ds[0], codec);
      if !w1.stopped {
        StopMeansLimitReached(w1, ds[1..], codec);
      }
    }
  }

  /** With no limit (None, 0, an empty value) the worker never stops on its own. */
  lemma {:induction false} NoLimitNeverStops(w: Worker, ds: seq<Delivery>, codec: Codec)
    requires !w.stopped && !Truthy(w.maxMessages)
    ensures !Consume(w, ds, codec).stopped && Processed(w, ds, codec) == |ds|
    decreases |ds|
  {
    if ds != [] {
      NoLimitNeverStops(OnMessage(w, ds[0], codec), ds[1..], codec);
    }
  }

  /** `max_messages=3`, `auto_ack=False`, five decodable deliveries whose callbacks
      all return: three callbacks, three acks (the first three tags), and the
      worker stops with the last two untouched. */
  lemma LimitOfThree(queue: string, ds: seq<Delivery>, codec: Codec)
    requires |ds| == 5 && forall k :: 0 <= k < 5 ==> Succeeds(ds[k], codec)
    ensures var w := NewWorker(queue, false, Int(3));
            var r := Consume(w, ds, codec);
            && Processed(w, ds, codec) == 3 && r.received == 3 && r.stopped
            && AckedTags(r.effects) == Tags(ds[..3])
            && |Calls(r.effects)| == 3
  {
    var w0 := NewWorker(queue, false, Int(3));
    var w1 := OnMessage(w0, ds[0], codec);
    var w2 := OnMessage(w1, ds[1], codec);
    var w3 := OnMessage(w2, ds[2], codec);
    assert w1.received == 1 && w2.received == 2 && w3.received == 3;
    assert w3.stopped && !w2.stopped && !w1.stopped;
    assert ds[1..][0] == ds[1] && ds[1..][1..][0] == ds[2] && ds[1..][1..][1..] == ds[3..];
    assert Consume(w2, ds[1..][1..], codec) == Consume(w3, ds[3..], codec) == w3;
    assert Consume(w0, ds, codec) == Consume(w1, ds[1..], codec) == Consume(w2, ds[1..][1..], codec);
    assert Processed(w2, ds[1..][1..], codec) == 1 + Processed(w3, ds[3..], codec) == 1;
    assert Processed(w0, ds, codec) == 2 + Processed(w2, ds[1..][1..], codec);
    ConsumeCounts(w0, ds, codec);
    OnMessageEffects(w0, ds[0], codec);
    OnMessageEffects(w1, ds[1], codec);
    OnMessageEffects(w2, ds[2], codec);
  }

  /** What a dict publish puts on the wire is what a consumer's callback gets back. */
  lemma PublishConsumeRoundTrip(message: Value, codec: Codec)
    requires Lawful(codec) && message.Dict?
    ensures Payload(Utf8.Encode(Serialize(message, codec)), codec) == Some(message)
  {
    Utf8.DecodeEncode(codec.dumps(message));
  }

  // ---------------------------------------------------------------------------
  // The client as a state machine

  datatype MqState = MqState(connection: Option<Connection>, channel: Option<Channel>,
                             workers: seq<Worker>, ops: seq<BrokerOp>)

  /** The new state and what the call returned or raised. */
  datatype Step<T> = Step(state: MqState, result: Result<T>)

  /** `self.connection and self.connection.is_open` */
  predicate IsOpen(st: MqState)
  {
    st.connection.Some? && st.connection.value.isOpen
  }

  /** `connect`: the current channel while the connection is open; otherwise a new
      connection, then a new channel. Every failure is logged and re-raised; a
      refused channel leaves the new connection in place and the old channel field
      as it was. */
  function ConnectSpec(st: MqState, attempt: Attempt, config: Config, env: Env): (r: Step<Option<Channel>>)
    ensures IsOpen(st) ==> r == Step(st, Ok(st.channel))
    ensures r.state.workers == st.workers && r.state.ops == st.ops
    ensures r.result.Err? ==> r.result.error.LoggedError?
    ensures r.result.Ok? ==> IsOpen(r.state) && r.result.value == r.state.channel
    ensures !IsOpen(st) && r.result.Ok? ==>
              ConnParamsFrom(config, env).Ok? && r.state.connection.value.params == ConnParamsFrom(config, env).value && r.state.channel.Some?
  {
    if IsOpen(st) then Step(st, Ok(st.channel))
    else match ConnParamsFrom(config, env)
      case Err(e) => Step(st, Err(LoggedError(e)))
      case Ok(params) =>
        match attempt
        case Refused => Step(st, Err(LoggedError(BrokerRefused)))
        case NoChannel => Step(st.(connection := Some(Connection(params, true))), Err(LoggedError(ChannelRefused)))
        case Opened(id) =>
          Step(st.(connection := Some(Connection(params, true)), channel := Some(Channel(id))), Ok(Some(Channel(id))))
  }

  /** Once connected, connecting again changes nothing, whatever the broker would
      answer. */
  lemma ConnectIdempotent(st: MqState, a: Attempt, b: Attempt, config: Config, env: Env)
    requires ConnectSpec(st, a, config, env).result.Ok?
    ensures var s1 := ConnectSpec(st, a, config, env).state;
            ConnectSpec(s1, b, config, env) == Step(s1, Ok(s1.channel))
  {
  }

  /** `declare_queue`: connect, then declare on the channel (AttributeError when a
      refused channel left it None). */
  function DeclareSpec(st: MqState, queue: string, durable: bool, exclusive: bool, autoDelete: bool,
                       attempt: Attempt, config: Config, env: Env): (r: Step<()>)
    ensures r.state.workers == st.workers
    ensures r.result.Ok? ==> IsOpen(r.state) && r.state.ops == st.ops + [QueueDeclare(queue, durable, exclusive, autoDelete)]
    ensures r.result.Err? ==> r.state.ops == st.ops
    ensures var c := ConnectSpec(st, attempt, config, env);
            c.result.Err? ==> r.result == Err(c.result.error) && r.result.error.LoggedError?
    ensures var c := ConnectSpec(st, attempt, config, env);
            c.result.Ok? && c.state.channel.None? ==> r.result == Err(AttributeError)
    ensures r.result.Err? ==> r.result.error.LoggedError? || r.result == Err(AttributeError)
  {
    var c := ConnectSpec(st, attempt, config, env);
    if c.result.Err? then Step(c.state, Err(c.result.error))
    else if c.state.channel.None? then Step(c.state, Err(AttributeError))
    else Step(c.state.(ops := c.state.ops + [QueueDeclare(queue, durable, exclusive, autoDelete)]), Ok(()))
  }

  /** `publish_message`: one publish, persistent, always typed `text/plain`
      because the body is already a string when the type is chosen. */
  function PublishSpec(st: MqState, queue: string, message: Value, exchange: string, routingKey: Value,
                       attempt: Attempt, config: Config, env: Env, codec: Codec): (r: Step<()>)
    ensures r.state.workers == st.workers
    ensures r.result.Ok? ==>
              && IsOpen(r.state)
              && r.state.ops == st.ops + [Publish(exchange, RoutingKey(routingKey, queue), Serialize(message, codec),
                                                  Properties(2, "text/plain"))]
    ensures r.result.Err? ==> r.state.ops == st.ops
  {
    var c := ConnectSpec(st, attempt, config, env);
    if c.result.Err? then Step(c.state, Err(c.result.error))
    else
      var key := RoutingKey(routingKey, queue);
      var body := Serialize(message, codec);
      if c.state.channel.None? then Step(c.state, Err(AttributeError))
      else Step(c.state.(ops := c.state.ops + [Publish(exchange, key, body, Properties(2, ContentType(Str(body))))]), Ok(()))
  }

  /** `consume_messages`: connect, declare the queue with the defaults, start one
      worker; the result is the new worker's position. */
  function ConsumeSpec(st: MqState, queue: string, autoAck: bool, maxMessages: Value,
                       attempt: Attempt, config: Config, env: Env): (r: Step<nat>)
    ensures r.result.Ok? ==> r.result.value == |st.workers| && r.state.workers == st.workers + [NewWorker(queue, autoAck, maxMessages)]
    ensures r.result.Err? ==> r.state.workers == st.workers
  {
    var c := ConnectSpec(st, attempt, config, env);
    if c.result.Err? then Step(c.state, Err(c.result.error))
    else
      var d := DeclareSpec(c.state, queue, false, false, false, attempt, config, env);
      if d.result.Err? then Step(d.state, Err(d.result.error))
      else Step(d.state.(workers := d.state.workers + [NewWorker(queue, autoAck, maxMessages)]), Ok(|d.state.workers|))
  }

  /** Each successful `consume_messages` declares the queue once (not durable, not
      exclusive, not auto-deleted) and appends exactly one fresh worker. */
  lemma ConsumeAddsOneWorker(st: MqState, queue: string, autoAck: bool, maxMessages: Value,
                             attempt: Attempt, config: Config, env: Env)
    requires ConsumeSpec(st, queue, autoAck, maxMessages, attempt, config, env).result.Ok?
    ensures var r := ConsumeSpec(st, queue, autoAck, maxMessages, attempt, config, env);
            && r.result.value == |st.workers|
            && r.state.workers == st.workers + [NewWorker(queue, autoAck, maxMessages)]
            && r.state.ops == st.ops + [QueueDeclare(queue, false, false, false)]
            && IsOpen(r.state)
  {
  }

  /** One worker's thread running over what the broker delivers. */
  function RunWorkerSpec(st: MqState, i: nat, ds: seq<Delivery>, codec: Codec): (r: MqState)
    requires i < |st.workers|
  {
    st.(workers := st.workers[i := Consume(st.workers[i], ds, codec)])
  }

  /** What `close` asks of one worker: stop consuming (when there is a channel) and
      join, for a live worker only. */
  function StopRequest(i: nat, w: Worker, hasChannel: bool): seq<BrokerOp>
  {
    if Alive(w) then (if hasChannel then [StopConsuming] else []) + [Join(i)] else []
  }

  /** The requests for every worker, in order. */
  function StopRequests(ws: seq<Worker>, hasChannel: bool): seq<BrokerOp>
  {
    if ws == [] then [] else StopRequests(ws[..|ws| - 1], hasChannel) + StopRequest(|ws| - 1, ws[|ws| - 1], hasChannel)
  }

  /** One more worker adds its own requests at the end. */
  lemma StopRequestsPrefix(ws: seq<Worker>, i: nat, hasChannel: bool)
    requires i < |ws|
    ensures StopRequests(ws[..i + 1], hasChannel) == StopRequests(ws[..i], hasChannel) + StopRequest(i, ws[i], hasChannel)
  {
    assert ws[..i + 1][..i] == ws[..i];
  }

  /** `close` joins exactly the workers that are alive. */
  lemma {:induction false} JoinsLiveWorkers(ws: seq<Worker>, hasChannel: bool, j: nat)
    ensures Join(j) in StopRequests(ws, hasChannel) <==> j < |ws| && Alive(ws[j])
  {
    if ws != [] {
      var init := ws[..|ws| - 1];
      JoinsLiveWorkers(init, hasChannel, j);
      var last := StopRequest(|ws| - 1, ws[|ws| - 1], hasChannel);
      assert Join(j) in last <==> j == |ws| - 1 && Alive(ws[|ws| - 1]);
      assert j < |init| ==> init[j] == ws[j];
    }
  }

  /** The loop of `close` over the consumer threads: for each live one, a stop
      request when there is a channel, then a join. */
  method StopThreads(threads: seq<Worker>, hasChannel: bool) returns (calls: seq<BrokerOp>)
    ensures calls == StopRequests(threads, hasChannel)
  {
    calls := [];
    var i := 0;
    while i < |threads|
      invariant 0 <= i <= |threads|
      invariant calls == StopRequests(threads[..i], hasChannel)
    {
      ghost var before := calls;
      if Alive(threads[i]) {
        if hasChannel {
          calls := calls + [StopConsuming];
        }
        calls := calls + [Join(i)];
      }
      assert calls == before + StopRequest(i, threads[i], hasChannel);
      StopRequestsPrefix(threads, i, hasChannel);
      i := i + 1;
    }
    assert threads[..i] == threads;
  }

  /** `close`: stop and join the live workers, then close the connection if it
      exists and is not closed yet. Workers are not changed: how a thread answers
      the stop request within join's bound is outside the model. */
  function CloseSpec(st: MqState): (r: MqState)
    ensures r.workers == st.workers && r.channel == st.channel
    ensures r.connection.Some? <==> st.connection.Some?
    ensures !IsOpen(r)
    ensures r.ops == st.ops + StopRequests(st.workers, st.channel.Some?) + (if IsOpen(st) then [CloseConnection] else [])
  {
    var ops := st.ops + StopRequests(st.workers, st.channel.Some?);
    if IsOpen(st) then st.(connection := Some(st.connection.value.(isOpen := false)), ops := ops + [CloseConnection])
    else st.(ops := ops)
  }

  /** Closing twice closes the connection once: the second call does not close it
      again and leaves it closed. */
  lemma CloseTwice(st: MqState)
    ensures CloseSpec(CloseSpec(st)).connection == CloseSpec(st).connection
    ensures CloseSpec(CloseSpec(st)).ops == CloseSpec(st).ops + StopRequests(st.workers, st.channel.Some?)
  {
  }

  /** The client object: its fields are the ones the source updates. */
  class RabbitMqClient {
    const config: Config
    const env: Env
    const codec: Codec
    var connection: Option<Connection>
    var channel: Option<Channel>
    var consumeThreads: seq<Worker>
    var ops: seq<BrokerOp>

    function State(): MqState
      reads this
    {
      MqState(connection, channel, consumeThreads, ops)
    }

    constructor (config: Config, env: Env, codec: Codec)
      ensures this.config == config && this.env == env && this.codec == codec
      ensures State() == MqState(None, None, [], [])
    {
      this.config := config;
      this.env := env;
      this.codec := codec;
      connection := None;
      channel := None;
      consumeThreads := [];
      ops := [];
    }

    method Connect(attempt: Attempt) returns (r: Result<Option<Channel>>)
      modifies this
      ensures Step(State(), r) == ConnectSpec(old(State()), attempt, config, env)
    {
      if connection.Some? && connection.value.isOpen {
        return Ok(channel);
      }
      var params := ConnParamsFrom(config, env);
      if params.Err? {
        return Err(LoggedError(params.error));
      }
      match attempt {
        case Refused =>
          return Err(LoggedError(BrokerRefused));
        case NoChannel =>
          connection := Some(Connection(params.value, true));
          return Err(LoggedError(ChannelRefused));
        case Opened(id) =>
          connection := Some(Connection(params.value, true));
          channel := Some(Channel(id));
          return Ok(channel);
      }
    }

    method DeclareQueue(queue: string, durable: bool, exclusive: bool, autoDelete: bool, attempt: Attempt) returns (r: Result<()>)
      modifies this
      ensures Step(State(), r) == DeclareSpec(old(State()), queue, durable, exclusive, autoDelete, attempt, config, env)
    {
      var c := Connect(attempt);
      if c.Err? {
        return Err(c.error);
      }
      if channel.None? {
        return Err(AttributeError);
      }
      ops := ops + [QueueDeclare(queue, durable, exclusive, autoDelete)];
      return Ok(());
    }

    method PublishMessage(queue: string, message: Value, exchange: string, routingKey: Value, attempt: Attempt) returns (r: Result<()>)
      modifies this
      ensures Step(State(), r) == PublishSpec(old(State()), queue, message, exchange, routingKey, attempt, config, env, codec)
    {
      var c := Connect(attempt);
      if c.Err? {
        return Err(c.error);
      }
      var key := RoutingKey(routingKey, queue);
      var body := Serialize(message, codec);
      if channel.None? {
        return Err(AttributeError);
      }
      ops := ops + [Publish(exchange, key, body, Properties(2, ContentType(Str(body))))];
      return Ok(());
    }

    method ConsumeMessages(queue: string, autoAck: bool, maxMessages: Value, attempt: Attempt) returns (r: Result<nat>)
      modifies this
      ensures Step(State(), r) == ConsumeSpec(old(State()), queue, autoAck, maxMessages, attempt, config, env)
    {
      var c := Connect(attempt);
      if c.Err? {
        return Err(c.error);
      }
      var d := DeclareQueue(queue, false, false, false, attempt);
      if d.Err? {
        return Err(d.error);
      }
      consumeThreads := consumeThreads + [NewWorker(queue, autoAck, maxMessages)];
      return Ok(|consumeThreads| - 1);
    }

    /** The thread of worker `i`: `on_message` for each delivery until it stops. */
    method RunWorker(i: nat, deliveries: seq<Delivery>)
      requires i < |consumeThreads|
      modifies this
      ensures State() == RunWorkerSpec(old(State()), i, deliveries, codec)
    {
      var w := consumeThreads[i];
      var k := 0;
      while k < |deliveries| && !w.stopped
        invariant 0 <= k <= |deliveries|
        invariant unchanged(this)
        invariant Consume(w, deliveries[k..], codec) == Consume(consumeThreads[i], deliveries, codec)
      {
        assert deliveries[k..][1..] == deliveries[k + 1..];
        w := HandleMessage(w, deliveries[k], codec);
        k := k + 1;
      }
      consumeThreads := consumeThreads[i := w];
    }

    method Close()
      modifies this
      ensures State() == CloseSpec(old(State()))
    {
      var calls := StopThreads(consumeThreads, channel.Some?);
      ops := ops + calls;
      if connection.Some? && connection.value.isOpen {
        connection := Some(connection.value.(isOpen := false));
        ops := ops + [CloseConnection];
      }
    }
  }
}
