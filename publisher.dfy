/** `StatsPublisher`: the subscription bookkeeping of the query service.

    The NATS client is not modelled; each method takes as parameters what the
    client calls it makes return or raise, and the ghost field `trace` records,
    in order, the client calls the publisher makes. */
module Publisher {
  import opened Wrappers
  import opened Values
  import opened Queries
  import opened Handlers

  /** A connected NATS client (its identity only). */
  datatype Client = Client(id: nat)

  /** A live binding of a subject to the handler of a query kind. */
  datatype Subscription = Subscription(subject: string, handler: Query)

  /** The calls the publisher makes on the NATS library. */
  datatype Op =
    | NatsConnect(servers: Value, user: Value, password: Value, token: Value)
    | NatsSubscribe(sub: Subscription)
    | NatsUnsubscribe(sub: Subscription)
    | NatsDrain
    | NatsClose
    | NatsPublish(subject: string, payload: map<string, Value>)

  /** The server used when the configuration names none. */
  const DefaultServers: Value := List([Str("nats://localhost:4222")])

  /** The `nats.connect` call made for a configuration: its `servers`
      (defaulting to the local server), `user`, `password` and `token`. */
  function DialFor(config: map<string, Value>): (op: Op)
    ensures op.NatsConnect?
    ensures "servers" !in config ==> op.servers == DefaultServers
    ensures "servers" in config ==> op.servers == config["servers"]
    ensures op.user == Get(config, "user") && op.password == Get(config, "password") && op.token == Get(config, "token")
  {
    NatsConnect(GetOr(config, "servers", DefaultServers), Get(config, "user"), Get(config, "password"), Get(config, "token"))
  }

  /** The subscription `connect` makes for a query kind. */
  function Binding(domain: string, q: Query): Subscription
  {
    Subscription(Subject(domain, q), q)
  }

  /** All sixteen subscriptions, in the order `connect` makes them. */
  function Bindings(domain: string): (subs: seq<Subscription>)
    ensures |subs| == |QueryOrder|
    ensures forall k :: 0 <= k < |subs| ==> subs[k] == Binding(domain, QueryOrder[k])
  {
    seq(|QueryOrder|, k requires 0 <= k < |QueryOrder| => Binding(domain, QueryOrder[k]))
  }

  /** The subscribe calls for a list of subscriptions, in order. */
  function Subscribes(subs: seq<Subscription>): seq<Op>
  {
    if subs == [] then [] else Subscribes(subs[..|subs| - 1]) + [NatsSubscribe(subs[|subs| - 1])]
  }

  /** The unsubscribe calls for a list of subscriptions, in order. */
  function Unsubscribes(subs: seq<Subscription>): seq<Op>
  {
    if subs == [] then [] else Unsubscribes(subs[..|subs| - 1]) + [NatsUnsubscribe(subs[|subs| - 1])]
  }

  /** The handlers, in subscription order, that NATS runs for a message on
      `subject`: those of every subscription on exactly that subject. */
  function Deliver(subs: seq<Subscription>, subject: string): seq<Query>
  {
    if subs == [] then []
    else
      var last := subs[|subs| - 1];
      Deliver(subs[..|subs| - 1], subject) + (if last.subject == subject then [last.handler] else [])
  }

  /** Adding the n-th subscription of `connect` adds its handler to the
      messages on its subject only. */
  lemma DeliverStep(domain: string, n: nat, subject: string)
    requires 0 < n <= |QueryOrder|
    ensures Deliver(Bindings(domain)[..n], subject) ==
      Deliver(Bindings(domain)[..n - 1], subject)
      + (if Subject(domain, QueryOrder[n - 1]) == subject then [QueryOrder[n - 1]] else [])
  {
    assert Bindings(domain)[..n][..n - 1] == Bindings(domain)[..n - 1];
  }

  /** While the first `n` subscriptions of `connect` are in place, a message
      on the subject of query kind `q` reaches `q`'s handler once if it is
      already subscribed, and no other handler. */
  lemma {:induction false} DeliverNamed(domain: string, n: nat, q: Query)
    requires n <= |QueryOrder|
    ensures Deliver(Bindings(domain)[..n], Subject(domain, q)) == if Position(q) < n then [q] else []
  {
    if n > 0 {
      var last := QueryOrder[n - 1];
      DeliverStep(domain, n, Subject(domain, q));
      DeliverNamed(domain, n - 1, q);
      SubjectInjective(domain, last, q);
      QueryOrderComplete();
      assert Position(q) == n - 1 <==> q == last;
    }
  }

  /** A message on a subject that names no query kind of the domain reaches
      no handler, whatever subscriptions of `connect` are in place. */
  lemma {:induction false} DeliverForeign(domain: string, n: nat, subject: string)
    requires n <= |QueryOrder|
    requires forall q :: subject != Subject(domain, q)
    ensures Deliver(Bindings(domain)[..n], subject) == []
  {
    if n > 0 {
      DeliverStep(domain, n, subject);
      DeliverForeign(domain, n - 1, subject);
    }
  }

  /** While the first `n` subscriptions of `connect` are in place, a message
      reaches exactly the handler its subject routes to, if that handler is
      already subscribed, and nothing else: no subject is served twice. */
  lemma DeliverBindings(domain: string, n: nat, subject: string)
    requires n <= |QueryOrder|
    ensures Deliver(Bindings(domain)[..n], subject) ==
      match Route(domain, subject)
      case None => []
      case Some(q) => if Position(q) < n then [q] else []
  {
    match Route(domain, subject)
    case None =>
      forall q ensures subject != Subject(domain, q) {
        RouteSubject(domain, q);
      }
      DeliverForeign(domain, n, subject);
    case Some(q) =>
      DeliverNamed(domain, n, q);
  }

  /** The sixteen subscriptions of `connect`: each subject is
      `userstats.query.{domain}.` followed by its handler's suffix, every
      query kind has one, and no two share a subject or a handler. */
  lemma BindingsWellFormed(domain: string)
    ensures |Bindings(domain)| == 16
    ensures forall k :: 0 <= k < 16 ==>
      Bindings(domain)[k].subject == "userstats.query." + domain + "." + Suffix(Bindings(domain)[k].handler)
    ensures forall q :: Binding(domain, q) in Bindings(domain)
    ensures forall i, j :: 0 <= i < j < 16 ==>
      Bindings(domain)[i].subject != Bindings(domain)[j].subject && Bindings(domain)[i].handler != Bindings(domain)[j].handler
  {
    QueryOrderComplete();
    forall q ensures Binding(domain, q) in Bindings(domain) {
      assert Bindings(domain)[Position(q)] == Binding(domain, q);
    }
    forall i, j | 0 <= i < j < 16
      ensures Bindings(domain)[i].subject != Bindings(domain)[j].subject
    {
      SubjectInjective(domain, QueryOrder[i], QueryOrder[j]);
    }
  }

  /** Whatever prefix of the sixteen subscriptions is in place, a message is
      handled at most once, and only by the handler its subject names. */
  lemma AtMostOneHandler(domain: string, subs: seq<Subscription>, subject: string)
    requires |subs| <= |QueryOrder| && subs == Bindings(domain)[..|subs|]
    ensures |Deliver(subs, subject)| <= 1
    ensures forall q :: q in Deliver(subs, subject) ==> subject == Subject(domain, q)
  {
    DeliverBindings(domain, |subs|, subject);
  }

  /** Once all sixteen subscriptions are in place, a message on a subject of
      this domain is handled by exactly the handler its suffix names, and a
      message on any other subject by none. */
  lemma FullyConnectedRouting(domain: string, subject: string)
    ensures Route(domain, subject).Some? ==> Deliver(Bindings(domain), subject) == [Route(domain, subject).value]
    ensures Route(domain, subject).None? ==> Deliver(Bindings(domain), subject) == []
  {
    assert Bindings(domain)[..|QueryOrder|] == Bindings(domain);
    DeliverBindings(domain, |QueryOrder|, subject);
  }

  /** The number of subscribe calls that succeed in a row, out of the first
      `n`: the first failing call, if any, is call number `Granted`. */
  function Granted(outcomes: nat -> Attempt<()>, n: nat): (g: nat)
    ensures g <= n
    ensures forall k :: 0 <= k < g ==> outcomes(k).Returned?
    ensures g < n ==> outcomes(g).Raised?
  {
    if n == 0 then 0
    else
      var g := Granted(outcomes, n - 1);
      if g < n - 1 || outcomes(n - 1).Raised? then g else n
  }

  /** The application itself is not a field here: the handlers read its
      state (`_running`, `db`, `activity_tracker`) afresh for every message,
      so `Serve` takes that state as it is when the message arrives. */
  class StatsPublisher {
    const domain: string
    const config: map<string, Value>

    var nats: Option<Client>
    var connected: bool
    var subscriptions: seq<Subscription>

    /** The calls made on the NATS library so far. */
    ghost var trace: seq<Op>

    /** The publisher holds a client exactly while connected, holds no
        subscription while disconnected, and its subscriptions are always the
        first few that `connect` makes, in order. */
    ghost predicate Valid()
      reads this
    {
      && (connected <==> nats.Some?)
      && (!connected ==> subscriptions == [])
      && |subscriptions| <= |QueryOrder|
      && subscriptions == Bindings(domain)[..|subscriptions|]
    }

    constructor (domain: string, config: map<string, Value>)
      ensures Valid()
      ensures this.domain == domain && this.config == config
      ensures nats.None? && !connected && subscriptions == [] && trace == []
    {
      this.domain := domain;
      this.config := config;
      nats := None;
      connected := false;
      subscriptions := [];
      trace := [];
    }

    /** `_subscribe`: refuses without a client; otherwise asks the client for
        the subscription (`outcome` is what that call does) and, when granted,
        appends it. */
    method Subscribe(subject: string, handler: Query, outcome: Attempt<()>) returns (r: Attempt<()>)
      modifies this`subscriptions, this`trace
      ensures nats.None? ==>
        r == Raised("NATS client not connected") && subscriptions == old(subscriptions) && trace == old(trace)
      ensures nats.Some? ==> trace == old(trace) + [NatsSubscribe(Subscription(subject, handler))] && r == outcome
      ensures nats.Some? && outcome.Returned? ==> subscriptions == old(subscriptions) + [Subscription(subject, handler)]
      ensures nats.Some? && outcome.Raised? ==> subscriptions == old(subscriptions)
    {
      if nats.None? {
        return Raised("NATS client not connected");
      }
      trace := trace + [NatsSubscribe(Subscription(subject, handler))];
      if outcome.Raised? {
        return outcome;
      }
      subscriptions := subscriptions + [Subscription(subject, handler)];
      r := outcome;
    }

    /** The subscribe calls of `connect` (its lines after marking itself
        connected): `_subscribe` for each binding in order, the k-th call
        doing what `outcomes(k)` says, stopping at the first that raises. */
    method SubscribeEach(bindings: seq<Subscription>, outcomes: nat -> Attempt<()>) returns (r: Attempt<()>)
      requires nats.Some?
      modifies this`subscriptions, this`trace
      ensures var g := Granted(outcomes, |bindings|);
        && subscriptions == old(subscriptions) + bindings[..g]
        && (g == |bindings| ==> r == Returned(()))
        && (g < |bindings| ==> r == outcomes(g))
        && trace == old(trace) + Subscribes(bindings[..g])
                    + (if g < |bindings| then [NatsSubscribe(bindings[g])] else [])
    {
      var i := 0;
      while i < |bindings|
        invariant i <= |bindings|
        invariant subscriptions == old(subscriptions) + bindings[..i]
        invariant trace == old(trace) + Subscribes(bindings[..i])
        invariant forall k :: 0 <= k < i ==> outcomes(k).Returned?
      {
        assert bindings[..i + 1][..i] == bindings[..i];
        r := Subscribe(bindings[i].subject, bindings[i].handler, outcomes(i));
        if r.Raised? {
          assert Granted(outcomes, |bindings|) == i;
          return;
        }
        i := i + 1;
      }
      assert bindings[..i] == bindings;
      r := Returned(());
    }

    /** `connect`: nothing when already connected; otherwise dials (with
        outcome `dialed`), marks the publisher connected and subscribes the
        sixteen handlers in order, the k-th subscribe call doing what
        `outcomes(k)` says. A failure is raised again, leaving the publisher
        connected with the subscriptions made so far. */
    method Connect(dialed: Attempt<Client>, outcomes: nat -> Attempt<()>) returns (r: Attempt<()>)
      requires Valid()
      modifies this
      ensures Valid()
      ensures old(connected) ==> r == Returned(()) && unchanged(this)
      ensures !old(connected) && dialed.Raised? ==>
        && r == Raised(dialed.error)
        && nats == old(nats) && !connected && subscriptions == []
        && trace == old(trace) + [DialFor(config)]
      ensures !old(connected) && dialed.Returned? ==>
        var g := Granted(outcomes, |QueryOrder|);
        && connected && nats == Some(dialed.value)
        && subscriptions == Bindings(domain)[..g]
        && (g == |QueryOrder| ==> r == Returned(()))
        && (g < |QueryOrder| ==> r == outcomes(g))
        && trace == old(trace) + [DialFor(config)] + Subscribes(Bindings(domain)[..g])
                    + (if g < |QueryOrder| then [NatsSubscribe(Bindings(domain)[g])] else [])
    {
      if connected {
        return Returned(());
      }
      trace := trace + [DialFor(config)];
      if dialed.Raised? {
        return Raised(dialed.error);
      }
      nats := Some(dialed.value);
      connected := true;
      r := SubscribeEach(Bindings(domain), outcomes);
    }

    /** The unsubscribe loop of `disconnect`: one unsubscribe call per
        subscription, in order. A failing call is only logged and the loop
        goes on, so what each call does changes nothing here. */
    method UnsubscribeEach()
      modifies this`trace
      ensures trace == old(trace) + Unsubscribes(subscriptions)
    {
      var i := 0;
      while i < |subscriptions|
        invariant i <= |subscriptions|
        invariant trace == old(trace) + Unsubscribes(subscriptions[..i])
      {
        assert subscriptions[..i + 1][..i] == subscriptions[..i];
        trace := trace + [NatsUnsubscribe(subscriptions[i])];
        i := i + 1;
      }
      assert subscriptions[..i] == subscriptions;
    }

    /** `disconnect`: nothing unless connected with a client. Otherwise it
        unsubscribes every subscription, whatever each unsubscribe call does,
        empties the list, then drains and
        closes the client; only when both succeed does it mark itself
        disconnected and drop the client. Nothing is raised. */
    method Disconnect(drained: Attempt<()>, closed: Attempt<()>)
      requires Valid()
      modifies this
      ensures Valid()
      ensures !old(connected) || old(nats).None? ==> unchanged(this)
      ensures old(connected) && old(nats).Some? ==>
        && subscriptions == []
        && trace == old(trace) + Unsubscribes(old(subscriptions)) + [NatsDrain] + (if drained.Returned? then [NatsClose] else [])
        && (drained.Returned? && closed.Returned? ==> !connected && nats.None?)
        && (drained.Raised? || closed.Raised? ==> connected && nats == old(nats))
    {
      if !connected || nats.None? {
        return;
      }
      UnsubscribeEach();
      subscriptions := [];
      trace := trace + [NatsDrain];
      if drained.Raised? {
        return;
      }
      trace := trace + [NatsClose];
      if closed.Raised? {
        return;
      }
      connected := false;
      nats := None;
    }

    /** `_publish_response`: with a client, publishes the response dictionary
        on the reply subject (a failure to publish is only logged); without
        one, publishes nothing. */
    method PublishResponse(reply: string, data: map<string, Value>)
      modifies this`trace
      ensures trace == old(trace) + if nats.Some? then [NatsPublish(reply, data)] else []
    {
      if nats.None? {
        return;
      }
      trace := trace + [NatsPublish(reply, data)];
    }

    /** A message delivered to the handler of query kind `q`: the handler
        runs against the application's state at that moment and its
        database, and hands its one response to `_publish_response`. */
    method Serve(q: Query, body: Body, reply: string, app: App, db: Db) returns (run: Run)
      modifies this`trace
      ensures run == Handle(q, body, Ctx(domain, connected, app), db)
      ensures trace == old(trace) + if nats.Some? then [NatsPublish(reply, ToDict(run.response))] else []
    {
      run := Handle(q, body, Ctx(domain, connected, app), db);
      PublishResponse(reply, ToDict(run.response));
    }
  }

  /** A publisher connects, ignores a second connect, disconnects cleanly and
      connects again with all sixteen subscriptions. */
  method ReconnectScenario(domain: string, client: Client)
  {
    var p := new StatsPublisher(domain, map[]);
    var allGranted: nat -> Attempt<()> := _ => Returned(());
    assert Granted(allGranted, |QueryOrder|) == |QueryOrder|;
    var r := p.Connect(Returned(client), allGranted);
    assert r == Returned(()) && p.connected && |p.subscriptions| == 16;
    r := p.Connect(Returned(Client(client.id + 1)), allGranted);
    assert p.nats == Some(client) && |p.subscriptions| == 16;
    p.Disconnect(Returned(()), Returned(()));
    assert !p.connected && p.nats.None? && p.subscriptions == [];
    r := p.Connect(Returned(client), allGranted);
    assert p.subscriptions == Bindings(domain);
  }

  /** Once connected, a `system.health` request reports the NATS connection
      as up, and the reply is published on the reply subject. The status
      follows the application as it is when each message arrives: a
      publisher built before the application runs reports `healthy` once it
      does. */
  method HealthScenario(domain: string, client: Client, db: Db)
  {
    var p := new StatsPublisher(domain, map[]);
    var allGranted: nat -> Attempt<()> := _ => Returned(());
    assert Granted(allGranted, |QueryOrder|) == |QueryOrder|;
    var r := p.Connect(Returned(client), allGranted);
    var run := p.Serve(SystemHealth, Malformed("not JSON"), "reply", App(false, true, false), db);
    assert run.response.data.entries["nats_connected"] == Bool(true);
    assert run.response.data.entries["status"] == Str("unhealthy");
    assert p.trace[|p.trace| - 1] == NatsPublish("reply", ToDict(run.response));
    run := p.Serve(SystemHealth, Malformed("not JSON"), "reply", App(true, true, false), db);
    assert run.response.data.entries["status"] == Str("healthy");
  }

  /** A subscribe failure during `connect` leaves the publisher connected
      with only the subscriptions made before it, and a later `connect`
      returns at once without adding the rest. */
  method PartialConnectScenario(domain: string, client: Client)
  {
    var p := new StatsPublisher(domain, map[]);
    var thirdRefused: nat -> Attempt<()> := k => if k == 3 then Raised("timeout") else Returned(());
    assert thirdRefused(3).Raised? && forall k :: k < 3 ==> thirdRefused(k).Returned?;
    assert Granted(thirdRefused, |QueryOrder|) == 3;
    var r := p.Connect(Returned(client), thirdRefused);
    assert r == Raised("timeout") && p.connected && p.subscriptions == Bindings(domain)[..3];
    var allGranted: nat -> Attempt<()> := _ => Returned(());
    r := p.Connect(Returned(client), allGranted);
    assert r == Returned(()) && |p.subscriptions| == 3;
  }
}
