/** src/MqttClient/mqtt_client.cpp, one call at a time: a client over the Paho backend it owns. */
module MqttClients {
  import opened Basics
  import opened MqttLinks
  import T = Transports

  datatype MqttConfig = MqttConfig(broker: string, clientId: string, telemetryTopic: string, commandTopic: string,
                                   qos: int)

  // One call of the backend, with what it is told.
  datatype Request =
    | ToConnect(broker: string, clientId: string) | ToDisconnect
    | ToPublish(packet: Packet) | ToSubscribe(topic: string, qos: int)

  class PahoMqttBackend {
    var connected: bool
    var hasHandle: bool
    var handed: seq<Packet>      // what has been given to the library to publish
    var requests: seq<Request>   // the calls made of the methods below

    constructor ()
      ensures !connected && !hasHandle && handed == [] && requests == []
    {
      connected, hasHandle, handed, requests := false, false, [], [];
    }

    method Connect(broker: string, clientId: string, dial: Dial) returns (ok: bool)
      modifies this
      ensures handed == old(handed) && requests == old(requests) + [ToConnect(broker, clientId)]
      ensures Link(false, connected, hasHandle)
              == AfterBackendConnect(Link(false, old(connected), old(hasHandle)), dial)
      ensures ok == connected == (old(connected) || (!dial.create.Throws? && dial.call.Succeeds?))
      ensures hasHandle == (old(hasHandle) || (!old(connected) && !dial.create.Throws?))
    {
      requests := requests + [ToConnect(broker, clientId)];
      if connected {
        return true;
      }
      if dial.create.Throws? {
        connected := false;
        return false;
      }
      hasHandle := true;
      if dial.call.Throws? {
        connected := false;
        return false;
      }
      connected := dial.call.Succeeds?;
      return connected;
    }

    method Disconnect(call: Answer) returns (ok: bool)
      modifies this
      ensures handed == old(handed) && hasHandle == old(hasHandle)
      ensures !connected && requests == old(requests) + [ToDisconnect]
      ensures ok == (!hasHandle || !call.Throws?)
    {
      requests := requests + [ToDisconnect];
      if hasHandle && call.Throws? {
        connected := false;
        return false;
      }
      connected := false;
      return true;
    }

    method Publish(packet: Packet, call: Answer) returns (ok: bool)
      modifies this`handed, this`requests
      ensures handed == if connected && hasHandle then old(handed) + [packet] else old(handed)
      ensures ok == (connected && hasHandle && call.Succeeds?) && requests == old(requests) + [ToPublish(packet)]
    {
      requests := requests + [ToPublish(packet)];
      if !hasHandle || !connected {
        return false;
      }
      handed := handed + [packet];
      return call.Succeeds?;
    }

    method Subscribe(topic: string, qos: int, call: Answer) returns (ok: bool)
      modifies this`requests
      ensures ok == (connected && hasHandle && call.Succeeds?) && requests == old(requests) + [ToSubscribe(topic, qos)]
    {
      requests := requests + [ToSubscribe(topic, qos)];
      if !hasHandle || !connected {
        return false;
      }
      return call.Succeeds?;
    }
  }

  class MqttClient {
    const config: MqttConfig
    const backend: PahoMqttBackend
    var connected: bool

    function View(): Link
      reads this, backend
    {
      Link(connected, backend.connected, backend.hasHandle)
    }

    predicate Valid()
      reads this, backend
    {
      FlagsAgree(View())
    }

    constructor (config: MqttConfig)
      ensures this.config == config && fresh(backend)
      ensures Valid() && View() == Link(false, false, false) && backend.handed == []
    {
      this.config := config;
      backend := new PahoMqttBackend();
      connected := false;
    }

    // Over a backend that was handed in. One that already has its library object can give the client any answer.
    constructor Over(config: MqttConfig, backend: PahoMqttBackend)
      requires !backend.connected
      ensures this.config == config && this.backend == backend
      ensures Valid() && View() == Link(false, false, backend.hasHandle)
    {
      this.config := config;
      this.backend := backend;
      connected := false;
    }

    // A call whose caller saw `ok` obeys the transport contract. Whether it got through to the backend is measured
    // there, by the requests made of it since the call began.
    twostate predicate Obeyed(op: T.Operation, ok: bool)
      reads this, backend
    {
      T.Obeys(T.CallRecord(op, old(IsConnected()), ok, IsConnected(), backend.requests != old(backend.requests)))
    }

    method Connect(dial: Dial) returns (ok: bool)
      requires Valid()
      modifies this, backend
      ensures Valid() && View() == AfterConnect(old(View()), dial)
      ensures ok == T.ConnectResult(old(connected), DialUp(dial))
      ensures ok == connected == (old(connected) || (!dial.create.Throws? && dial.call.Succeeds?))
      ensures backend.handed == old(backend.handed)
      ensures backend.requests
              == old(backend.requests) + if old(connected) then [] else [ToConnect(config.broker, config.clientId)]
      ensures Obeyed(T.Connect, ok)
    {
      if connected {
        return true;
      }
      connected := backend.Connect(config.broker, config.clientId, dial);
      assert View() == AfterConnect(old(View()), dial);
      return connected;
    }

    method Disconnect(call: Answer) returns (ok: bool)
      requires Valid()
      modifies this, backend
      ensures Valid() && View() == AfterDisconnect(old(View()))
      ensures ok == T.DisconnectResult(T.Mqtt, BackendDisconnectResult(old(View()), call))
      ensures ok == (!old(backend.hasHandle) || !call.Throws?)
      ensures !connected && !backend.connected && backend.hasHandle == old(backend.hasHandle)
      ensures backend.handed == old(backend.handed) && backend.requests == old(backend.requests) + [ToDisconnect]
      ensures Obeyed(T.Disconnect, ok)
    {
      connected := false;
      ok := backend.Disconnect(call);
    }

    // If the disconnect fails no connect is attempted.
    method Reconnect(call: Answer, dial: Dial) returns (ok: bool)
      requires Valid()
      modifies this, backend
      ensures Valid() && View() == AfterReconnect(old(View()), call, dial)
      ensures ok == T.ReconnectResult(T.Mqtt, BackendDisconnectResult(old(View()), call), DialUp(dial))
      ensures ok == connected ==
              ((!old(backend.hasHandle) || !call.Throws?) && !dial.create.Throws? && dial.call.Succeeds?)
      ensures backend.handed == old(backend.handed)
      ensures backend.requests == old(backend.requests) +
              if old(backend.hasHandle) && call.Throws? then [ToDisconnect]
              else [ToDisconnect, ToConnect(config.broker, config.clientId)]
      ensures Obeyed(T.Reconnect, ok)
    {
      ok := Disconnect(call);
      if ok {
        ok := Connect(dial);
      }
    }

    // A negative qos means the configured one. The backend's own guard never interferes.
    method Publish(topic: string, payload: string, qos: int, call: Answer) returns (ok: bool)
      requires Valid()
      modifies backend`handed, backend`requests
      ensures Valid() && View() == old(View())
      ensures ok == (connected && call.Succeeds?)
      ensures Obeyed(T.Publish, ok)
      ensures backend.handed ==
              if connected then old(backend.handed) + [Packet(topic, payload, if qos < 0 then config.qos else qos)]
              else old(backend.handed)
      ensures backend.requests == old(backend.requests) +
              if connected then [ToPublish(Packet(topic, payload, if qos < 0 then config.qos else qos))] else []
    {
      if !connected {
        return false;
      }
      ok := backend.Publish(Packet(topic, payload, if qos < 0 then config.qos else qos), call);
    }

    method Subscribe(topic: string, qos: int, call: Answer) returns (ok: bool)
      requires Valid()
      modifies backend`requests
      ensures Valid() && View() == old(View())
      ensures ok == (connected && call.Succeeds?)
      ensures backend.requests == old(backend.requests) +
              if connected then [ToSubscribe(topic, if qos < 0 then config.qos else qos)] else []
      ensures Obeyed(T.Subscribe, ok)
    {
      if !connected {
        return false;
      }
      ok := backend.Subscribe(topic, if qos < 0 then config.qos else qos, call);
    }

    predicate IsConnected()
      reads this
    {
      connected
    }

    method Perform(c: Call) returns (ok: bool)
      requires Valid()
      modifies this, backend
      ensures Valid() && View() == After(old(View()), c)
      ensures ok == ResultOf(old(View()), c)
      ensures backend.requests == old(backend.requests) + RequestsOf(config, old(View()), c)
      ensures backend.handed == old(backend.handed) + PacketsOf(config, old(View()), c)
      ensures Obeyed(OpOf(c), ok)
    {
      match c
      case DoConnect(dial) => ok := Connect(dial);
      case DoDisconnect(call) => ok := Disconnect(call);
      case DoReconnect(call, dial) => ok := Reconnect(call, dial);
      case DoPublish(topic, payload, qos, call) => ok := Publish(topic, payload, qos, call);
      case DoSubscribe(topic, qos, call) => ok := Subscribe(topic, qos, call);
      case AskConnected => ok := IsConnected();
    }

    // The call as its caller sees it.
    method Recorded(c: Call) returns (record: T.CallRecord)
      requires Valid()
      modifies this, backend
      ensures Valid() && View() == After(old(View()), c)
      ensures T.Obeys(record) && Tells(config, record, old(View()), c)
      ensures record.reached == (backend.requests != old(backend.requests))
      ensures backend.requests == old(backend.requests) + RequestsOf(config, old(View()), c)
      ensures backend.handed == old(backend.handed) + PacketsOf(config, old(View()), c)
    {
      var before, made := IsConnected(), backend.requests;
      var ok := Perform(c);
      record := T.CallRecord(OpOf(c), before, ok, IsConnected(), backend.requests != made);
    }

    // Any calls in any order make a history of the transport contract, told as it was: `Tells` fixes each record, and
    // the requests and packets that have reached the backend are those that the records, and nothing else, account for.
    method PerformAll(calls: seq<Call>) returns (history: seq<T.CallRecord>)
      requires Valid()
      modifies this, backend
      ensures Valid() && View() == Replay(old(View()), calls)
      ensures T.History(history, old(IsConnected())) && TellsAll(config, history, old(View()), calls)
      ensures T.Up(history, old(IsConnected())) == IsConnected()
      ensures backend.requests == old(backend.requests) + AllRequests(config, old(View()), calls)
      ensures backend.handed == old(backend.handed) + AllPackets(config, old(View()), calls)
    {
      ghost var start, made, handed := View(), backend.requests, backend.handed;
      history := [];
      for k := 0 to |calls|
        invariant Valid() && View() == Replay(start, calls[..k])
        invariant Told(config, history, start, calls[..k])
        invariant backend.requests == made + AllRequests(config, start, calls[..k])
        invariant backend.handed == handed + AllPackets(config, start, calls[..k])
      {
        var c := Recorded(calls[k]);
        ToldGrows(config, history, start, calls, k, c);
        ReplayGrows(start, calls, k);
        RequestsGrow(config, start, calls, k, made);
        PacketsGrow(config, start, calls, k, handed);
        history := history + [c];
      }
      assert calls[..|calls|] == calls;
    }
  }

  // ----- Every sequence of calls -----

  datatype Call =
    | DoConnect(dial: Dial) | DoDisconnect(call: Answer) | DoReconnect(call: Answer, dial: Dial)
    | DoPublish(topic: string, payload: string, qos: int, call: Answer)
    | DoSubscribe(topic: string, qos: int, call: Answer) | AskConnected

  function OpOf(c: Call): T.Operation {
    match c
    case DoConnect(_) => T.Connect
    case DoDisconnect(_) => T.Disconnect
    case DoReconnect(_, _) => T.Reconnect
    case DoPublish(_, _, _, _) => T.Publish
    case DoSubscribe(_, _, _) => T.Subscribe
    case AskConnected => T.IsConnected
  }

  function After(l: Link, c: Call): Link {
    match c
    case DoConnect(dial) => AfterConnect(l, dial)
    case DoDisconnect(_) => AfterDisconnect(l)
    case DoReconnect(call, dial) => AfterReconnect(l, call, dial)
    case _ => l
  }

  function Replay(l: Link, calls: seq<Call>): Link {
    if calls == [] then l else After(Replay(l, calls[..|calls| - 1]), calls[|calls| - 1])
  }

  // What the call returns, what it requests of the backend, and what it hands over to be published.
  predicate ResultOf(l: Link, c: Call) {
    match c
    case DoConnect(dial) => T.ConnectResult(l.client, DialUp(dial))
    case DoDisconnect(call) => BackendDisconnectResult(l, call)
    case DoReconnect(call, dial) => T.ReconnectResult(T.Mqtt, BackendDisconnectResult(l, call), DialUp(dial))
    case DoPublish(_, _, _, call) => l.client && call.Succeeds?
    case DoSubscribe(_, _, call) => l.client && call.Succeeds?
    case AskConnected => l.client
  }

  function RequestsOf(config: MqttConfig, l: Link, c: Call): seq<Request> {
    var connect := ToConnect(config.broker, config.clientId);
    match c
    case DoConnect(_) => if l.client then [] else [connect]
    case DoDisconnect(_) => [ToDisconnect]
    case DoReconnect(call, _) => if BackendDisconnectResult(l, call) then [ToDisconnect, connect] else [ToDisconnect]
    case DoPublish(topic, payload, qos, _) =>
      if l.client then [ToPublish(Packet(topic, payload, if qos < 0 then config.qos else qos))] else []
    case DoSubscribe(topic, qos, _) =>
      if l.client then [ToSubscribe(topic, if qos < 0 then config.qos else qos)] else []
    case AskConnected => []
  }

  function PacketsOf(config: MqttConfig, l: Link, c: Call): seq<Packet> {
    if c.DoPublish? && l.client then [Packet(c.topic, c.payload, if c.qos < 0 then config.qos else c.qos)] else []
  }

  function AllRequests(config: MqttConfig, l: Link, calls: seq<Call>): seq<Request> {
    if calls == [] then []
    else
      var front := calls[..|calls| - 1];
      AllRequests(config, l, front) + RequestsOf(config, Replay(l, front), calls[|calls| - 1])
  }

  function AllPackets(config: MqttConfig, l: Link, calls: seq<Call>): seq<Packet> {
    if calls == [] then []
    else
      var front := calls[..|calls| - 1];
      AllPackets(config, l, front) + PacketsOf(config, Replay(l, front), calls[|calls| - 1])
  }

  // The record is of this call, made when the flags were `l`.
  predicate Tells(config: MqttConfig, r: T.CallRecord, l: Link, c: Call) {
    r == T.CallRecord(OpOf(c), l.client, ResultOf(l, c), After(l, c).client, RequestsOf(config, l, c) != [])
  }

  // Record `i` tells what call `i` did, in the state the calls before it left.
  predicate ToldOne(config: MqttConfig, history: seq<T.CallRecord>, l: Link, calls: seq<Call>, i: nat)
    requires i < |history| && i < |calls|
  {
    Tells(config, history[i], Replay(l, calls[..i]), calls[i])
  }

  ghost predicate TellsAll(config: MqttConfig, history: seq<T.CallRecord>, l: Link, calls: seq<Call>) {
    |history| == |calls| && forall i: nat :: i < |calls| ==> ToldOne(config, history, l, calls, i)
  }

  lemma TellsGrows(config: MqttConfig, history: seq<T.CallRecord>, l: Link, calls: seq<Call>, k: nat, r: T.CallRecord)
    requires k < |calls| && TellsAll(config, history, l, calls[..k])
    requires Tells(config, r, Replay(l, calls[..k]), calls[k])
    ensures TellsAll(config, history + [r], l, calls[..k + 1])
  {
    var now, all := calls[..k + 1], history + [r];
    forall i: nat | i <= k
      ensures ToldOne(config, all, l, now, i)
    {
      assert now[..i] == if i < k then calls[..k][..i] else calls[..k];
      if i < k {
        assert ToldOne(config, history, l, calls[..k], i);
      }
    }
  }

  // The whole history is of these calls, made one after another from `l`, and keeps the contract.
  ghost predicate Told(config: MqttConfig, history: seq<T.CallRecord>, l: Link, calls: seq<Call>) {
    && TellsAll(config, history, l, calls)
    && T.History(history, l.client)
    && T.Up(history, l.client) == Replay(l, calls).client
  }

  lemma ToldGrows(config: MqttConfig, history: seq<T.CallRecord>, l: Link, calls: seq<Call>, k: nat, r: T.CallRecord)
    requires k < |calls| && Told(config, history, l, calls[..k])
    requires T.Obeys(r) && Tells(config, r, Replay(l, calls[..k]), calls[k])
    ensures Told(config, history + [r], l, calls[..k + 1])
  {
    T.HistoryGrows(history, l.client, r);
    TellsGrows(config, history, l, calls, k, r);
    ReplayGrows(l, calls, k);
  }

  lemma RequestsGrow(config: MqttConfig, l: Link, calls: seq<Call>, k: nat, made: seq<Request>)
    requires k < |calls|
    ensures made + AllRequests(config, l, calls[..k + 1])
            == made + AllRequests(config, l, calls[..k]) + RequestsOf(config, Replay(l, calls[..k]), calls[k])
  {
    assert calls[..k + 1][..k] == calls[..k];
  }

  lemma PacketsGrow(config: MqttConfig, l: Link, calls: seq<Call>, k: nat, handed: seq<Packet>)
    requires k < |calls|
    ensures handed + AllPackets(config, l, calls[..k + 1])
            == handed + AllPackets(config, l, calls[..k]) + PacketsOf(config, Replay(l, calls[..k]), calls[k])
  {
    assert calls[..k + 1][..k] == calls[..k];
  }

  lemma ReplayGrows(l: Link, calls: seq<Call>, k: nat)
    requires k < |calls|
    ensures Replay(l, calls[..k + 1]) == After(Replay(l, calls[..k]), calls[k])
  {
    assert calls[..k + 1][..k] == calls[..k];
  }
}
