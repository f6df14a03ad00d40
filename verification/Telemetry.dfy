/** src/TelemetryManager/telemetry_manager.cpp, one call at a time: the offline queue. */
module Telemetry {
  import opened Basics
  import opened TelemetrySamples

  // ----- The queue -----

  // `answers(k)` is what the k-th publish of a flush returns.
  type Publishes = nat -> bool

  // What a flush makes of a queue: delivered messages, the one that was lost, and what stays.
  datatype Flushed = Flushed(delivered: seq<Message>, lost: seq<Message>, rest: seq<Message>, ok: bool)

  function Flush(queue: seq<Message>, answers: Publishes, k: nat): Flushed {
    if queue == [] then Flushed([], [], [], true)
    else if answers(k) then
      var f := Flush(queue[1..], answers, k + 1);
      f.(delivered := [queue[0]] + f.delivered)
    else Flushed([], [queue[0]], queue[1..], false)
  }

  // The exact law: the queue splits, in order, into what was delivered, nothing or the one message whose
  // publish failed, and what is left; and the split is where the first publish fails.
  lemma {:induction false} FlushLaw(queue: seq<Message>, answers: Publishes, k: nat)
    ensures var f := Flush(queue, answers, k);
      && queue == f.delivered + f.lost + f.rest
      && (forall j: nat :: k <= j < k + |f.delivered| ==> answers(j))
      && |f.lost| == (if f.ok then 0 else 1)
      && (f.ok ==> f.rest == [])
      && (!f.ok ==> !answers(k + |f.delivered|))
  {
    if queue != [] && answers(k) {
      var f := Flush(queue[1..], answers, k + 1);
      FlushLaw(queue[1..], answers, k + 1);
      assert queue == [queue[0]] + queue[1..];
      assert [queue[0]] + (f.delivered + f.lost + f.rest) == ([queue[0]] + f.delivered) + f.lost + f.rest;
    }
  }

  // A flush loses nothing exactly when every publish it needs succeeds.
  lemma LosslessIffAllPublish(queue: seq<Message>, answers: Publishes)
    ensures Flush(queue, answers, 0).lost == [] <==> forall j: nat :: j < |queue| ==> answers(j)
  {
    FlushLaw(queue, answers, 0);
    var f := Flush(queue, answers, 0);
    assert |queue| == |f.delivered| + |f.lost| + |f.rest|;
  }

  // The packets a client is handed for these messages, one after another.
  function AsPackets(topic: string, messages: seq<Message>): seq<Packet> {
    if messages == [] then []
    else AsPackets(topic, messages[..|messages| - 1]) + [Packet(topic, messages[|messages| - 1], 1)]
  }

  lemma {:induction false} AsPacketsAt(topic: string, messages: seq<Message>, i: nat)
    requires i < |messages|
    ensures |AsPackets(topic, messages)| == |messages|
    ensures AsPackets(topic, messages)[i] == Packet(topic, messages[i], 1)
  {
    var n := |messages| - 1;
    if n > 0 {
      AsPacketsAt(topic, messages[..n], if i < n then i else 0);
    }
  }

  // The queue, and its history: everything that was queued and everything that was popped, in order; what the client
  // confirmed; what was popped and not confirmed; and how many flushes hit a publish failure.
  datatype Ledger = Ledger(pending: seq<Message>, entered: seq<Message>, left: seq<Message>, delivered: seq<Message>,
                           lost: seq<Message>, failures: nat)

  const EMPTY: Ledger := Ledger([], [], [], [], [], 0)

  // The ledger and what the client has been handed, before and after one message of a flush, and after the rest of it.
  datatype State = State(ledger: Ledger, handed: seq<Packet>)

  function SendFirst(topic: string, s: State, ok: bool): State
    requires s.ledger.pending != []
  {
    var l, m := s.ledger, s.ledger.pending[0];
    State(Ledger(l.pending[1..], l.entered, l.left + [m], if ok then l.delivered + [m] else l.delivered,
                 if ok then l.lost else l.lost + [m], if ok then l.failures else l.failures + 1),
          s.handed + [Packet(topic, m, 1)])
  }

  function SendAll(topic: string, s: State, answers: Publishes, k: nat): State
    decreases |s.ledger.pending|
  {
    if s.ledger.pending == [] then s
    else if answers(k) then SendAll(topic, SendFirst(topic, s, true), answers, k + 1)
    else SendFirst(topic, s, false)
  }

  // Sending one by one comes to the split that `Flush` describes.
  lemma {:induction false} SendAllIsFlush(topic: string, s: State, answers: Publishes, k: nat)
    ensures var f, l := Flush(s.ledger.pending, answers, k), s.ledger;
      SendAll(topic, s, answers, k) ==
        State(Ledger(f.rest, l.entered, l.left + (f.delivered + f.lost), l.delivered + f.delivered, l.lost + f.lost,
                     l.failures + if f.ok then 0 else 1),
              s.handed + AsPackets(topic, f.delivered + f.lost))
    decreases |s.ledger.pending|
  {
    var q := s.ledger.pending;
    if q != [] {
      if answers(k) {
        SendAllIsFlush(topic, SendFirst(topic, s, true), answers, k + 1);
        FirstAndRest(topic, s, q[0], Flush(q[1..], answers, k + 1));
      } else {
        assert AsPackets(topic, [] + [q[0]]) == [Packet(topic, q[0], 1)];
      }
    }
  }

  lemma FirstAndRest(topic: string, s: State, m: Message, f: Flushed)
    ensures var l, first := s.ledger, f.(delivered := [m] + f.delivered);
      && l.left + [m] + (f.delivered + f.lost) == l.left + (first.delivered + first.lost)
      && l.delivered + [m] + f.delivered == l.delivered + first.delivered
      && s.handed + [Packet(topic, m, 1)] + AsPackets(topic, f.delivered + f.lost)
         == s.handed + AsPackets(topic, first.delivered + first.lost)
  {
    PacketsOfFirst(topic, m, f.delivered + f.lost);
    assert [m] + (f.delivered + f.lost) == [m] + f.delivered + f.lost;
  }

  lemma {:induction false} PacketsOfFirst(topic: string, m: Message, rest: seq<Message>)
    ensures AsPackets(topic, [m] + rest) == [Packet(topic, m, 1)] + AsPackets(topic, rest)
  {
    if rest != [] {
      var n := |rest| - 1;
      PacketsOfFirst(topic, m, rest[..n]);
      assert ([m] + rest)[..|rest|] == [m] + rest[..n];
    }
  }

  class TelemetryManager {
    const vehicleId: string
    const hasClient: bool
    const topic: string        // the telemetry topic of the client's configuration
    var pending: seq<Message>
    ghost var entered: seq<Message>
    ghost var left: seq<Message>
    ghost var delivered: seq<Message>
    ghost var lost: seq<Message>
    ghost var failures: nat
    ghost var handed: seq<Packet>  // what the client has been asked to publish

    ghost function View(): Ledger
      reads this
    {
      Ledger(pending, entered, left, delivered, lost, failures)
    }

    ghost function Now(): State
      reads this
    {
      State(View(), handed)
    }

    constructor (vehicleId: string, hasClient: bool, topic: string)
      ensures this.vehicleId == vehicleId && this.hasClient == hasClient && this.topic == topic
      ensures View() == EMPTY && pending == [] && handed == []
    {
      this.vehicleId := vehicleId;
      this.hasClient := hasClient;
      this.topic := topic;
      pending, entered, left, delivered, lost, failures, handed := [], [], [], [], [], 0, [];
    }

    // The demo readings, and the text they are printed as. They never stand in the way of reading the sample back; the
    // identifier and the clock text might.
    function GenerateSample(timestamp: string): (s: Sample)
      ensures s.vehicleId == vehicleId && s.timestamp == timestamp
      ensures s.speed == "80" && s.rpm == "2500" && s.battery == "12.6" && s.fuel == "70"
      ensures Serialize(s) == "{\"vehicle_id\":\"" + vehicleId + "\",\"timestamp\":\"" + timestamp
                              + "\",\"speed\":" + "80" + ",\"rpm\":" + "2500" + ",\"battery\":" + "12.6"
                              + ",\"fuel\":" + "70" + "}"
      ensures forall r: Reader :: Plain(r, s) <==> Takes(r, Quoted, vehicleId) && Takes(r, Quoted, timestamp)
      ensures Takes(Json, Quoted, vehicleId) && Takes(Json, Quoted, timestamp) ==>
                Parse(Json, Serialize(s)) == Some(Sample(vehicleId, timestamp, "80", "2500", "12.6", "70"))
    {
      var s := Sample(vehicleId, timestamp, SAMPLE_SPEED, SAMPLE_RPM, SAMPLE_BATTERY, SAMPLE_FUEL);
      ReadingsAreTaken(s, Json);
      ReadingsAreTaken(s, Raw);
      ReadsBackIffPlain(Json, s);
      s
    }

    // The sample is delivered now or queued last; the result is true either way.
    method PublishSample(sample: Sample, online: bool, published: bool) returns (ok: bool)
      modifies this
      ensures ok
      ensures lost == old(lost) && left == old(left) && failures == old(failures)
      ensures if hasClient && online && published
              then && delivered == old(delivered) + [Serialize(sample)]
                   && pending == old(pending) && entered == old(entered)
              else && delivered == old(delivered)
                   && pending == old(pending) + [Serialize(sample)] && entered == old(entered) + [Serialize(sample)]
      ensures handed == old(handed) + if hasClient && online then [Packet(topic, Serialize(sample), 1)] else []
    {
      var payload := Serialize(sample);
      if hasClient && online {
        handed := handed + [Packet(topic, payload, 1)];
        if !published {
          ok := QueueMessage(payload);
          return;
        }
        delivered := delivered + [payload];
        return true;
      }
      ok := QueueMessage(payload);
    }

    method QueueMessage(message: Message) returns (ok: bool)
      modifies this`pending, this`entered
      ensures ok && pending == old(pending) + [message] && entered == old(entered) + [message]
    {
      pending, entered := pending + [message], entered + [message];
      return true;
    }

    // Each message is popped before it is published, so the one whose publish fails is gone.
    method FlushQueue(online: bool, answers: Publishes) returns (ok: bool)
      modifies this
      ensures var f := Flush(old(pending), answers, 0);
        if hasClient && online
        then && ok == f.ok && pending == f.rest
             && delivered == old(delivered) + f.delivered && lost == old(lost) + f.lost
             && left == old(left) + (f.delivered + f.lost) && failures == old(failures) + (if f.ok then 0 else 1)
             && handed == old(handed) + AsPackets(topic, f.delivered + f.lost)
        else !ok && View() == old(View()) && handed == old(handed)
      ensures entered == old(entered)
    {
      ok := false;
      if hasClient && online {
        ok := FlushAll(answers);
      }
    }

    // The loop.
    method FlushAll(answers: Publishes) returns (ok: bool)
      modifies this
      ensures var f := Flush(old(pending), answers, 0);
        && ok == f.ok && pending == f.rest
        && delivered == old(delivered) + f.delivered && lost == old(lost) + f.lost
        && left == old(left) + (f.delivered + f.lost) && failures == old(failures) + (if f.ok then 0 else 1)
        && handed == old(handed) + AsPackets(topic, f.delivered + f.lost)
      ensures entered == old(entered)
    {
      ghost var start := Now();
      var k := 0;
      while pending != []
        invariant SendAll(topic, Now(), answers, k) == SendAll(topic, start, answers, 0)
        invariant Flush(pending, answers, k).ok == Flush(start.ledger.pending, answers, 0).ok
        decreases |pending|
      {
        ok := PublishNext(answers(k));
        if !ok {
          SendAllIsFlush(topic, start, answers, 0);
          return false;
        }
        k := k + 1;
      }
      SendAllIsFlush(topic, start, answers, 0);
      return true;
    }

    // What the loop does for one message.
    method PublishNext(published: bool) returns (ok: bool)
      requires pending != []
      modifies this
      ensures ok == published && Now() == SendFirst(topic, old(Now()), ok)
    {
      var payload := pending[0];
      pending, left := pending[1..], left + [payload];
      handed := handed + [Packet(topic, payload, 1)];
      if published {
        delivered := delivered + [payload];
      } else {
        lost, failures := lost + [payload], failures + 1;
      }
      return published;
    }

    method PendingCount() returns (n: nat)
      ensures n == |pending|
    {
      n := |pending|;
    }

    method Perform(c: Call) returns (ok: bool)
      modifies this
      ensures View() == After(hasClient, old(View()), c)
    {
      match c
      case Publish(sample, online, published) => ok := PublishSample(sample, online, published);
      case Queue(m) => ok := QueueMessage(m);
      case FlushNow(online, answers) => ok := FlushQueue(online, answers);
    }

    // Any series of calls leaves the ledger that the calls account for.
    method PerformAll(calls: seq<Call>)
      modifies this
      ensures View() == Replay(hasClient, old(View()), calls)
    {
      for k := 0 to |calls|
        invariant View() == Replay(hasClient, old(View()), calls[..k])
      {
        var _ := Perform(calls[k]);
        assert calls[..k + 1][..k] == calls[..k];
      }
      assert calls[..|calls|] == calls;
    }
  }

  // ----- Any series of calls -----

  datatype Call =
    | Publish(sample: Sample, online: bool, published: bool) | Queue(m: Message)
    | FlushNow(online: bool, answers: Publishes)

  function After(hasClient: bool, l: Ledger, c: Call): Ledger {
    match c
    case Publish(sample, online, published) =>
      var m := Serialize(sample);
      if hasClient && online && published then l.(delivered := l.delivered + [m])
      else l.(pending := l.pending + [m], entered := l.entered + [m])
    case Queue(m) => l.(pending := l.pending + [m], entered := l.entered + [m])
    case FlushNow(online, answers) =>
      if !hasClient || !online then l
      else
        var f := Flush(l.pending, answers, 0);
        l.(pending := f.rest, left := l.left + (f.delivered + f.lost), delivered := l.delivered + f.delivered,
           lost := l.lost + f.lost, failures := l.failures + if f.ok then 0 else 1)
  }

  function Replay(hasClient: bool, l: Ledger, calls: seq<Call>): Ledger {
    if calls == [] then l
    else After(hasClient, Replay(hasClient, l, calls[..|calls| - 1]), calls[|calls| - 1])
  }

  // Over any series of calls the queue stays first in, first out, and as many messages are lost as flushes
  // hit a publish failure.
  lemma {:induction false} LostCountsFailedFlushes(hasClient: bool, calls: seq<Call>)
    ensures var l := Replay(hasClient, EMPTY, calls); l.entered == l.left + l.pending && |l.lost| == l.failures
  {
    if calls != [] {
      var n := |calls| - 1;
      var l := Replay(hasClient, EMPTY, calls[..n]);
      LostCountsFailedFlushes(hasClient, calls[..n]);
      if calls[n].FlushNow? {
        FlushLaw(l.pending, calls[n].answers, 0);
      }
    }
  }
}
