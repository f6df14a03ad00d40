/** The transport interface shared by both clients: include/connected_vehicle_platform/mqtt_client.hpp. */
module Transports {
  datatype Kind = Mqtt | Someip

  // What `connect` returns, which is also the connection flag it leaves: a connected client returns at once,
  // otherwise the answer of the backend or socket decides.
  predicate ConnectResult(connected: bool, answer: bool) {
    connected || answer
  }

  // What `disconnect` returns. The flag it leaves is always false.
  predicate DisconnectResult(kind: Kind, answer: bool) {
    kind.Someip? || answer
  }

  // MqttClient::reconnect gives up when its disconnect fails; SomeipClient::reconnect ignores that result.
  predicate ReconnectResult(kind: Kind, disconnectAnswer: bool, connectAnswer: bool) {
    DisconnectResult(kind, disconnectAnswer) && connectAnswer
  }

  // ----- The contract a caller sees, one record per call -----

  datatype Operation = Connect | Disconnect | Reconnect | Publish | Subscribe | IsConnected

  // What the call returned, the connection before and after it, and whether it got through to the backend (or to
  // the socket): whether a call of it was counted in between.
  datatype CallRecord = CallRecord(op: Operation, before: bool, result: bool, after: bool, reached: bool)

  predicate Obeys(c: CallRecord) {
    match c.op
    case Connect => c.result == c.after && (c.before ==> c.after) && c.reached == !c.before
    case Reconnect => c.result == c.after && c.reached
    case Disconnect => !c.after
    case Publish => c.after == c.before && (c.result ==> c.before) && c.reached == c.before
    case Subscribe => c.after == c.before && (c.result ==> c.before) && (c.reached ==> c.before)
    case IsConnected => c.after == c.before == c.result && !c.reached
  }

  // A history of calls on one transport object: each obeys the contract and begins where the last one ended.
  ghost predicate History(calls: seq<CallRecord>, start: bool) {
    forall i :: 0 <= i < |calls| ==> Obeys(calls[i]) && calls[i].before == Up(calls[..i], start)
  }

  // Whether the transport is connected after these calls.
  predicate Up(calls: seq<CallRecord>, start: bool) {
    if calls == [] then start else calls[|calls| - 1].after
  }

  lemma HistoryGrows(calls: seq<CallRecord>, start: bool, c: CallRecord)
    requires History(calls, start) && Obeys(c) && c.before == Up(calls, start)
    ensures History(calls + [c], start)
  {
    var all := calls + [c];
    forall i | 0 <= i < |all|
      ensures Obeys(all[i]) && all[i].before == Up(all[..i], start)
    {
      assert all[..i] == if i < |calls| then calls[..i] else calls;
    }
  }

  // ----- What follows from the contract alone, and so holds of both clients -----

  predicate BringsUp(c: CallRecord) {
    (c.op.Connect? || c.op.Reconnect?) && c.result
  }

  predicate TakesDown(c: CallRecord) {
    c.op.Disconnect? || (c.op.Reconnect? && !c.result)
  }

  // Call `i` returned true from a connect or reconnect, and nothing later took the connection down.
  ghost predicate StillUp(calls: seq<CallRecord>, i: nat) {
    i < |calls| && BringsUp(calls[i]) && forall j :: i < j < |calls| ==> !TakesDown(calls[j])
  }

  // The transport is up exactly when some connect or reconnect returned true and neither a disconnect, whatever
  // it returned, nor a failed reconnect came since: no publish, subscribe or query ever changes it.
  lemma {:induction false} OnlyConnectsAndDisconnectsMatter(calls: seq<CallRecord>)
    requires History(calls, false)
    ensures Up(calls, false) <==> exists i: nat :: StillUp(calls, i)
  {
    if calls != [] {
      var n := |calls| - 1;
      var front := calls[..n];
      HistoryShrinks(calls, false, n);
      OnlyConnectsAndDisconnectsMatter(front);
      assert Obeys(calls[n]) && calls[n].before == Up(front, false);
      if BringsUp(calls[n]) {
        assert StillUp(calls, n);
      } else if Up(front, false) && !TakesDown(calls[n]) {
        var i: nat :| StillUp(front, i);
        StillUpOneMore(calls, i);
      } else if i: nat :| StillUp(calls, i) {
        assert StillUp(front, i);
      }
    }
  }

  lemma StillUpOneMore(calls: seq<CallRecord>, i: nat)
    requires calls != [] && StillUp(calls[..|calls| - 1], i) && !TakesDown(calls[|calls| - 1])
    ensures StillUp(calls, i)
  {
    var n := |calls| - 1;
    assert forall j :: 0 <= j < n ==> calls[j] == calls[..n][j];
  }

  lemma HistoryShrinks(calls: seq<CallRecord>, start: bool, n: nat)
    requires History(calls, start) && n <= |calls|
    ensures History(calls[..n], start)
  {
    forall i | 0 <= i < n
      ensures Obeys(calls[..n][i]) && calls[..n][i].before == Up(calls[..n][..i], start)
    {
      assert calls[..n][..i] == calls[..i];
    }
  }

  // So a publish or subscribe gets through only while such a connection is standing, and cannot succeed otherwise.
  lemma NothingGetsThroughOffline(calls: seq<CallRecord>, k: nat)
    requires History(calls, false) && k < |calls|
    requires calls[k].op.Publish? || calls[k].op.Subscribe?
    requires calls[k].reached || calls[k].result
    ensures exists i: nat :: StillUp(calls[..k], i)
  {
    HistoryShrinks(calls, false, k);
    OnlyConnectsAndDisconnectsMatter(calls[..k]);
    assert Obeys(calls[k]) && calls[k].before == Up(calls[..k], false);
  }
}
