/** src/SomeipClient/someip_client.cpp: a TCP connection owned by one client. */
module SomeipClients {
  import opened Frames
  import T = Transports

  const INVALID_FD: int := -1

  // What this client has asked of the kernel: the descriptors it holds open, and the calls it has made.
  // `badCloses` counts closes of a descriptor that was not open.
  datatype Kernel = Kernel(open: set<int>, opens: nat, closes: nat, badCloses: nat)

  function OpenFd(k: Kernel, fd: int): Kernel {
    k.(open := k.open + {fd}, opens := k.opens + 1)
  }

  function CloseFd(k: Kernel, fd: int): Kernel {
    if fd in k.open then k.(open := k.open - {fd}, closes := k.closes + 1) else k.(badCloses := k.badCloses + 1)
  }

  // How an attempt to connect goes: socket() fails, or inet_pton or ::connect fail after it, or all succeed.
  datatype Dial = NoSocket | BadAddress(fd: nat) | Refused(fd: nat) | Connected(fd: nat)

  // socket() never returns a descriptor that is open.
  predicate CanDial(k: Kernel, dial: Dial) {
    dial.NoSocket? || dial.fd !in k.open
  }

  datatype Socket = Socket(fd: int, connected: bool, kernel: Kernel)

  const FRESH: Socket := Socket(INVALID_FD, false, Kernel({}, 0, 0, 0))

  function AfterConnect(s: Socket, dial: Dial): Socket {
    if s.connected then s
    else
      match dial
      case NoSocket => s.(fd := INVALID_FD)
      case BadAddress(fd) => s.(fd := INVALID_FD, kernel := CloseFd(OpenFd(s.kernel, fd), fd))
      case Refused(fd) => s.(fd := INVALID_FD, kernel := CloseFd(OpenFd(s.kernel, fd), fd))
      case Connected(fd) => Socket(fd, true, OpenFd(s.kernel, fd))
  }

  function AfterDisconnect(s: Socket): Socket {
    Socket(INVALID_FD, false, if s.fd >= 0 then CloseFd(s.kernel, s.fd) else s.kernel)
  }

  // The descriptor is open exactly while the client is connected, and is closed exactly once.
  predicate SocketFits(s: Socket) {
    && (s.connected <==> s.fd >= 0)
    && s.kernel.open == (if s.connected then {s.fd} else {})
    && s.kernel.opens == s.kernel.closes + (if s.connected then 1 else 0)
    && s.kernel.badCloses == 0
  }

  class SomeipClient {
    const sender: Sender
    var fd: int
    var connected: bool
    var kernel: Kernel
    var syscalls: nat           // how often socket(), connect(), send() or close() has been called
    var wire: seq<Byte>         // what has been sent on the present connection
    ghost var sends: seq<Send>  // the publishes that sent it

    // The bytes on the wire are those of the publishes made on it, in order.
    ghost predicate WireFits()
      reads this
    {
      && (forall i :: 0 <= i < |sends| ==> Possible(sends[i]))
      && wire == Wire(sender, sends)
    }

    function View(): Socket
      reads this
    {
      Socket(fd, connected, kernel)
    }

    constructor (sender: Sender)
      ensures this.sender == sender && View() == FRESH && sends == [] && WireFits()
    {
      this.sender := sender;
      fd, connected, kernel, syscalls, wire := INVALID_FD, false, FRESH.kernel, 0, [];
      sends := [];
    }

    // A call whose caller saw `ok` obeys the transport contract. Whether it got through to the socket is measured
    // by the system calls counted since the call began.
    twostate predicate Obeyed(op: T.Operation, ok: bool)
      requires old(SocketFits(View())) && SocketFits(View())
      reads this
    {
      T.Obeys(T.CallRecord(op, old(IsConnected()), ok, IsConnected(), syscalls != old(syscalls)))
    }

    method Connect(dial: Dial) returns (ok: bool)
      requires SocketFits(View()) && WireFits() && CanDial(kernel, dial)
      modifies this
      ensures View() == AfterConnect(old(View()), dial) && SocketFits(View())
      ensures ok == T.ConnectResult(old(connected), dial.Connected?)
      ensures ok == connected == (old(connected) || dial.Connected?)
      ensures old(connected) ==> View() == old(View()) && syscalls == old(syscalls)
      ensures !old(connected) && ok ==> fd == dial.fd && kernel.open == {dial.fd}
      ensures !ok ==> fd == -1 && kernel.open == {}
      ensures !old(connected) ==>
                && kernel.opens == old(kernel.opens) + (if dial.NoSocket? then 0 else 1)
                && syscalls == old(syscalls) + (if dial.NoSocket? then 1 else if dial.Refused? then 3 else 2)
      ensures WireFits() && sends == if old(connected) || !ok then old(sends) else []
      ensures Obeyed(T.Connect, ok) && syscalls == old(syscalls) + CallsMade(old(View()), DoConnect(dial))
    {
      if connected {
        return true;
      }
      syscalls := syscalls + 1;
      if dial.NoSocket? {
        fd := INVALID_FD;
        return false;
      }
      fd, kernel := dial.fd, OpenFd(kernel, dial.fd);
      if dial.BadAddress? {
        kernel, syscalls := CloseFd(kernel, fd), syscalls + 1;
        fd := INVALID_FD;
        return false;
      }
      syscalls := syscalls + 1;
      if dial.Refused? {
        kernel, syscalls := CloseFd(kernel, fd), syscalls + 1;
        fd := INVALID_FD;
        return false;
      }
      connected := true;
      wire, sends := [], [];
      return true;
    }

    method Disconnect() returns (ok: bool)
      requires SocketFits(View()) && WireFits()
      modifies this
      ensures View() == AfterDisconnect(old(View())) && SocketFits(View())
      ensures ok && !connected && fd == -1 && kernel.open == {}
      ensures kernel.opens == old(kernel.opens) && syscalls == old(syscalls) + (if old(connected) then 1 else 0)
      ensures WireFits() && sends == old(sends)
      ensures Obeyed(T.Disconnect, ok) && syscalls == old(syscalls) + CallsMade(old(View()), DoDisconnect)
    {
      if fd >= 0 {
        kernel, syscalls := CloseFd(kernel, fd), syscalls + 1;
      }
      fd := INVALID_FD;
      connected := false;
      return true;
    }

    // The disconnect comes first, so the descriptor it frees may be the one the dial gets.
    method Reconnect(dial: Dial) returns (ok: bool)
      requires SocketFits(View()) && WireFits()
      modifies this
      ensures WireFits() && (ok ==> sends == [])
      ensures View() == AfterConnect(AfterDisconnect(old(View())), dial) && SocketFits(View())
      ensures ok == T.ReconnectResult(T.Someip, false, dial.Connected?)
      ensures ok == connected == dial.Connected?
      ensures ok ==> fd == dial.fd && kernel.open == {dial.fd}
      ensures kernel.opens == old(kernel.opens) + (if dial.NoSocket? then 0 else 1)
      ensures Obeyed(T.Reconnect, ok) && syscalls == old(syscalls) + CallsMade(old(View()), DoReconnect(dial))
    {
      var _ := Disconnect();
      ok := Connect(dial);
    }

    // `sent` is what send() returns. Whatever it is, the connection stays up.
    method Publish(payload: seq<Byte>, sent: int) returns (ok: bool)
      requires SocketFits(View()) && WireFits() && Possible(Send(payload, sent))
      modifies this`wire, this`sends, this`syscalls
      ensures View() == old(View()) && WireFits()
      ensures Obeyed(T.Publish, ok) && syscalls == old(syscalls) + if connected then 1 else 0
      ensures ok == (connected && sent == 8 + |payload|)
      ensures LaidOut(sender, payload, Frame(sender, payload))
      ensures wire == old(wire) + if connected && sent > 0 then Frame(sender, payload)[..sent] else []
      ensures sends == if connected then old(sends) + [Send(payload, sent)] else old(sends)
    {
      FrameIsLaidOut(sender, payload);
      if !connected || fd < 0 {
        return false;
      }
      var frame := BuildFrame(sender, payload);
      WireGrows(sender, sends, Send(payload, sent));
      if sent > 0 {
        assert frame[..sent] == frame[..][..sent];
        wire := wire + frame[..sent];
      }
      sends, syscalls := sends + [Send(payload, sent)], syscalls + 1;
      return sent == frame.Length;
    }

    // Asks nobody: it answers whether the client is connected.
    method Subscribe() returns (ok: bool)
      requires SocketFits(View())
      ensures ok == connected
      ensures Obeyed(T.Subscribe, ok)
    {
      return IsConnected();
    }

    predicate IsConnected()
      requires SocketFits(View())
      reads this
      ensures IsConnected() == connected
    {
      connected && fd >= 0
    }

    method Perform(c: Call) returns (ok: bool)
      requires SocketFits(View()) && WireFits() && CanCall(View(), c)
      modifies this
      ensures SocketFits(View()) && WireFits() && View() == After(old(View()), c)
      ensures ok == ResultOf(old(View()), c) && syscalls == old(syscalls) + CallsMade(old(View()), c)
      ensures Obeyed(OpOf(c), ok)
    {
      match c
      case DoConnect(dial) => ok := Connect(dial);
      case DoDisconnect => ok := Disconnect();
      case DoReconnect(dial) => ok := Reconnect(dial);
      case DoPublish(payload, sent) => ok := Publish(payload, sent);
      case DoSubscribe => ok := Subscribe();
      case AskConnected => ok := IsConnected();
    }

    // The call as its caller sees it.
    method Recorded(c: Call) returns (record: T.CallRecord)
      requires SocketFits(View()) && WireFits() && CanCall(View(), c)
      modifies this
      ensures SocketFits(View()) && WireFits() && View() == After(old(View()), c)
      ensures T.Obeys(record) && Tells(record, old(View()), c)
      ensures record.reached == (syscalls != old(syscalls))
      ensures syscalls == old(syscalls) + CallsMade(old(View()), c)
    {
      var before, counted := IsConnected(), syscalls;
      var ok := Perform(c);
      record := T.CallRecord(OpOf(c), before, ok, IsConnected(), syscalls != counted);
    }

    // Any calls in any order make a history of the transport contract, the one the MQTT client meets too, told as it
    // was: `Tells` fixes each record, and they account for every system call made.
    method PerformAll(calls: seq<Call>) returns (history: seq<T.CallRecord>)
      requires SocketFits(View()) && WireFits() && Possibly(View(), calls)
      modifies this
      ensures SocketFits(View()) && WireFits() && View() == Replay(old(View()), calls)
      ensures T.History(history, old(IsConnected())) && TellsAll(history, old(View()), calls)
      ensures T.Up(history, old(IsConnected())) == IsConnected()
      ensures syscalls == old(syscalls) + AllCallsMade(old(View()), calls)
    {
      ghost var start, made := View(), syscalls;
      history := [];
      for k := 0 to |calls|
        invariant SocketFits(View()) && WireFits() && View() == Replay(start, calls[..k])
        invariant Told(history, start, calls[..k])
        invariant syscalls == made + AllCallsMade(start, calls[..k])
      {
        NextIsPossible(start, calls, k);
        var c := Recorded(calls[k]);
        ToldGrows(history, start, calls, k, c);
        ReplayGrows(start, calls, k);
        history := history + [c];
      }
      assert calls[..|calls|] == calls;
    }
  }

  // ----- Every sequence of calls -----

  datatype Call = DoConnect(dial: Dial) | DoDisconnect | DoReconnect(dial: Dial)
                | DoPublish(payload: seq<Byte>, sent: int) | DoSubscribe | AskConnected

  predicate CanCall(s: Socket, c: Call) {
    match c
    case DoConnect(dial) => CanDial(s.kernel, dial)
    case DoPublish(payload, sent) => Possible(Send(payload, sent))
    case _ => true
  }

  function OpOf(c: Call): T.Operation {
    match c
    case DoConnect(_) => T.Connect
    case DoDisconnect => T.Disconnect
    case DoReconnect(_) => T.Reconnect
    case DoPublish(_, _) => T.Publish
    case DoSubscribe => T.Subscribe
    case AskConnected => T.IsConnected
  }

  function After(s: Socket, c: Call): Socket {
    match c
    case DoConnect(dial) => AfterConnect(s, dial)
    case DoDisconnect => AfterDisconnect(s)
    case DoReconnect(dial) => AfterConnect(AfterDisconnect(s), dial)
    case _ => s
  }

  function Replay(s: Socket, calls: seq<Call>): Socket {
    if calls == [] then s else After(Replay(s, calls[..|calls| - 1]), calls[|calls| - 1])
  }

  ghost predicate Possibly(s: Socket, calls: seq<Call>) {
    forall i :: 0 <= i < |calls| ==> CanCall(Replay(s, calls[..i]), calls[i])
  }

  lemma NextIsPossible(s: Socket, calls: seq<Call>, k: nat)
    requires Possibly(s, calls) && k < |calls|
    ensures CanCall(Replay(s, calls[..k]), calls[k])
  {
  }

  // What the call returns, and how many system calls it makes.
  predicate ResultOf(s: Socket, c: Call) {
    match c
    case DoConnect(dial) => T.ConnectResult(s.connected, dial.Connected?)
    case DoDisconnect => T.DisconnectResult(T.Someip, false)
    case DoReconnect(dial) => T.ReconnectResult(T.Someip, false, dial.Connected?)
    case DoPublish(payload, sent) => s.connected && Succeeded(Send(payload, sent))
    case DoSubscribe => s.connected
    case AskConnected => s.connected
  }

  function DialCalls(dial: Dial): nat {
    match dial
    case NoSocket => 1       // socket()
    case BadAddress(_) => 2  // and close()
    case Refused(_) => 3     // and connect() before it
    case Connected(_) => 2
  }

  function CallsMade(s: Socket, c: Call): nat {
    match c
    case DoConnect(dial) => if s.connected then 0 else DialCalls(dial)
    case DoDisconnect => if s.fd >= 0 then 1 else 0
    case DoReconnect(dial) => (if s.fd >= 0 then 1 else 0) + DialCalls(dial)
    case DoPublish(_, _) => if s.connected then 1 else 0
    case DoSubscribe => 0
    case AskConnected => 0
  }

  function AllCallsMade(s: Socket, calls: seq<Call>): nat {
    if calls == [] then 0
    else
      var front := calls[..|calls| - 1];
      AllCallsMade(s, front) + CallsMade(Replay(s, front), calls[|calls| - 1])
  }

  // The record is of this call, made in state `s`.
  predicate Tells(r: T.CallRecord, s: Socket, c: Call) {
    r == T.CallRecord(OpOf(c), s.connected, ResultOf(s, c), After(s, c).connected, CallsMade(s, c) > 0)
  }

  ghost predicate TellsAll(history: seq<T.CallRecord>, s: Socket, calls: seq<Call>) {
    |history| == |calls| && forall i :: 0 <= i < |calls| ==> Tells(history[i], Replay(s, calls[..i]), calls[i])
  }

  lemma TellsGrows(history: seq<T.CallRecord>, s: Socket, calls: seq<Call>, k: nat, r: T.CallRecord)
    requires k < |calls| && TellsAll(history, s, calls[..k]) && Tells(r, Replay(s, calls[..k]), calls[k])
    ensures TellsAll(history + [r], s, calls[..k + 1])
  {
    forall i | 0 <= i <= k
      ensures Tells((history + [r])[i], Replay(s, calls[..k + 1][..i]), calls[..k + 1][i])
    {
      assert calls[..k + 1][..i] == calls[..k][..i];
      assert calls[..k][..k] == calls[..k];
    }
  }

  // The whole history is of these calls, made one after another from `s`, and keeps the contract.
  ghost predicate Told(history: seq<T.CallRecord>, s: Socket, calls: seq<Call>) {
    && TellsAll(history, s, calls)
    && T.History(history, s.connected)
    && T.Up(history, s.connected) == Replay(s, calls).connected
  }

  lemma ToldGrows(history: seq<T.CallRecord>, s: Socket, calls: seq<Call>, k: nat, r: T.CallRecord)
    requires k < |calls| && Told(history, s, calls[..k])
    requires T.Obeys(r) && Tells(r, Replay(s, calls[..k]), calls[k])
    ensures Told(history + [r], s, calls[..k + 1])
  {
    T.HistoryGrows(history, s.connected, r);
    TellsGrows(history, s, calls, k, r);
    ReplayGrows(s, calls, k);
  }

  lemma ReplayGrows(s: Socket, calls: seq<Call>, k: nat)
    requires k < |calls|
    ensures Replay(s, calls[..k + 1]) == After(Replay(s, calls[..k]), calls[k])
    ensures AllCallsMade(s, calls[..k + 1]) == AllCallsMade(s, calls[..k]) + CallsMade(Replay(s, calls[..k]), calls[k])
  {
    assert calls[..k + 1][..k] == calls[..k];
  }

  lemma CallKeepsFit(s: Socket, c: Call)
    requires SocketFits(s) && CanCall(s, c)
    ensures SocketFits(After(s, c))
  {
    SocketFitsAfterDisconnect(s);
  }

  lemma SocketFitsAfterDisconnect(s: Socket)
    requires SocketFits(s)
    ensures SocketFits(AfterDisconnect(s)) && AfterDisconnect(s).kernel.open == {}
  {
  }

  // Through every failure branch of every sequence of calls: connected exactly while a descriptor is held,
  // opens equal closes plus one if connected, no descriptor closed twice or left open.
  lemma {:induction false} DescriptorsBalance(calls: seq<Call>)
    requires Possibly(FRESH, calls)
    ensures var s := Replay(FRESH, calls);
      && (s.connected <==> s.fd >= 0)
      && s.kernel.open == (if s.connected then {s.fd} else {})
      && s.kernel.opens == s.kernel.closes + (if s.connected then 1 else 0)
      && s.kernel.badCloses == 0
  {
    if calls != [] {
      var n := |calls| - 1;
      forall i | 0 <= i < n
        ensures CanCall(Replay(FRESH, calls[..n][..i]), calls[..n][i])
      {
        assert calls[..n][..i] == calls[..i];
      }
      DescriptorsBalance(calls[..n]);
      CallKeepsFit(Replay(FRESH, calls[..n]), calls[n]);
    }
  }

  // A reconnect always dials, and ends up connected exactly when that succeeds.
  lemma ReconnectAlwaysDials(s: Socket, dial: Dial)
    requires SocketFits(s)
    ensures After(s, DoReconnect(dial)).connected == dial.Connected?
    ensures After(s, DoReconnect(dial)).kernel.opens == s.kernel.opens + if dial.NoSocket? then 0 else 1
  {
  }
}
