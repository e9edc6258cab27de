/** Borrowing a receiver for one collection (IqCollector::collect). */
module Collector {
  import opened Options
  import opened TaskChannel
  import UdpReceiver

  // ----- sockets, as the operations done on them

  type Handle = nat

  datatype Operation =
    | Opened(fd: Handle)
    | Used(fd: Handle)
    | Closed(fd: Handle)
    | Requested(id: string)
    | StopCalled(taskId: string)

  function Apply(open: set<Handle>, op: Operation): set<Handle> {
    if op.Opened? then open + {op.fd} else if op.Closed? then open - {op.fd} else open
  }

  function OpenAfter(log: seq<Operation>): set<Handle> {
    if log == [] then {} else Apply(OpenAfter(log[..|log| - 1]), log[|log| - 1])
  }

  /** The system never hands out an open handle; the program may only use and close open ones. */
  predicate Permitted(open: set<Handle>, op: Operation) {
    && (op.Opened? ==> op.fd !in open)
    && (op.Used? || op.Closed? ==> op.fd in open)
  }

  ghost predicate Legal(log: seq<Operation>) {
    forall k :: 0 <= k < |log| ==> Permitted(OpenAfter(log[..k]), log[k])
  }

  lemma LogStep(log: seq<Operation>, op: Operation)
    ensures OpenAfter(log + [op]) == Apply(OpenAfter(log), op)
    ensures Legal(log) && Permitted(OpenAfter(log), op) ==> Legal(log + [op])
  {
    var longer := log + [op];
    assert longer[..|log|] == log;
    if Legal(log) && Permitted(OpenAfter(log), op) {
      forall k | 0 <= k < |longer|
        ensures Permitted(OpenAfter(longer[..k]), longer[k])
      {
        if k < |log| {
          assert longer[..k] == log[..k];
        }
      }
    }
  }

  function Openings(log: seq<Operation>, fd: Handle): nat {
    if log == [] then 0 else Openings(log[..|log| - 1], fd) + if log[|log| - 1] == Opened(fd) then 1 else 0
  }

  function Closings(log: seq<Operation>, fd: Handle): nat {
    if log == [] then 0 else Closings(log[..|log| - 1], fd) + if log[|log| - 1] == Closed(fd) then 1 else 0
  }

  lemma {:induction false} LegalPrefix(log: seq<Operation>, n: nat)
    requires Legal(log) && n <= |log|
    ensures Legal(log[..n])
  {
    forall k | 0 <= k < n
      ensures Permitted(OpenAfter(log[..n][..k]), log[..n][k])
    {
      assert log[..n][..k] == log[..k];
    }
  }

  /** In a legal log a handle is closed exactly as often as it was opened, once more while it is open. */
  lemma {:induction false} ClosedAsOftenAsOpened(log: seq<Operation>, fd: Handle)
    requires Legal(log)
    ensures Openings(log, fd) == Closings(log, fd) + if fd in OpenAfter(log) then 1 else 0
  {
    if log == [] {
    } else {
      var n := |log| - 1;
      LegalPrefix(log, n);
      ClosedAsOftenAsOpened(log[..n], fd);
      assert Permitted(OpenAfter(log[..n]), log[n]);
    }
  }

  lemma {:induction false} StaysClosed(log: seq<Operation>, fd: Handle, i: nat, j: nat)
    requires i <= j <= |log| && fd !in OpenAfter(log[..i])
    requires forall k :: i <= k < j ==> log[k] != Opened(fd)
    ensures fd !in OpenAfter(log[..j])
  {
    if i == j {
    } else {
      StaysClosed(log, fd, i, j - 1);
      assert log[..j][..j - 1] == log[..j - 1];
    }
  }

  /** In a legal log a handle is not used, nor closed again, after its close, unless it was reopened. */
  lemma NotUsedAfterClose(log: seq<Operation>, fd: Handle, i: nat, j: nat)
    requires Legal(log) && i < j < |log| && log[i] == Closed(fd)
    requires log[j] == Used(fd) || log[j] == Closed(fd)
    ensures exists k :: i < k < j && log[k] == Opened(fd)
  {
    assert log[..i + 1][..i] == log[..i];
    if forall k :: i + 1 <= k < j ==> log[k] != Opened(fd) {
      StaysClosed(log, fd, i + 1, j);
    }
    assert Permitted(OpenAfter(log[..j]), log[j]);
  }

  // ----- what the environment decides

  /** How opening and binding a socket turns out. */
  datatype OpenOutcome = NoSocket | BindFailed(fd: Handle) | Bound(fd: Handle)

  predicate Fresh(o: OpenOutcome, open: set<Handle>) {
    o.NoSocket? || o.fd !in open
  }

  /**
   Everything outside the program that one collection meets: both attempts to bind a socket, the port
   the first one was given (0 when asking for it fails), the channel's callbacks while it waits, and
   what arrives on the socket.
   */
  datatype Environment = Environment(
    first: OpenOutcome, firstPort: nat, before: seq<Callback>, during: seq<Callback>,
    second: OpenOutcome, arrivals: seq<UdpReceiver.Arrival>, later: seq<Callback>)

  // ----- reading the reply

  /** What a reply amounts to, and the sample rate it makes the collector remember, if any. */
  datatype Reading = Reading(accepted: Option<Grant>, rate: Option<real>)

  datatype Grant = Grant(taskId: string, udpPort: int)

  const UNREADABLE := Reading(None, None)

  /** The rate is remembered before the port is found missing. */
  function ReadReply(d: Document, requestedRate: real): Reading {
    if !d.Object? || ReadText(d.status) != Some("ACCEPTED") then UNREADABLE
    else match ReadText(d.taskId)
      case None => UNREADABLE
      case Some(id) =>
        match d.streams
        case UnreadableStream => UNREADABLE
        case FirstStream(port, rate) =>
          if ReadNumber(port, 0).None? || ReadNumber(rate, requestedRate).None? then UNREADABLE
          else
            var p := ReadNumber(port, 0).value;
            Reading(if p == 0 then None else Some(Grant(id, p)), ReadNumber(rate, requestedRate))
        case _ => Reading(None, Some(requestedRate))
  }

  /** The reply accepts a task: the status says so and a task id and a first stream with a port can be read. */
  predicate Accepts(d: Document) {
    && d.Object? && d.status == Text("ACCEPTED") && !d.taskId.WrongType?
    && d.streams.FirstStream? && d.streams.udpPort.Number? && d.streams.udpPort.value != 0
    && !d.streams.sampleRate.NotANumber?
  }

  /** A grant is read exactly from an accepting reply, and carries that reply's own id and port. */
  lemma GrantMeaning(d: Document, requestedRate: real)
    ensures ReadReply(d, requestedRate).accepted.Some? <==> Accepts(d)
    ensures Accepts(d) ==>
              var g := ReadReply(d, requestedRate).accepted.value;
              g.udpPort == d.streams.udpPort.value && d.taskId == (if d.taskId.Absent? then Absent else Text(g.taskId))
              && (d.taskId.Absent? ==> g.taskId == "")
  {
  }

  /**
   The rate is remembered from every accepting reply whose members can be read, even if it grants no port:
   the rate the first stream names, or the one that was asked for.
   */
  lemma RememberedRate(d: Document, requestedRate: real)
    ensures ReadReply(d, requestedRate).rate.Some? <==>
            && d.Object? && d.status == Text("ACCEPTED") && !d.taskId.WrongType? && !d.streams.UnreadableStream?
            && (d.streams.FirstStream? ==> !d.streams.udpPort.NotANumber? && !d.streams.sampleRate.NotANumber?)
    ensures ReadReply(d, requestedRate).rate.Some? ==>
              ReadReply(d, requestedRate).rate.value ==
              if d.streams.FirstStream? && d.streams.sampleRate.Number? then d.streams.sampleRate.value
              else requestedRate
  {
  }

  // ----- the outcome of a collection

  /** The socket samples are received on, if a socket is available for the granted port. */
  function SocketFor(env: Environment, port: int): Option<Handle> {
    if env.first.Bound? && env.firstPort > 0 && port == env.firstPort then Some(env.first.fd)
    else if env.second.Bound? then Some(env.second.fd)
    else None
  }

  /**
   With both sockets to be had, samples are received on the first one exactly if its own port, which is not
   0, was granted. A second one that cannot be had is only missed when the first does not serve.
   */
  lemma PortDecides(env: Environment, port: int)
    ensures env.first.Bound? && env.second.Bound? && env.first.fd != env.second.fd ==>
              && (SocketFor(env, port) == Some(env.first.fd) <==> port == env.firstPort && port != 0)
              && (SocketFor(env, port) == Some(env.second.fd) <==> port != env.firstPort || port == 0)
    ensures SocketFor(env, port).None? <==>
            !env.second.Bound? && (!env.first.Bound? || port != env.firstPort || port == 0)
  {
  }

  /** The grant in the first reply to the request, when the channel became ready at all. */
  function GrantFor(channel: State, env: Environment, id: string, rate: real): Option<Grant> {
    if !DeliverAll(channel, env.before).ready then None
    else match FirstAnswer(env.during, id)
      case None => None
      case Some(b) => ReadReply(b.parsed, rate).accepted
  }

  function RateAfter(last: real, channel: State, env: Environment, id: string, rate: real): real {
    if !DeliverAll(channel, env.before).ready || FirstAnswer(env.during, id).None? then last
    else
      var r := ReadReply(FirstAnswer(env.during, id).value.parsed, rate).rate;
      if r.Some? then r.value else last
  }

  predicate Streaming(grant: Option<Grant>, env: Environment) {
    grant.Some? && SocketFor(env, grant.value.udpPort).Some?
  }

  predicate Stops(grant: Option<Grant>, env: Environment) {
    Streaming(grant, env) && grant.value.taskId != ""
  }

  /** The channel when the stop is sent: after the request registered and both waits' callbacks have run. */
  function ChannelAtStop(channel: State, env: Environment, id: string): State {
    DeliverAll(DeliverAll(Register(DeliverAll(channel, env.before), id), env.during), env.later)
  }

  /**
   What a collection hands to the work queue: the request if the channel becomes ready, then the stop if
   one is called and the channel is still ready when it is.
   */
  function MessagesSent(channel: State, env: Environment, id: string, stops: bool, taskId: string)
    : seq<Option<string>>
  {
    (if DeliverAll(channel, env.before).ready then [None] else [])
    + if stops && ChannelAtStop(channel, env, id).ready then [Some(taskId)] else []
  }

  ghost predicate NoStop(ops: seq<Operation>) {
    forall k :: 0 <= k < |ops| ==> !ops[k].StopCalled?
  }

  /**
   ops follow log and leave every handle as it was. If stops, their last one is the only stop call; it
   names the task, and at that point everything opened since log has been closed again.
   */
  ghost predicate Balanced(log: seq<Operation>, ops: seq<Operation>, stops: bool, taskId: string) {
    && Legal(log + ops) && OpenAfter(log + ops) == OpenAfter(log)
    && (!stops ==> NoStop(ops))
    && (stops ==> ops != [] && NoStop(ops[..|ops| - 1]) && ops[|ops| - 1] == StopCalled(taskId)
                  && OpenAfter(log + ops[..|ops| - 1]) == OpenAfter(log))
  }

  class IqCollector {
    const channel: IqTaskChannel
    const sampleRate: real
    const samples: int
    var lastRate: real
    /** Every socket operation and channel call so far, oldest first. */
    var log: seq<Operation>

    ghost predicate Valid()
      reads this, channel
    {
      channel.Valid() && Legal(log)
    }

    constructor (ch: IqTaskChannel, rate: real, count: int)
      requires ch.Valid()
      ensures Valid() && channel == ch && log == []
    {
      channel := ch;
      sampleRate := rate;
      samples := count;
      lastRate := rate;
      log := [];
    }

    method Record(op: Operation)
      requires Legal(log) && Permitted(OpenAfter(log), op)
      modifies this`log
      ensures Legal(log) && log == old(log) + [op] && OpenAfter(log) == Apply(OpenAfter(old(log)), op)
    {
      LogStep(log, op);
      log := log + [op];
    }

    /** Opens a socket and binds it; a socket that cannot be bound is closed again here. */
    method OpenBound(outcome: OpenOutcome) returns (fd: Option<Handle>, ghost ops: seq<Operation>)
      requires Legal(log) && Fresh(outcome, OpenAfter(log))
      modifies this`log
      ensures Legal(log) && log == old(log) + ops && NoStop(ops)
      ensures fd == if outcome.Bound? then Some(outcome.fd) else None
      ensures OpenAfter(log) == OpenAfter(old(log)) + if fd.Some? then {fd.value} else {}
    {
      hide OpenAfter, Legal;
      if outcome.NoSocket? {
        return None, [];
      }
      Record(Opened(outcome.fd));
      if outcome.BindFailed? {
        Record(Closed(outcome.fd));
        return None, [Opened(outcome.fd), Closed(outcome.fd)];
      }
      return Some(outcome.fd), [Opened(outcome.fd)];
    }

    method CloseIfOpen(fd: Option<Handle>) returns (ghost ops: seq<Operation>)
      requires Legal(log) && (fd.Some? ==> fd.value in OpenAfter(log))
      modifies this`log
      ensures Legal(log) && log == old(log) + ops && NoStop(ops)
      ensures OpenAfter(log) == OpenAfter(old(log)) - if fd.Some? then {fd.value} else {}
    {
      hide OpenAfter, Legal;
      ops := [];
      if fd.Some? {
        Record(Closed(fd.value));
        ops := [Closed(fd.value)];
      }
    }

    /** The prebound socket when the controller honoured its port, otherwise a new one in its place. */
    method ObtainSocket(prebound: Option<Handle>, port: int, env: Environment)
      returns (fd: Option<Handle>, ghost ops: seq<Operation>)
      requires Legal(log) && prebound == (if env.first.Bound? then Some(env.first.fd) else None)
      requires prebound.Some? ==> prebound.value in OpenAfter(log)
      requires Fresh(env.second, OpenAfter(log) - if prebound.Some? then {prebound.value} else {})
      modifies this`log
      ensures Legal(log) && log == old(log) + ops && NoStop(ops)
      ensures fd == SocketFor(env, port)
      ensures OpenAfter(log) == OpenAfter(old(log)) - (if prebound.Some? then {prebound.value} else {})
                                + if fd.Some? then {fd.value} else {}
    {
      hide OpenAfter, Legal, NoStop;
      if prebound.Some? && env.firstPort > 0 && port == env.firstPort {
        NoStopInNothing();
        return prebound, [];
      }
      ghost var closing := CloseIfOpen(prebound);
      ghost var opening;
      fd, opening := OpenBound(env.second);
      NoStopJoined(closing, opening);
      ops := closing + opening;
    }

    /** Receives on the socket and closes it. */
    method Receive(fd: Handle, env: Environment)
      returns (iq: seq<UdpReceiver.Sample>, ghost ops: seq<Operation>)
      requires Legal(log) && fd in OpenAfter(log) && UdpReceiver.Fits(env.arrivals)
      modifies this`log
      ensures Legal(log) && log == old(log) + ops && NoStop(ops)
      ensures OpenAfter(log) == OpenAfter(old(log)) - {fd}
      ensures UdpReceiver.Receives(env.arrivals, samples, iq)
    {
      hide OpenAfter, Legal, UdpReceiver.Receives;
      Record(Used(fd));
      iq := UdpReceiver.ReceiveIq(samples, env.arrivals);
      Record(Closed(fd));
      ops := [Used(fd), Closed(fd)];
    }

    /** Submits the request and reads the reply; the caller still owns the prebound socket. */
    method Submit(id: string, env: Environment) returns (grant: Option<Grant>)
      requires channel.Valid()
      modifies this`lastRate, channel
      ensures channel.Valid()
      ensures grant == GrantFor(old(channel.View()), env, id, sampleRate)
      ensures lastRate == RateAfter(old(lastRate), old(channel.View()), env, id, sampleRate)
      ensures channel.sent ==
              old(channel.sent) + if DeliverAll(old(channel.View()), env.before).ready then [None] else []
      ensures DeliverAll(old(channel.View()), env.before).ready ==>
                channel.View() == DeliverAll(Register(DeliverAll(old(channel.View()), env.before), id), env.during)
    {
      var reply := channel.Exchange(id, env.before, env.during);
      if reply.None? {
        return None;
      }
      var reading := ReadReply(reply.value.parsed, sampleRate);
      if reading.rate.Some? {
        lastRate := reading.rate.value;
      }
      grant := reading.accepted;
    }

    /** Steps 3 and 4: a socket for the granted port, and the samples that arrive on it. */
    method Gather(prebound: Option<Handle>, port: int, env: Environment)
      returns (iq: seq<UdpReceiver.Sample>, streamed: bool, ghost ops: seq<Operation>)
      requires Legal(log) && UdpReceiver.Fits(env.arrivals)
      requires prebound == (if env.first.Bound? then Some(env.first.fd) else None)
      requires prebound.Some? ==> prebound.value in OpenAfter(log)
      requires Fresh(env.second, OpenAfter(log) - if prebound.Some? then {prebound.value} else {})
      modifies this`log
      ensures Legal(log) && log == old(log) + ops && NoStop(ops)
      ensures OpenAfter(log) == OpenAfter(old(log)) - if prebound.Some? then {prebound.value} else {}
      ensures streamed == SocketFor(env, port).Some?
      ensures streamed ==> UdpReceiver.Receives(env.arrivals, samples, iq)
      ensures !streamed ==> iq == []
    {
      hide UdpReceiver.Receives, UdpReceiver.Fits, OpenAfter, Legal, NoStop;
      iq := [];
      var fd, ops1 := ObtainSocket(prebound, port, env);
      streamed := fd.Some?;
      ops := ops1;
      if streamed {
        ghost var ops2;
        iq, ops2 := Receive(fd.value, env);
        ops := ops1 + ops2;
        NoStopJoined(ops1, ops2);
      }
    }

    /**
     One collection. Samples come back exactly when the first reply to this request grants a port and a
     socket for it can be had; then, and only then, is the granted task stopped, once, after every
     socket opened here has been closed.
     */
    method Collect(id: string, env: Environment)
      returns (iq: seq<UdpReceiver.Sample>, ghost ops: seq<Operation>)
      requires Valid() && UdpReceiver.Fits(env.arrivals)
      requires Fresh(env.first, OpenAfter(log)) && Fresh(env.second, OpenAfter(log))
      modifies this`log, this`lastRate, channel
      ensures Valid() && log == old(log) + ops
      ensures lastRate == RateAfter(old(lastRate), old(channel.View()), env, id, sampleRate)
      ensures var grant := GrantFor(old(channel.View()), env, id, sampleRate);
              && Balanced(old(log), ops, Stops(grant, env), if grant.Some? then grant.value.taskId else "")
              && (Streaming(grant, env) ==> UdpReceiver.Receives(env.arrivals, samples, iq))
              && (!Streaming(grant, env) ==> iq == [])
              && channel.sent == old(channel.sent) + MessagesSent(old(channel.View()), env, id, Stops(grant, env),
                                                                  if grant.Some? then grant.value.taskId else "")
    {
      hide DeliverAll, FirstAnswer, ReadReply, UdpReceiver.Receives, UdpReceiver.Fits, OpenAfter, Legal,
        NoStop, Balanced, GrantFor, RateAfter, SocketFor, Stops, Streaming, MessagesSent;
      ghost var start, view, sent := log, channel.View(), channel.sent;
      iq := [];
      var prebound, ops1 := OpenBound(env.first);
      var grant := Submit(id, env);
      if grant.None? {
        ghost var ops2 := CloseIfOpen(prebound);
        ops := ops1 + ops2;
        Unstopped(start, ops1, ops2, "");
        NothingGranted(env);
        NothingAfterRequest(view, env, id, "");
        return;
      }
      var streamed;
      ghost var ops2;
      iq, streamed, ops2 := Gather(prebound, grant.value.udpPort, env);
      ops := ops1 + ops2;
      Unstopped(start, ops1, ops2, grant.value.taskId);
      StopsWhenStreaming(grant, env);
      GrantNeedsReady(view, env, id, sampleRate);
      NothingAfterRequest(view, env, id, grant.value.taskId);
      if streamed && grant.value.taskId != "" {
        channel.Wait(env.later);
        StopAfterRequest(view, env, id, grant.value.taskId, sent);
        channel.Send(grant.value.taskId);
        StopLast(start, ops, grant.value.taskId);
        Record(StopCalled(grant.value.taskId));
        ops := ops + [StopCalled(grant.value.taskId)];
      }
    }
  }

  lemma NoStopInNothing()
    ensures NoStop([])
  {
  }

  lemma NoStopJoined(a: seq<Operation>, b: seq<Operation>)
    requires NoStop(a) && NoStop(b)
    ensures NoStop(a + b)
  {
  }

  lemma NothingGranted(env: Environment)
    ensures !Streaming(None, env) && !Stops(None, env)
  {
  }

  lemma GrantNeedsReady(channel: State, env: Environment, id: string, rate: real)
    ensures GrantFor(channel, env, id, rate).Some? ==> DeliverAll(channel, env.before).ready
  {
  }

  lemma NothingAfterRequest(channel: State, env: Environment, id: string, taskId: string)
    ensures MessagesSent(channel, env, id, false, taskId)
            == if DeliverAll(channel, env.before).ready then [None] else []
  {
  }

  lemma StopAfterRequest(channel: State, env: Environment, id: string, taskId: string, sent: seq<Option<string>>)
    requires DeliverAll(channel, env.before).ready
    ensures sent + MessagesSent(channel, env, id, true, taskId)
            == sent + [None] + if ChannelAtStop(channel, env, id).ready then [Some(taskId)] else []
  {
  }

  lemma StopsWhenStreaming(grant: Option<Grant>, env: Environment)
    requires grant.Some?
    ensures Streaming(grant, env) <==> SocketFor(env, grant.value.udpPort).Some?
    ensures Stops(grant, env) <==> Streaming(grant, env) && grant.value.taskId != ""
  {
  }

  lemma Unstopped(log: seq<Operation>, a: seq<Operation>, b: seq<Operation>, taskId: string)
    requires NoStop(a) && NoStop(b) && Legal(log + a + b) && OpenAfter(log + a + b) == OpenAfter(log)
    ensures Balanced(log, a + b, false, taskId) && log + a + b == log + (a + b)
  {
    assert log + a + b == log + (a + b);
  }

  lemma StopLast(log: seq<Operation>, ops: seq<Operation>, taskId: string)
    requires Balanced(log, ops, false, taskId)
    ensures Balanced(log, ops + [StopCalled(taskId)], true, taskId)
    ensures Permitted(OpenAfter(log + ops), StopCalled(taskId))
    ensures log + ops + [StopCalled(taskId)] == log + (ops + [StopCalled(taskId)])
  {
    var longer := ops + [StopCalled(taskId)];
    assert longer[..|ops|] == ops;
    assert log + longer == log + ops + [StopCalled(taskId)];
    LogStep(log + ops, StopCalled(taskId));
  }
}
