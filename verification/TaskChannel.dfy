/** The single-slot request/response channel shared by the workers (IqTaskChannel). */
module TaskChannel {
  import opened Options

  // ----- replies

  /** One member of a parsed reply that the program reads as a string. */
  datatype Field = Absent | Text(text: string) | WrongType

  datatype Number<T> = NoNumber | Number(value: T) | NotANumber

  /** The "streams" member: what its first entry says, or why it has none that can be read. */
  datatype Streams =
    | NoStreams
    | EmptyStreams
    | FirstStream(udpPort: Number<int>, sampleRate: Number<real>)
    | UnreadableStream

  datatype Document =
    | Malformed
    | NotAnObject
    | Object(requestId: Field, correlationId: Field, status: Field, taskId: Field, streams: Streams)

  /** A message body, with what parsing it yields. The empty body parses as Malformed. */
  datatype Body = Body(raw: string, parsed: Document)

  /** Reading a member: None stands for the exception a member of the wrong type raises. */
  function ReadText(f: Field): Option<string> {
    match f
    case Absent => Some("")
    case Text(t) => Some(t)
    case WrongType => None
  }

  /** Reading a number with a default for a missing one. */
  function ReadNumber<T>(n: Number<T>, default: T): Option<T> {
    match n
    case NoNumber => Some(default)
    case Number(v) => Some(v)
    case NotANumber => None
  }

  /**
   Whether a reply answers the exchange that waits for corr. The second member is only read when the
   first differs, so a first member of the wrong type rejects the reply whatever the second says.
   */
  predicate Answers(b: Body, corr: string) {
    && corr != ""
    && b.parsed.Object?
    && ReadText(b.parsed.requestId).Some?
    && (ReadText(b.parsed.requestId).value == corr || ReadText(b.parsed.correlationId) == Some(corr))
  }

  /** Over the members alone: the first names the id, or is no obstacle and the second names it. */
  lemma AnsweringMembers(b: Body, corr: string)
    ensures Answers(b, corr) <==>
            && corr != "" && b.parsed.Object?
            && (|| b.parsed.requestId == Text(corr)
                || (!b.parsed.requestId.WrongType? && b.parsed.correlationId == Text(corr)))
  {
  }

  // ----- the channel's state and its atomic steps

  /** A callback of the messaging thread; each runs under the channel's mutex. */
  datatype Callback = Message(body: Body) | ReceiverOpened(address: string) | TransportError

  datatype State = State(ready: bool, queueSet: bool, address: string, corr: string, body: Option<Body>, done: bool)

  const INITIAL := State(false, false, "", "", None, false)

  function Deliver(s: State, c: Callback): State {
    match c
    case Message(b) => if Answers(b, s.corr) then s.(body := Some(b), done := true, corr := "") else s
    case ReceiverOpened(a) => s.(ready := true, queueSet := true, address := a)
    case TransportError => s.(ready := false, address := "")
  }

  function DeliverAll(s: State, cs: seq<Callback>): State {
    if cs == [] then s else Deliver(DeliverAll(s, cs[..|cs| - 1]), cs[|cs| - 1])
  }

  /** The first critical section of exchange, once the channel is ready. */
  function Register(s: State, corr: string): State {
    s.(corr := corr, body := None, done := false)
  }

  /** The answer an exchange deserves: the first reply to corr among the callbacks it waited through. */
  function FirstAnswer(cs: seq<Callback>, corr: string): (r: Option<Body>)
    ensures r.None? <==> forall k :: 0 <= k < |cs| ==> !(cs[k].Message? && Answers(cs[k].body, corr))
    ensures r.Some? ==> exists k :: IsFirstAnswer(cs, corr, r.value, k)
  {
    if cs == [] then None
    else
      var n := |cs| - 1;
      var r := FirstAnswer(cs[..n], corr);
      assert cs == cs[..n] + [cs[n]];
      if r.Some? then
        (ghost var k :| IsFirstAnswer(cs[..n], corr, r.value, k);
         assert IsFirstAnswer(cs, corr, r.value, k);
         r)
      else if cs[n].Message? && Answers(cs[n].body, corr) then
        assert IsFirstAnswer(cs, corr, cs[n].body, n);
        Some(cs[n].body)
      else None
  }

  /** Position k carries body, which answers corr, and no earlier message does. */
  ghost predicate IsFirstAnswer(cs: seq<Callback>, corr: string, body: Body, k: int) {
    && 0 <= k < |cs| && cs[k] == Message(body) && Answers(body, corr)
    && (forall j :: 0 <= j < k ==> !(cs[j].Message? && Answers(cs[j].body, corr)))
  }

  /** The callback carries a document one of whose two members is this id. */
  predicate Mentions(c: Callback, id: string) {
    && c.Message? && c.body.parsed.Object?
    && (c.body.parsed.requestId == Text(id) || c.body.parsed.correlationId == Text(id))
  }

  /** The first callback to mention the id decides, unless its first member has the wrong type. */
  lemma FirstMention(cs: seq<Callback>, corr: string, k: nat)
    requires corr != "" && k < |cs| && Mentions(cs[k], corr) && !cs[k].body.parsed.requestId.WrongType?
    requires forall j :: 0 <= j < k ==> !Mentions(cs[j], corr)
    ensures FirstAnswer(cs, corr) == Some(cs[k].body)
  {
    hide FirstAnswer, Answers;
    AnsweringMembers(cs[k].body, corr);
    var first :| IsFirstAnswer(cs, corr, FirstAnswer(cs, corr).value, first);
    AnsweringMembers(cs[first].body, corr);
  }

  /** Without a readable mention, or without an id, there is no answer. */
  lemma NoMention(cs: seq<Callback>, corr: string)
    requires forall k :: 0 <= k < |cs| && Mentions(cs[k], corr) ==> corr == "" || cs[k].body.parsed.requestId.WrongType?
    ensures FirstAnswer(cs, corr).None?
  {
    hide FirstAnswer;
  }

  lemma MentionsDecide(cs: seq<Callback>, corr: string)
    ensures forall k :: corr != "" && 0 <= k < |cs| && Mentions(cs[k], corr)
                        && !cs[k].body.parsed.requestId.WrongType?
                        && (forall j :: 0 <= j < k ==> !Mentions(cs[j], corr))
              ==> FirstAnswer(cs, corr) == Some(cs[k].body)
    ensures (forall k :: 0 <= k < |cs| && Mentions(cs[k], corr) ==>
               corr == "" || cs[k].body.parsed.requestId.WrongType?)
            ==> FirstAnswer(cs, corr).None?
  {
    hide FirstAnswer;
    forall k | corr != "" && 0 <= k < |cs| && Mentions(cs[k], corr) && !cs[k].body.parsed.requestId.WrongType?
               && (forall j :: 0 <= j < k ==> !Mentions(cs[j], corr))
      ensures FirstAnswer(cs, corr) == Some(cs[k].body)
    {
      FirstMention(cs, corr, k);
    }
    if forall k :: 0 <= k < |cs| && Mentions(cs[k], corr) ==> corr == "" || cs[k].body.parsed.requestId.WrongType? {
      NoMention(cs, corr);
    }
  }

  /** What the slot holds while an exchange for corr waits and the callbacks cs have run. */
  ghost predicate Slot(s: State, corr: string, cs: seq<Callback>) {
    && s.body == FirstAnswer(cs, corr)
    && s.done == s.body.Some?
    && s.corr == if s.done then "" else corr
  }

  lemma SlotStep(s: State, corr: string, cs: seq<Callback>, c: Callback)
    requires Slot(s, corr, cs)
    ensures Slot(Deliver(s, c), corr, cs + [c])
  {
    assert (cs + [c])[..|cs|] == cs;
  }

  lemma {:induction false} SlotAfter(s: State, corr: string, cs: seq<Callback>)
    ensures Slot(DeliverAll(Register(s, corr), cs), corr, cs)
  {
    if cs == [] {
    } else {
      var n := |cs| - 1;
      SlotAfter(s, corr, cs[..n]);
      SlotStep(DeliverAll(Register(s, corr), cs[..n]), corr, cs[..n], cs[n]);
      assert cs == cs[..n] + [cs[n]];
    }
  }

  /** The work queue is only used while ready, and ready implies that it was set. */
  ghost predicate QueueUsable(s: State) {
    s.ready ==> s.queueSet
  }

  lemma {:induction false} QueueStaysUsable(s: State, cs: seq<Callback>)
    requires QueueUsable(s)
    ensures QueueUsable(DeliverAll(s, cs))
  {
    if cs == [] {
    } else {
      QueueStaysUsable(s, cs[..|cs| - 1]);
    }
  }

  // ----- the channel object

  class IqTaskChannel {
    var ready: bool
    var queueSet: bool
    var address: string
    var pendingCorr: string
    var pendingBody: Option<Body>
    var pendingDone: bool
    /** The messages handed to the work queue, oldest first; None for a task request, Some for a stop. */
    var sent: seq<Option<string>>

    ghost function View(): State
      reads this
    {
      State(ready, queueSet, address, pendingCorr, pendingBody, pendingDone)
    }

    ghost predicate Valid()
      reads this
    {
      QueueUsable(View())
    }

    constructor ()
      ensures View() == INITIAL && Valid() && sent == []
    {
      ready := false;
      queueSet := false;
      address := "";
      pendingCorr := "";
      pendingBody := None;
      pendingDone := false;
      sent := [];
    }

    method OnReceiverOpen(a: string)
      modifies this
      ensures View() == Deliver(old(View()), ReceiverOpened(a)) && sent == old(sent)
      ensures Valid()
    {
      address := a;
      queueSet := true;
      ready := true;
    }

    method OnTransportError()
      modifies this
      ensures View() == Deliver(old(View()), TransportError) && sent == old(sent)
      ensures Valid()
    {
      ready := false;
      address := "";
    }

    method OnMessage(b: Body)
      requires Valid()
      modifies this
      ensures View() == Deliver(old(View()), Message(b)) && sent == old(sent)
      ensures Valid()
      // What the members of a reply do to the slot while it waits for an id.
      ensures old(pendingCorr) != "" && b.parsed.Object? ==>
                match (b.parsed.requestId, b.parsed.correlationId)
                case (Text(r), c) =>
                  if r == old(pendingCorr) || c == Text(old(pendingCorr))
                  then pendingDone && pendingBody == Some(b) && pendingCorr == ""
                  else View() == old(View())
                case (Absent, c) =>
                  if c == Text(old(pendingCorr)) then pendingDone && pendingBody == Some(b) && pendingCorr == ""
                  else View() == old(View())
                case (WrongType, _) => View() == old(View())
      ensures old(pendingCorr) == "" || !b.parsed.Object? ==> View() == old(View())
    {
      if !b.parsed.Object? || pendingCorr == "" {
        return;
      }
      var requestId := ReadText(b.parsed.requestId);
      if requestId.None? {
        return;
      }
      var matches := requestId.value == pendingCorr;
      if !matches {
        var correlationId := ReadText(b.parsed.correlationId);
        if correlationId.None? {
          return;
        }
        matches := correlationId.value == pendingCorr;
      }
      if matches {
        pendingBody := Some(b);
        pendingDone := true;
        pendingCorr := "";
      }
    }

    /** Runs the callbacks that happen while a caller is blocked. */
    method Wait(cs: seq<Callback>)
      requires Valid()
      modifies this
      ensures View() == DeliverAll(old(View()), cs) && sent == old(sent)
      ensures Valid()
    {
      for i := 0 to |cs|
        invariant View() == DeliverAll(old(View()), cs[..i]) && sent == old(sent) && Valid()
      {
        assert cs[..i + 1][..i] == cs[..i];
        match cs[i] {
          case Message(b) => OnMessage(b);
          case ReceiverOpened(a) => OnReceiverOpen(a);
          case TransportError => OnTransportError();
        }
      }
      assert cs[..|cs|] == cs;
    }

    /**
     before are the callbacks until the wait for readiness ends, during those until the wait for the
     reply ends; either wait may have timed out. What was in the slot on entry plays no part.
     */
    method Exchange(corr: string, before: seq<Callback>, during: seq<Callback>) returns (reply: Option<Body>)
      requires Valid()
      modifies this
      ensures Valid()
      ensures reply == if DeliverAll(old(View()), before).ready then FirstAnswer(during, corr) else None
      ensures sent == if DeliverAll(old(View()), before).ready then old(sent) + [None] else old(sent)
      ensures View() == if DeliverAll(old(View()), before).ready
                        then DeliverAll(Register(DeliverAll(old(View()), before), corr), during)
                        else DeliverAll(old(View()), before)
      // Once the request is out, over the members of the replies: the first one to name the id is the
      // answer, in whichever member it does, unless its first member has the wrong type.
      ensures sent != old(sent) && corr != "" && during != [] && during[0].Message? ==>
                match during[0].body.parsed
                case Object(Text(r), c, _, _, _) => r == corr || c == Text(corr) ==> reply == Some(during[0].body)
                case Object(Absent, Text(c), _, _, _) => c == corr ==> reply == Some(during[0].body)
                case _ => true
      ensures forall k :: sent != old(sent) && corr != "" && 0 <= k < |during| && Mentions(during[k], corr)
                          && !during[k].body.parsed.requestId.WrongType?
                          && (forall j :: 0 <= j < k ==> !Mentions(during[j], corr))
                ==> reply == Some(during[k].body)
      ensures (forall k :: 0 <= k < |during| && during[k].Message? && during[k].body.parsed.Object? ==>
                 || corr == "" || during[k].body.parsed.requestId.WrongType?
                 || (&& during[k].body.parsed.requestId != Text(corr)
                     && during[k].body.parsed.correlationId != Text(corr)))
              ==> reply.None?
    {
      Wait(before);
      if !ready {
        return None;
      }
      ghost var s := View();
      pendingCorr := corr;
      pendingBody := None;
      pendingDone := false;
      assert queueSet;
      sent := sent + [None];
      SlotAfter(s, corr, during);
      Wait(during);
      reply := pendingBody;
      MentionsDecide(during, corr);
    }

    method Send(taskId: string)
      requires Valid()
      modifies this
      ensures Valid() && View() == old(View())
      ensures sent == if ready then old(sent) + [Some(taskId)] else old(sent)
    {
      if !ready {
        return;
      }
      assert queueSet;
      sent := sent + [Some(taskId)];
    }
  }

  // ----- every interleaving of workers and callbacks

  type Worker = nat

  datatype Event =
    | Lock(w: Worker)
    | Registered(w: Worker, corr: string)
    | GaveUp(w: Worker)
    | Called(callback: Callback)
    | Returned(w: Worker, reply: Option<Body>)
    | Unlock(w: Worker)

  /** Where the worker inside the collector's mutex is. */
  datatype Phase = Idle | Holding(w: Worker) | Waiting(w: Worker, corr: string) | Answered(w: Worker)

  datatype World = World(channel: State, phase: Phase)

  const START := World(INITIAL, Idle)

  /** Whether the event can happen. Waits may end at any moment: by notification or by timing out. */
  ghost predicate Enabled(s: World, e: Event) {
    match e
    case Lock(w) => s.phase.Idle?
    case Registered(w, corr) => s.phase == Holding(w) && s.channel.ready
    case GaveUp(w) => s.phase == Holding(w) && !s.channel.ready
    case Called(c) => true
    case Returned(w, reply) => s.phase.Waiting? && s.phase.w == w && reply == s.channel.body
    case Unlock(w) => s.phase == Answered(w)
  }

  function After(s: World, e: Event): World {
    match e
    case Lock(w) => s.(phase := Holding(w))
    case Registered(w, corr) => World(Register(s.channel, corr), Waiting(w, corr))
    case GaveUp(w) => s.(phase := Answered(w))
    case Called(c) => s.(channel := Deliver(s.channel, c))
    case Returned(w, reply) => s.(phase := Answered(w))
    case Unlock(w) => s.(phase := Idle)
  }

  function WorldAfter(run: seq<Event>): World {
    if run == [] then START else After(WorldAfter(run[..|run| - 1]), run[|run| - 1])
  }

  ghost predicate IsRun(run: seq<Event>) {
    run == [] || (IsRun(run[..|run| - 1]) && Enabled(WorldAfter(run[..|run| - 1]), run[|run| - 1]))
  }

  /** The callbacks of a stretch of a run. */
  function CallbacksOf(run: seq<Event>): seq<Callback> {
    if run == [] then []
    else
      var n := |run| - 1;
      CallbacksOf(run[..n]) + if run[n].Called? then [run[n].callback] else []
  }

  /** The exchange open at the end of the run registered at position j, with only callbacks since. */
  ghost predicate OpenSince(run: seq<Event>, j: int, w: Worker, corr: string) {
    && 0 <= j < |run| && run[j] == Registered(w, corr)
    && (forall k :: j < k < |run| ==> run[k].Called?)
  }

  /** What holds after every run. */
  ghost predicate Sound(run: seq<Event>) {
    var s := WorldAfter(run);
    && QueueUsable(s.channel)
    && (s.phase.Waiting? ==>
          exists j :: OpenSince(run, j, s.phase.w, s.phase.corr)
                      && Slot(s.channel, s.phase.corr, CallbacksOf(run[j + 1..])))
  }

  lemma OpenStep(run: seq<Event>, e: Event, j: int, w: Worker, corr: string)
    requires OpenSince(run, j, w, corr) && e.Called?
    ensures OpenSince(run + [e], j, w, corr)
    ensures CallbacksOf((run + [e])[j + 1..]) == CallbacksOf(run[j + 1..]) + [e.callback]
  {
    var longer := (run + [e])[j + 1..];
    assert longer == run[j + 1..] + [e];
    assert longer[..|longer| - 1] == run[j + 1..];
  }

  lemma SoundStep(run: seq<Event>, e: Event)
    requires Sound(run) && Enabled(WorldAfter(run), e)
    ensures Sound(run + [e])
  {
    var s, longer := WorldAfter(run), run + [e];
    assert longer[..|run|] == run;
    assert WorldAfter(longer) == After(s, e);
    if e.Called? && s.phase.Waiting? {
      var j :| OpenSince(run, j, s.phase.w, s.phase.corr)
               && Slot(s.channel, s.phase.corr, CallbacksOf(run[j + 1..]));
      OpenStep(run, e, j, s.phase.w, s.phase.corr);
      SlotStep(s.channel, s.phase.corr, CallbacksOf(run[j + 1..]), e.callback);
    } else if e.Registered? {
      assert OpenSince(longer, |run|, e.w, e.corr);
      assert longer[|run| + 1..] == [];
      assert Slot(After(s, e).channel, e.corr, CallbacksOf([]));
    }
  }

  lemma {:induction false} EveryRunSound(run: seq<Event>)
    requires IsRun(run)
    ensures Sound(run)
  {
    if run == [] {
    } else {
      var n := |run| - 1;
      EveryRunSound(run[..n]);
      SoundStep(run[..n], run[n]);
      assert run == run[..n] + [run[n]];
    }
  }

  lemma {:induction false} PrefixIsRun(run: seq<Event>, n: nat)
    requires IsRun(run) && n <= |run|
    ensures IsRun(run[..n])
  {
    if n < |run| {
      PrefixIsRun(run[..|run| - 1], n);
      assert run[..|run| - 1][..n] == run[..n];
    } else {
      assert run[..n] == run;
    }
  }

  lemma ReturnEnabled(run: seq<Event>, i: nat)
    requires IsRun(run) && i < |run| && run[i].Returned?
    ensures IsRun(run[..i])
    ensures var s := WorldAfter(run[..i]);
            s.phase.Waiting? && s.phase.w == run[i].w && run[i].reply == s.channel.body
  {
    PrefixIsRun(run, i + 1);
    assert run[..i + 1][..i] == run[..i];
  }

  /**
   Whatever a worker gets back in any run is the first reply to its own correlation id among the
   callbacks since it registered; nothing else than callbacks happened in between.
   */
  lemma {:induction false} ReplyIsFirstAnswer(run: seq<Event>, i: nat) returns (j: nat)
    requires IsRun(run) && i < |run| && run[i].Returned?
    ensures j < i && run[j].Registered? && run[j].w == run[i].w
    ensures forall k :: j < k < i ==> run[k].Called?
    ensures run[i].reply == FirstAnswer(CallbacksOf(run[j + 1..i]), run[j].corr)
  {
    hide *;
    ReturnEnabled(run, i);
    EveryRunSound(run[..i]);
    j := OpenWindow(run[..i]);
    WindowWithin(run, i, j);
  }

  lemma OpenWindow(run: seq<Event>) returns (j: nat)
    requires Sound(run) && WorldAfter(run).phase.Waiting?
    ensures var s := WorldAfter(run);
            && OpenSince(run, j, s.phase.w, s.phase.corr)
            && j < |run| && s.channel.body == FirstAnswer(CallbacksOf(run[j + 1..]), s.phase.corr)
  {
    hide CallbacksOf, FirstAnswer;
    var s := WorldAfter(run);
    j :| OpenSince(run, j, s.phase.w, s.phase.corr) && Slot(s.channel, s.phase.corr, CallbacksOf(run[j + 1..]));
  }

  lemma WindowWithin(run: seq<Event>, i: nat, j: nat)
    requires j < i < |run|
    requires exists w, corr :: OpenSince(run[..i], j, w, corr)
    ensures forall k :: j < k < i ==> run[k].Called?
    ensures run[..i][j] == run[j] && run[..i][j + 1..] == run[j + 1..i]
    ensures forall w, corr :: OpenSince(run[..i], j, w, corr) ==> run[j] == Registered(w, corr)
  {
    var past := run[..i];
    forall k | j < k < i
      ensures run[k].Called?
    {
      assert run[k] == past[k];
    }
  }

  lemma {:induction false} CallbackPosition(run: seq<Event>, k: nat) returns (p: nat)
    requires k < |CallbacksOf(run)|
    ensures p < |run| && run[p] == Called(CallbacksOf(run)[k])
  {
    var n := |run| - 1;
    if k < |CallbacksOf(run[..n])| {
      p := CallbackPosition(run[..n], k);
    } else {
      p := n;
    }
  }

  /**
   No stale reply is ever returned: the message behind a reply arrived after this exchange had
   registered, and answers this exchange's id, not an earlier one's.
   */
  lemma NoStaleReply(run: seq<Event>, i: nat) returns (j: nat, p: nat)
    requires IsRun(run) && i < |run| && run[i].Returned? && run[i].reply.Some?
    ensures j < p < i && run[j].Registered? && run[j].w == run[i].w
    ensures forall k :: j < k < i ==> !run[k].Registered?
    ensures run[p] == Called(Message(run[i].reply.value)) && Answers(run[i].reply.value, run[j].corr)
    ensures run[j].corr != "" && Mentions(run[p].callback, run[j].corr)
  {
    j := ReplyIsFirstAnswer(run, i);
    var window := run[j + 1..i];
    var k :| IsFirstAnswer(CallbacksOf(window), run[j].corr, run[i].reply.value, k);
    var q := CallbackPosition(window, k);
    p := j + 1 + q;
  }

  /** An exchange that gets nothing back was offered no reply to its id while it waited. */
  lemma NoAnswerMissed(run: seq<Event>, i: nat, p: nat) returns (j: nat)
    requires IsRun(run) && p < i < |run| && run[i].Returned? && run[i].reply.None?
    requires run[p].Called? && run[p].callback.Message?
    ensures j < i && run[j].Registered? && run[j].w == run[i].w
    ensures j < p ==> !Answers(run[p].callback.body, run[j].corr)
    ensures j < p && run[j].corr != "" && Mentions(run[p].callback, run[j].corr) ==>
              run[p].callback.body.parsed.requestId.WrongType?
  {
    j := ReplyIsFirstAnswer(run, i);
    if j < p {
      var k := PositionOfCallback(run[j + 1..i], p - (j + 1));
    }
  }

  lemma {:induction false} PositionOfCallback(run: seq<Event>, p: nat) returns (k: nat)
    requires p < |run| && run[p].Called?
    ensures k < |CallbacksOf(run)| && CallbacksOf(run)[k] == run[p].callback
  {
    var n := |run| - 1;
    if p < n {
      k := PositionOfCallback(run[..n], p);
    } else {
      k := |CallbacksOf(run[..n])|;
    }
  }

  /** A document that answers two different ids names both, one in each member. */
  lemma AnswersOfTwo(b: Body, c: string, d: string)
    requires Answers(b, c) && Answers(b, d) && c != d
    ensures {ReadText(b.parsed.requestId), ReadText(b.parsed.correlationId)} == {Some(c), Some(d)}
  {
  }

  /** The reply names no id but c. */
  predicate NamesOnly(b: Body, c: string) {
    b.parsed.Object? ==>
      && ReadText(b.parsed.requestId) in {None, Some(""), Some(c)}
      && ReadText(b.parsed.correlationId) in {None, Some(""), Some(c)}
  }

  lemma OneIdAnswersOne(b: Body, c: string, d: string)
    requires Answers(b, c) && NamesOnly(b, c) && c != d
    ensures !Answers(b, d)
  {
    if Answers(b, d) {
      AnswersOfTwo(b, c, d);
    }
  }

  /**
   In every run, for two exchanges with different ids: a reply that answers the earlier one and names no
   other id is not what the later one returns, however late it arrives.
   */
  lemma LateReplyNotReturned(run: seq<Event>, i: nat, k: nat, b: Body) returns (j: nat, l: nat)
    requires IsRun(run) && i < k < |run| && run[i].Returned? && run[k].Returned?
    ensures j < i && run[j].Registered? && run[j].w == run[i].w
    ensures l < k && run[l].Registered? && run[l].w == run[k].w
    ensures i < l
    ensures run[j].corr != run[l].corr && Answers(b, run[j].corr) && NamesOnly(b, run[j].corr) ==>
              run[k].reply != Some(b)
  {
    j := ReplyIsFirstAnswer(run, i);
    l := ReplyIsFirstAnswer(run, k);
    if run[k].reply.Some? {
      var l', p := NoStaleReply(run, k);
      assert l' == l;
    }
    if run[j].corr != run[l].corr && Answers(b, run[j].corr) && NamesOnly(b, run[j].corr) {
      OneIdAnswersOne(b, run[j].corr, run[l].corr);
    }
  }
}
