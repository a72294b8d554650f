// The RPC layer as a step machine: the send queue with its wakeup pipe and
// I/O thread, and the matching of replies to futures by request number.
module MessageQueue {
  import opened Types

  type Frames = seq<Blob>

  /** A decoded result or exception. */
  type Value = Blob

  // ---- the socket loop ---------------------------------------------------------------

  /** Where the I/O thread is: in poll, or working through what poll reported. */
  datatype Place = Polling | Waking(alsoSocket: bool) | Draining(alsoSocket: bool) | Receiving | Stopped

  /** A frame list leaves from the queue or, for send_now, straight from its handler thread. */
  datatype Departure = Queued(frames: Frames) | Direct(frames: Frames)

  /** between: senders that have put their frames and not yet written their wake byte; puts: all frames ever queued. */
  datatype Loop = Loop(queue: seq<Frames>, pipe: nat, between: nat, place: Place, stopping: bool, wire: seq<Departure>,
                       puts: seq<Frames>)

  datatype LoopStep =
    | Put(frames: Frames)
    | WriteByte
    | SendNow(frames: Frames)
    | Close
    | Poll(wake: bool, socket: bool)
    | ReadPipe
    | SendOne
    | DrainOver
    | Receive

  ghost predicate LoopInit(s: Loop) {
    s == Loop([], 0, 0, Polling, false, [], [])
  }

  /** The top of the loop: leave when stopping, else poll again. */
  function Top(s: Loop): Loop {
    s.(place := if s.stopping then Stopped else Polling)
  }

  ghost predicate LoopCan(s: Loop, a: LoopStep) {
    match a
    case Put(_) => true
    case WriteByte => s.between > 0
    case SendNow(_) => true
    case Close => !s.stopping
    // poll returns when something is readable; it reports the wake pipe exactly when bytes are in it
    case Poll(wake, socket) => s.place == Polling && (wake || socket) && (wake <==> s.pipe > 0)
    case ReadPipe => s.place.Waking? && s.pipe > 0
    case SendOne => s.place.Draining? && s.queue != []
    case DrainOver => s.place.Draining? && s.queue == []
    case Receive => s.place == Receiving
  }

  ghost function LoopNext(s: Loop, a: LoopStep): Loop
    requires LoopCan(s, a)
  {
    match a
    case Put(f) => s.(queue := s.queue + [f], puts := s.puts + [f], between := s.between + 1)
    case WriteByte => s.(between := s.between - 1, pipe := s.pipe + 1)
    case SendNow(f) => s.(wire := s.wire + [Direct(f)])
    case Close => s.(stopping := true, pipe := s.pipe + 1)
    case Poll(wake, socket) => s.(place := if wake then Waking(socket) else Receiving)
    case ReadPipe => s.(pipe := if s.pipe <= 4096 then 0 else s.pipe - 4096, place := Draining(s.place.alsoSocket))
    case SendOne => s.(queue := s.queue[1..], wire := s.wire + [Queued(s.queue[0])])
    case DrainOver => if s.place.alsoSocket then s.(place := Receiving) else Top(s)
    case Receive => Top(s)
  }

  ghost predicate LoopRun(ss: seq<Loop>, steps: seq<LoopStep>) {
    && |ss| == |steps| + 1 && LoopInit(ss[0])
    && forall i :: 0 <= i < |steps| ==> LoopCan(ss[i], steps[i]) && ss[i + 1] == LoopNext(ss[i], steps[i])
  }

  /** The frames that left through the queue, in order. */
  function Drained(wire: seq<Departure>): seq<Frames> {
    if wire == [] then []
    else
      var last := wire[|wire| - 1];
      Drained(wire[..|wire| - 1]) + if last.Queued? then [last.frames] else []
  }

  lemma DrainedNext(wire: seq<Departure>, d: Departure)
    ensures Drained(wire + [d]) == Drained(wire) + if d.Queued? then [d.frames] else []
  {
    assert (wire + [d])[..|wire|] == wire;
  }

  /** Someone will wake the I/O thread, or it is about to look at the queue by itself. */
  ghost predicate WillWake(s: Loop) {
    s.pipe > 0 || s.between > 0
  }

  ghost predicate LoopInv(s: Loop) {
    && s.puts == Drained(s.wire) + s.queue
    && (s.queue != [] && (s.place == Polling || s.place == Receiving) ==> WillWake(s))
    && (s.place.Waking? ==> s.pipe > 0)
    && (s.place == Polling && s.stopping ==> s.pipe > 0)
  }

  lemma OrderKeeps(s: Loop, a: LoopStep)
    requires s.puts == Drained(s.wire) + s.queue && LoopCan(s, a)
    ensures LoopNext(s, a).puts == Drained(LoopNext(s, a).wire) + LoopNext(s, a).queue
  {
    hide Drained;
    match a
    case Put(f) => assert Drained(s.wire) + (s.queue + [f]) == Drained(s.wire) + s.queue + [f];
    case SendNow(f) => DrainedNext(s.wire, Direct(f));
    case SendOne =>
      DrainedNext(s.wire, Queued(s.queue[0]));
      assert s.queue == [s.queue[0]] + s.queue[1..];
    case _ =>
  }

  lemma LoopKeeps(s: Loop, a: LoopStep)
    requires LoopInv(s) && LoopCan(s, a) && s.place != Stopped
    ensures LoopInv(LoopNext(s, a))
  {
    hide Drained;
    OrderKeeps(s, a);
  }

  lemma {:induction false} LoopRunKeeps(ss: seq<Loop>, steps: seq<LoopStep>, n: nat)
    requires LoopRun(ss, steps) && n < |ss|
    ensures ss[n].place != Stopped ==> LoopInv(ss[n])
    ensures ss[n].puts == Drained(ss[n].wire) + ss[n].queue
  {
    if n > 0 {
      LoopRunKeeps(ss, steps, n - 1);
      var s, a := ss[n - 1], steps[n - 1];
      assert LoopCan(s, a) && ss[n - 1 + 1] == LoopNext(s, a);
      OrderKeeps(s, a);
      if s.place != Stopped {
        LoopKeeps(s, a);
      }
    }
  }

  /**
   * No lost wakeup: whenever the I/O thread sits in poll with frames queued,
   * a wake byte is in the pipe or a sender is between its put and its write;
   * so with all senders through, poll returns and reports the pipe.
   */
  lemma NoLostWakeup(ss: seq<Loop>, steps: seq<LoopStep>, n: nat)
    requires LoopRun(ss, steps) && n < |ss| && ss[n].place == Polling && ss[n].queue != []
    ensures ss[n].pipe > 0 || ss[n].between > 0
    ensures ss[n].between == 0 ==> forall socket :: LoopCan(ss[n], Poll(true, socket))
  {
    LoopRunKeeps(ss, steps, n);
  }

  /** Nor is a request to stop overlooked: the thread does not sit in poll on an empty pipe once close was called. */
  lemma CloseIsNoticed(ss: seq<Loop>, steps: seq<LoopStep>, n: nat)
    requires LoopRun(ss, steps) && n < |ss| && ss[n].place == Polling && ss[n].stopping
    ensures ss[n].pipe > 0
  {
    LoopRunKeeps(ss, steps, n);
  }

  /** Outside poll the thread can always move on by itself, and it reaches poll only past an empty queue. */
  lemma IoNeverStuck(ss: seq<Loop>, steps: seq<LoopStep>, n: nat) returns (a: LoopStep)
    requires LoopRun(ss, steps) && n < |ss| && ss[n].place != Polling && ss[n].place != Stopped
    ensures LoopCan(ss[n], a) && (a.ReadPipe? || a.SendOne? || a.DrainOver? || a.Receive?)
    ensures a.DrainOver? ==> ss[n].queue == []
  {
    LoopRunKeeps(ss, steps, n);
    match ss[n].place
    case Waking(_) => a := ReadPipe;
    case Draining(_) => a := if ss[n].queue != [] then SendOne else DrainOver;
    case _ => a := Receive;
  }

  /** The frames of all sends among the steps, in order. */
  function PutBy(steps: seq<LoopStep>): seq<Frames> {
    if steps == [] then []
    else PutBy(steps[..|steps| - 1]) + if steps[|steps| - 1].Put? then [steps[|steps| - 1].frames] else []
  }

  /** The frames of all direct sends among the steps, in order. */
  function SentNowBy(steps: seq<LoopStep>): seq<Frames> {
    if steps == [] then []
    else SentNowBy(steps[..|steps| - 1]) + if steps[|steps| - 1].SendNow? then [steps[|steps| - 1].frames] else []
  }

  /** The frames that left straight from a handler thread, in order. */
  function SentDirectly(wire: seq<Departure>): seq<Frames> {
    if wire == [] then []
    else
      var last := wire[|wire| - 1];
      SentDirectly(wire[..|wire| - 1]) + if last.Direct? then [last.frames] else []
  }

  lemma DirectNext(s: Loop, a: LoopStep)
    requires LoopCan(s, a)
    ensures SentDirectly(LoopNext(s, a).wire) == SentDirectly(s.wire) + if a.SendNow? then [a.frames] else []
  {
    if LoopNext(s, a).wire != s.wire {
      assert LoopNext(s, a).wire[..|s.wire|] == s.wire;
    }
  }

  lemma {:induction false} HistoryIsSteps(ss: seq<Loop>, steps: seq<LoopStep>, n: nat)
    requires LoopRun(ss, steps) && n < |ss|
    ensures ss[n].puts == PutBy(steps[..n]) && SentDirectly(ss[n].wire) == SentNowBy(steps[..n])
  {
    if n > 0 {
      HistoryIsSteps(ss, steps, n - 1);
      assert LoopCan(ss[n - 1], steps[n - 1]) && ss[n - 1 + 1] == LoopNext(ss[n - 1], steps[n - 1]);
      assert steps[..n][..n - 1] == steps[..n - 1];
      DirectNext(ss[n - 1], steps[n - 1]);
    }
  }

  /**
   * Whatever was sent is on the wire or still queued, each once and in order:
   * the frames of all sends so far are those that left through the queue
   * followed by the queue, and those of all direct sends have left.
   */
  lemma FramesLeaveInOrder(ss: seq<Loop>, steps: seq<LoopStep>, n: nat)
    requires LoopRun(ss, steps) && n < |ss|
    ensures PutBy(steps[..n]) == Drained(ss[n].wire) + ss[n].queue
    ensures SentNowBy(steps[..n]) == SentDirectly(ss[n].wire)
  {
    LoopRunKeeps(ss, steps, n);
    HistoryIsSteps(ss, steps, n);
  }

  /** Poll reported the socket at step m and its message has not been taken since. */
  ghost predicate Unserved(steps: seq<LoopStep>, m: nat, n: nat)
    requires n <= |steps|
  {
    m < n && steps[m].Poll? && steps[m].socket && forall i :: m < i < n ==> !steps[i].Receive?
  }

  /** Until the message poll reported is taken, the thread is on its way to it and does not poll again. */
  lemma {:induction false} SocketIsServed(ss: seq<Loop>, steps: seq<LoopStep>, m: nat, n: nat)
    requires LoopRun(ss, steps) && n < |ss| && Unserved(steps, m, n)
    ensures ss[n].place == Receiving || ss[n].place == Waking(true) || ss[n].place == Draining(true)
  {
    assert LoopCan(ss[n - 1], steps[n - 1]) && ss[n - 1 + 1] == LoopNext(ss[n - 1], steps[n - 1]);
    if m < n - 1 {
      SocketIsServed(ss, steps, m, n - 1);
    }
  }

  // ---- the client ------------------------------------------------------------------------------

  datatype Reply = Reply(uid: nat, ok: bool, value: Value)

  /** The value or the exception a future was completed with. */
  datatype Outcome = Result(value: Value) | Raised(error: Value)

  function OutcomeOf(r: Reply): Outcome {
    if r.ok then Result(r.value) else Raised(r.value)
  }

  /**
   * next: the request counter; pending: the open future of each request
   * number; done: how futures were completed. uidOf and born are history: the
   * number each future's request got and how many replies had come in before.
   */
  datatype Client = Client(
    next: nat, pending: map<nat, nat>, done: map<nat, Outcome>,
    uidOf: map<nat, nat>, born: map<nat, nat>, received: seq<Reply>)

  datatype ClientStep = Submit(future: nat) | OnRecv(reply: Reply)

  ghost predicate ClientCan(s: Client, a: ClientStep) {
    a.Submit? ==> a.future !in s.uidOf
  }

  /** Completing a future a second time would raise, so it must never happen. */
  ghost predicate CompletesOpen(s: Client, a: ClientStep) {
    a.OnRecv? && a.reply.uid in s.pending ==> s.pending[a.reply.uid] !in s.done
  }

  function ClientNext(s: Client, a: ClientStep): Client {
    match a
    case Submit(f) =>
      s.(next := s.next + 1, pending := s.pending[s.next := f], uidOf := s.uidOf[f := s.next],
          born := s.born[f := |s.received|])
    case OnRecv(r) =>
      var t := s.(received := s.received + [r]);
      if r.uid in s.pending then
        t.(pending := s.pending - {r.uid}, done := s.done[s.pending[r.uid] := OutcomeOf(r)])
      else t
  }

  /** The first reply with a number among those from index b on. */
  ghost function FirstReply(received: seq<Reply>, uid: nat, b: nat): Option<Reply>
    decreases |received| - b
  {
    if b >= |received| then None
    else if received[b].uid == uid then Some(received[b])
    else FirstReply(received, uid, b + 1)
  }

  lemma {:induction false} FirstReplyNext(received: seq<Reply>, r: Reply, uid: nat, b: nat)
    requires b <= |received|
    ensures FirstReply(received + [r], uid, b)
            == if FirstReply(received, uid, b).Some? then FirstReply(received, uid, b)
               else if r.uid == uid then Some(r) else None
    decreases |received| - b
  {
    if b < |received| {
      FirstReplyNext(received, r, uid, b + 1);
    } else {
      assert FirstReply(received + [r], uid, b + 1) == None;
    }
  }

  /** Future f is open while no reply to it has come, and completed by the first one. */
  ghost predicate Correlated(s: Client, f: nat)
    requires f in s.uidOf && f in s.born
  {
    && s.uidOf[f] < s.next && s.born[f] <= |s.received|
    && match FirstReply(s.received, s.uidOf[f], s.born[f])
       case None => f !in s.done && s.uidOf[f] in s.pending && s.pending[s.uidOf[f]] == f
       case Some(r) => f in s.done && s.done[f] == OutcomeOf(r) && s.uidOf[f] !in s.pending
  }

  ghost predicate ClientInv(s: Client) {
    && s.born.Keys == s.uidOf.Keys && s.done.Keys <= s.uidOf.Keys
    && (forall f, g :: f in s.uidOf && g in s.uidOf && f != g ==> s.uidOf[f] != s.uidOf[g])
    && (forall u :: u in s.pending ==> s.pending[u] in s.uidOf && s.uidOf[s.pending[u]] == u)
    && (forall f :: f in s.uidOf ==> Correlated(s, f))
  }

  ghost predicate ClientRun(ss: seq<Client>, steps: seq<ClientStep>) {
    && |ss| == |steps| + 1 && ss[0] == Client(0, map[], map[], map[], map[], [])
    && forall i :: 0 <= i < |steps| ==> ClientCan(ss[i], steps[i]) && ss[i + 1] == ClientNext(ss[i], steps[i])
  }

  lemma CorrelatedNext(s: Client, a: ClientStep, f: nat)
    requires ClientInv(s) && ClientCan(s, a) && f in s.uidOf
    ensures var t := ClientNext(s, a);
            f in t.uidOf && f in t.born && Correlated(t, f)
  {
    hide FirstReply;
    assert Correlated(s, f);
    if a.OnRecv? {
      FirstReplyNext(s.received, a.reply, s.uidOf[f], s.born[f]);
    }
  }

  lemma SubmittedIsOpen(s: Client, f: nat)
    requires ClientInv(s) && ClientCan(s, Submit(f))
    ensures var t := ClientNext(s, Submit(f));
            f in t.uidOf && f in t.born && Correlated(t, f)
  {
  }

  lemma ClientKeeps(s: Client, a: ClientStep)
    requires ClientInv(s) && ClientCan(s, a)
    ensures ClientInv(ClientNext(s, a)) && CompletesOpen(s, a)
  {
    var t := ClientNext(s, a);
    if a.OnRecv? && a.reply.uid in s.pending {
      assert Correlated(s, s.pending[a.reply.uid]);
    }
    NumbersStayApart(s, a);
    forall f | f in t.uidOf
      ensures Correlated(t, f)
    {
      if f in s.uidOf {
        CorrelatedNext(s, a, f);
      } else {
        SubmittedIsOpen(s, f);
      }
    }
  }

  lemma NumbersStayApart(s: Client, a: ClientStep)
    requires ClientInv(s) && ClientCan(s, a)
    ensures var t := ClientNext(s, a);
            && t.born.Keys == t.uidOf.Keys && t.done.Keys <= t.uidOf.Keys
            && (forall f, g :: f in t.uidOf && g in t.uidOf && f != g ==> t.uidOf[f] != t.uidOf[g])
            && (forall u :: u in t.pending ==> t.pending[u] in t.uidOf && t.uidOf[t.pending[u]] == u)
  {
    hide FirstReply;
    assert forall f :: f in s.uidOf ==> Correlated(s, f) && s.uidOf[f] < s.next;
  }

  lemma {:induction false} ClientRunKeeps(ss: seq<Client>, steps: seq<ClientStep>, n: nat)
    requires ClientRun(ss, steps) && n < |ss|
    ensures ClientInv(ss[n])
  {
    if n > 0 {
      ClientRunKeeps(ss, steps, n - 1);
      assert ClientCan(ss[n - 1], steps[n - 1]) && ss[n - 1 + 1] == ClientNext(ss[n - 1], steps[n - 1]);
      ClientKeeps(ss[n - 1], steps[n - 1]);
    }
  }

  /**
   * In every run, whatever replies arrive (late, repeated, unknown), a future
   * is completed exactly when a reply with its own number has come in since
   * its submission, by the first such reply, and never a second time: with
   * the result it carries, or with the exception when it reports one.
   */
  lemma RepliesReachTheirFutures(ss: seq<Client>, steps: seq<ClientStep>, n: nat, f: nat)
    requires ClientRun(ss, steps) && n < |ss| && f in ss[n].uidOf
    ensures f in ss[n].born
    ensures var first := FirstReply(ss[n].received, ss[n].uidOf[f], ss[n].born[f]);
            && (f in ss[n].done <==> first.Some?)
            && (first.Some? && first.value.ok ==> ss[n].done[f] == Result(first.value.value))
            && (first.Some? && !first.value.ok ==> ss[n].done[f] == Raised(first.value.value))
    ensures n < |steps| ==> CompletesOpen(ss[n], steps[n])
  {
    ClientRunKeeps(ss, steps, n);
    assert Correlated(ss[n], f);
    if n < |steps| {
      ClientKeeps(ss[n], steps[n]);
    }
  }

  lemma {:induction false} FirstReplyIsOne(received: seq<Reply>, uid: nat, b: nat)
    requires FirstReply(received, uid, b).Some?
    ensures FirstReply(received, uid, b).value in received && FirstReply(received, uid, b).value.uid == uid
    decreases |received| - b
  {
    if received[b].uid != uid {
      FirstReplyIsOne(received, uid, b + 1);
    }
  }

  /**
   * If each reply carries the answer to the request of its number, a result
   * marked as ok and an exception as not, each future gets the answer to its
   * own request.
   */
  lemma AnswersMatchRequests(ss: seq<Client>, steps: seq<ClientStep>, n: nat, f: nat, answers: map<nat, Outcome>)
    requires ClientRun(ss, steps) && n < |ss| && f in ss[n].done
    requires forall r :: r in ss[n].received ==>
               r.uid in answers && answers[r.uid] == if r.ok then Result(r.value) else Raised(r.value)
    ensures f in ss[n].uidOf && ss[n].uidOf[f] in answers && ss[n].done[f] == answers[ss[n].uidOf[f]]
  {
    ClientRunKeeps(ss, steps, n);
    RepliesReachTheirFutures(ss, steps, n, f);
    FirstReplyIsOne(ss[n].received, ss[n].uidOf[f], ss[n].born[f]);
  }
}
