/** What becomes of every accepted play request: started once and in order, or dropped for
    a reason that can be named. */
module ProtocolDelivery {
  import opened Lifecycle
  import opened Protocol
  import opened ProtocolControl
  import P = Player

  // ---- The pipeline from acceptance to start ----

  function StartedTickets(started: seq<Start>): seq<nat> {
    if started == [] then []
    else StartedTickets(started[..|started| - 1]) + [started[|started| - 1].ticket]
  }

  function MailTickets(c: Config, m: Mail): seq<nat> {
    if m.track == c.cat.maxTracks then [] else [m.ticket]
  }

  function HandTickets(t: Task): seq<nat> {
    if t.Handling? && t.msg.PlayMsg? then [t.msg.ticket] else []
  }

  /** Tickets of the requests started, in the mailbox, in the task's hand and in the queue,
      in this order. */
  function Pipeline(c: Config, s: State): seq<nat> {
    StartedTickets(s.h.started) + MailTickets(c, s.mailbox) + HandTickets(s.task) + Tickets(s.queue)
  }

  predicate Increasing(a: seq<nat>) {
    forall i, j | 0 <= i < j < |a| :: a[i] < a[j]
  }

  /** Of n tickets, each is either in the pipeline, once and in order, or dropped. */
  ghost predicate Accounted(n: nat, pipe: seq<nat>, dropped: map<nat, Drop>) {
    && Increasing(pipe)
    && (forall t | t in pipe :: t < n)
    && (forall t | t in dropped :: t < n)
    && (forall t: nat | t < n :: t in pipe <==> t !in dropped)
  }

  lemma AccountedAppend(n: nat, pipe: seq<nat>, dropped: map<nat, Drop>)
    requires Accounted(n, pipe, dropped)
    ensures Accounted(n + 1, pipe + [n], dropped)
  {
    var p := pipe + [n];
    assert forall i | 0 <= i < |pipe| :: p[i] == pipe[i] && pipe[i] in pipe;
    assert forall t :: t in p <==> t in pipe || t == n;
  }

  lemma AccountedDrop(n: nat, a: seq<nat>, x: nat, b: seq<nat>, dropped: map<nat, Drop>, d: Drop)
    requires Accounted(n, a + [x] + b, dropped)
    ensures Accounted(n, a + b, dropped[x := d])
  {
    var p, r := a + [x] + b, a + b;
    assert forall i | 0 <= i < |r| :: r[i] == p[if i < |a| then i else i + 1];
    assert p[|a|] == x;
    assert forall t :: t in p <==> t in a || t == x || t in b;
    assert x !in r;
  }

  lemma {:induction false} AccountedDropAll(n: nat, a: seq<nat>, b: seq<nat>, dropped: map<nat, Drop>)
    requires Accounted(n, a + b, dropped)
    ensures Accounted(n, a, DropAll(dropped, b))
    ensures forall t | t in b :: t !in dropped
  {
    var p := a + b;
    assert forall i | 0 <= i < |a| :: a[i] == p[i];
    assert forall t :: t in p <==> t in a || t in b;
    forall t | t in b ensures t !in a && t in p {
      var j :| 0 <= j < |b| && b[j] == t;
      assert p[|a| + j] == t;
    }
  }

  // ---- The invariant ----

  predicate IsRequest(s: State, ticket: nat, session: nat, track: nat) {
    ticket < |s.h.accepted| && s.h.accepted[ticket] == Request(session, track)
  }

  /** What is under way belongs to this session and carries what was requested. */
  ghost predicate ContentsInv(c: Config, s: State) {
    && (!MailEmpty(c, s) ==> IsRequest(s, s.mailbox.ticket, s.h.session, s.mailbox.track))
    && (s.task.Handling? && s.task.msg.PlayMsg? ==>
          IsRequest(s, s.task.msg.ticket, s.h.session, s.task.msg.track))
    && (forall i | 0 <= i < |s.queue| && s.queue[i].PlayMsg? ::
          IsRequest(s, s.queue[i].ticket, s.h.session, s.queue[i].track))
    && (forall i | 0 <= i < |s.h.started| ::
          var e := s.h.started[i];
          IsRequest(s, e.ticket, e.session, e.track) && e.track != c.cat.maxTracks)
  }

  /** Every drop has its reason. An overwriting request is a later one of the same session
      that has left the queue; a request is only cut off once its session is ending. */
  ghost predicate DropInv(c: Config, s: State, t: nat, d: Drop)
    requires t < |s.h.accepted|
  {
    match d
    case Overwritten(u) =>
      && t < u < |s.h.accepted| && s.h.accepted[u].session == s.h.accepted[t].session
      && u !in HandTickets(s.task) && u !in Tickets(s.queue)
      && s.h.accepted[t].track != c.cat.maxTracks
    case Sentinel => s.h.accepted[t].track == c.cat.maxTracks
    case CutOff => s.phase == Running || s.control == Starting ==> s.h.accepted[t].session < s.h.session
  }

  ghost predicate AccountInv(c: Config, s: State) {
    Accounted(|s.h.accepted|, Pipeline(c, s), s.h.dropped)
  }

  ghost predicate DropsInv(c: Config, s: State) {
    && (forall t | t in s.h.dropped :: t < |s.h.accepted| && DropInv(c, s, t, s.h.dropped[t]))
    && (forall i | 0 <= i < |s.h.accepted| :: s.h.accepted[i].session <= s.h.session)
  }

  ghost predicate DeliveryInv(c: Config, s: State) {
    AccountInv(c, s) && ContentsInv(c, s) && DropsInv(c, s)
  }

  lemma InitialDelivery(c: Config, s: State)
    requires ConfigOk(c) && Initial(c, s)
    ensures DeliveryInv(c, s)
  {
  }

  // ---- The steps that move requests ----

  lemma {:induction false} TicketsAppend(queue: seq<Msg>, m: Msg)
    ensures Tickets(queue + [m]) == Tickets(queue) + if m.PlayMsg? then [m.ticket] else []
  {
    if queue == [] {
      assert queue + [m] == [m] && [m][1..] == [];
    } else {
      var first, last := if queue[0].PlayMsg? then [queue[0].ticket] else [], if m.PlayMsg? then [m.ticket] else [];
      assert (queue + [m])[1..] == queue[1..] + [m];
      TicketsAppend(queue[1..], m);
      assert first + (Tickets(queue[1..]) + last) == (first + Tickets(queue[1..])) + last;
    }
  }

  /** A step that leaves the requests where they are, and starts no session. */
  predicate SameRequests(s: State, t: State) {
    && t.h.accepted == s.h.accepted && t.h.started == s.h.started && t.h.dropped == s.h.dropped
    && t.h.session == s.h.session && t.mailbox == s.mailbox
  }

  lemma UntouchedKeeps(c: Config, s: State, t: State)
    requires DeliveryInv(c, s) && SameRequests(s, t)
    requires t.queue == s.queue
    requires HandTickets(t.task) == HandTickets(s.task)
    requires t.task.Handling? && t.task.msg.PlayMsg? ==> t.task == s.task
    requires t.phase == Running || t.control == Starting ==> s.phase == Running || s.control == Starting
    ensures DeliveryInv(c, t)
  {
  }

  lemma SendKeeps(c: Config, track: nat, s: State, t: State)
    requires DeliveryInv(c, s) && t == CallerApply(c, PlaySend(track), s)
    ensures DeliveryInv(c, t)
  {
    if |s.queue| < c.capacity {
      var n := |s.h.accepted|;
      assert t.queue == s.queue + [PlayMsg(track, n)] && HandTickets(t.task) == HandTickets(s.task);
      SendKeepsAccount(c, track, s, t);
      SendKeepsContents(c, track, s, t);
      SendKeepsDrops(c, track, s, t);
    } else {
      UntouchedKeeps(c, s, t);
    }
  }

  /** A request with ticket n is accepted at the end of the queue. */
  predicate Accepts(track: nat, s: State, t: State) {
    var n := |s.h.accepted|;
    && t.queue == s.queue + [PlayMsg(track, n)]
    && t.h == s.h.(accepted := s.h.accepted + [Request(s.h.session, track)])
    && t.mailbox == s.mailbox && t.phase == s.phase && t.control == s.control
    && (t.task == s.task || (t.task.Waiting? && s.task.Waiting?))
  }

  lemma SendKeepsAccount(c: Config, track: nat, s: State, t: State)
    requires AccountInv(c, s) && Accepts(track, s, t)
    ensures AccountInv(c, t)
  {
    var n := |s.h.accepted|;
    TicketsAppend(s.queue, PlayMsg(track, n));
    assert HandTickets(t.task) == HandTickets(s.task);
    assert Pipeline(c, t) == Pipeline(c, s) + [n];
    AccountedAppend(n, Pipeline(c, s), s.h.dropped);
  }

  lemma SendKeepsContents(c: Config, track: nat, s: State, t: State)
    requires ContentsInv(c, s) && Accepts(track, s, t)
    ensures ContentsInv(c, t)
  {
  }

  lemma SendKeepsDrops(c: Config, track: nat, s: State, t: State)
    requires DropsInv(c, s) && Accepts(track, s, t)
    ensures DropsInv(c, t)
  {
    var n := |s.h.accepted|;
    TicketsAppend(s.queue, PlayMsg(track, n));
    assert forall u | u in Tickets(t.queue) :: u in Tickets(s.queue) || u == n;
    assert HandTickets(t.task) == HandTickets(s.task);
    forall u | u in t.h.dropped ensures u < |t.h.accepted| && DropInv(c, t, u, t.h.dropped[u]) {
      assert DropInv(c, s, u, s.h.dropped[u]);
    }
  }

  lemma EndSendKeeps(c: Config, s: State, t: State)
    requires DeliveryInv(c, s) && s.control == Sending && t == ControlApply(c, EndSend, s)
    ensures DeliveryInv(c, t)
  {
    if |s.queue| < c.capacity {
      TicketsAppend(s.queue, EndMsg);
      assert Tickets(t.queue) == Tickets(s.queue) && HandTickets(t.task) == HandTickets(s.task);
      assert forall i | 0 <= i < |t.queue| && t.queue[i].PlayMsg? :: i < |s.queue| && t.queue[i] == s.queue[i];
    }
    SamePipelineKeeps(c, s, t);
  }

  /** Requests may move along the pipeline, but none enters or leaves it. */
  lemma SamePipelineKeeps(c: Config, s: State, t: State)
    requires DeliveryInv(c, s) && SameRequests(s, t)
    requires HandTickets(t.task) + Tickets(t.queue) == HandTickets(s.task) + Tickets(s.queue)
    requires t.task.Handling? && t.task.msg.PlayMsg? ==>
               IsRequest(s, t.task.msg.ticket, s.h.session, t.task.msg.track)
    requires forall i | 0 <= i < |t.queue| && t.queue[i].PlayMsg? ::
               IsRequest(s, t.queue[i].ticket, s.h.session, t.queue[i].track)
    requires t.phase == Running || t.control == Starting ==> s.phase == Running || s.control == Starting
    ensures DeliveryInv(c, t)
  {
    SamePipelineAccount(c, s, t);
    SameWaiting(HandTickets(s.task), Tickets(s.queue), HandTickets(t.task), Tickets(t.queue));
    forall u | u in t.h.dropped ensures u < |t.h.accepted| && DropInv(c, t, u, t.h.dropped[u]) {
      assert DropInv(c, s, u, s.h.dropped[u]);
    }
  }

  lemma SamePipelineAccount(c: Config, s: State, t: State)
    requires AccountInv(c, s) && SameRequests(s, t)
    requires HandTickets(t.task) + Tickets(t.queue) == HandTickets(s.task) + Tickets(s.queue)
    ensures AccountInv(c, t)
  {
    var a := StartedTickets(s.h.started) + MailTickets(c, s.mailbox);
    assert Pipeline(c, t) == a + (HandTickets(t.task) + Tickets(t.queue));
    assert Pipeline(c, s) == a + (HandTickets(s.task) + Tickets(s.queue));
  }

  lemma SameWaiting(a: seq<nat>, b: seq<nat>, d: seq<nat>, e: seq<nat>)
    requires a + b == d + e
    ensures forall u :: u in a || u in b <==> u in d || u in e
  {
    assert forall u :: u in a + b <==> u in a || u in b;
    assert forall u :: u in d + e <==> u in d || u in e;
  }

  lemma TakeKeeps(c: Config, s: State, t: State)
    requires DeliveryInv(c, s) && s.task == AtGet && s.queue != [] && t == TaskApply(c, s)
    ensures DeliveryInv(c, t)
  {
    assert HandTickets(s.task) == [];
    assert forall i | 0 <= i < |t.queue| :: t.queue[i] == s.queue[i + 1];
    SamePipelineKeeps(c, s, t);
  }

  /** The task hands a request to the mailbox: the one it displaces is overwritten, and a
      request for the sentinel is void at once. */
  lemma DeliverKeeps(c: Config, s: State, t: State)
    requires DeliveryInv(c, s) && s.task.Handling? && s.task.msg.PlayMsg?
    requires t == Deliver(c, s, s.task.msg.track, s.task.msg.ticket)
    ensures DeliveryInv(c, t)
  {
    DeliverKeepsAccount(c, s, t);
    DeliverKeepsDrops(c, s, t);
  }

  lemma DeliverKeepsAccount(c: Config, s: State, t: State)
    requires AccountInv(c, s) && s.task.Handling? && s.task.msg.PlayMsg?
    requires t == Deliver(c, s, s.task.msg.track, s.task.msg.ticket)
    ensures AccountInv(c, t)
  {
    var n, a, q := |s.h.accepted|, StartedTickets(s.h.started), Tickets(s.queue);
    var m, ticket, d := s.mailbox.ticket, s.task.msg.ticket, s.h.dropped;
    if MailEmpty(c, s) {
      assert Pipeline(c, s) == a + [ticket] + q;
    } else {
      assert Pipeline(c, s) == a + [m] + ([ticket] + q);
      AccountedDrop(n, a, m, [ticket] + q, d, Overwritten(ticket));
      d := d[m := Overwritten(ticket)];
      assert a + ([ticket] + q) == a + [ticket] + q;
    }
    if s.task.msg.track == c.cat.maxTracks {
      AccountedDrop(n, a, ticket, q, d, Sentinel);
      assert Pipeline(c, t) == a + q;
    } else {
      assert Pipeline(c, t) == a + [ticket] + q;
    }
  }

  lemma DeliverKeepsDrops(c: Config, s: State, t: State)
    requires DeliveryInv(c, s) && s.task.Handling? && s.task.msg.PlayMsg?
    requires t == Deliver(c, s, s.task.msg.track, s.task.msg.ticket)
    ensures DropsInv(c, t)
  {
    if !MailEmpty(c, s) { DisplacedIsEarlier(c, s); }
    HandIsFirst(c, s);
    forall u | u in t.h.dropped ensures u < |t.h.accepted| && DropInv(c, t, u, t.h.dropped[u]) {
      if u in s.h.dropped { assert DropInv(c, s, u, s.h.dropped[u]); }
    }
  }

  lemma HandIsFirst(c: Config, s: State)
    requires AccountInv(c, s) && s.task.Handling? && s.task.msg.PlayMsg?
    ensures s.task.msg.ticket !in s.h.dropped
  {
    var p, q := Pipeline(c, s), Tickets(s.queue);
    assert p[|p| - |q| - 1] == s.task.msg.ticket;
  }

  lemma DisplacedIsEarlier(c: Config, s: State)
    requires AccountInv(c, s) && s.task.Handling? && s.task.msg.PlayMsg? && !MailEmpty(c, s)
    ensures s.mailbox.ticket < s.task.msg.ticket && s.task.msg.ticket !in Tickets(s.queue)
    ensures s.mailbox.ticket !in s.h.dropped && s.task.msg.ticket !in s.h.dropped
  {
    var p, k, q := Pipeline(c, s), |StartedTickets(s.h.started)|, Tickets(s.queue);
    assert p[k] == s.mailbox.ticket && p[k + 1] == s.task.msg.ticket;
    assert forall i | 0 <= i < |q| :: q[i] == p[k + 2 + i];
  }

  /** The player takes the mailbox over: a request in it is now started. */
  lemma PollKeeps(c: Config, s: State, t: State)
    requires ConfigOk(c) && P.LocalsOk(c.cat, s.locals) && DeliveryInv(c, s) && t == Iterate(c, s)
    ensures DeliveryInv(c, t)
  {
    PollKeepsAccount(c, s, t);
    assert t.h.accepted == s.h.accepted && t.h.session == s.h.session && t.phase == s.phase;
    assert t.h.dropped == s.h.dropped && t.queue == s.queue && t.task == s.task && t.control == s.control;
    assert DropsInv(c, t) by {
      forall u | u in t.h.dropped ensures u < |t.h.accepted| && DropInv(c, t, u, t.h.dropped[u]) {
        assert DropInv(c, s, u, s.h.dropped[u]);
      }
    }
  }

  lemma PollKeepsAccount(c: Config, s: State, t: State)
    requires ConfigOk(c) && P.LocalsOk(c.cat, s.locals) && AccountInv(c, s) && t == Iterate(c, s)
    ensures AccountInv(c, t)
  {
    PolledPipeline(c, s, t);
  }

  lemma PolledPipeline(c: Config, s: State, t: State)
    requires t.h.started == s.h.started + if MailEmpty(c, s) then []
                                          else [Start(s.h.session, s.mailbox.ticket, s.mailbox.track)]
    requires MailEmpty(c, t) && t.queue == s.queue && t.task == s.task
    ensures Pipeline(c, t) == Pipeline(c, s)
  {
    if MailEmpty(c, s) {
      assert t.h.started == s.h.started;
    } else {
      assert t.h.started[..|t.h.started| - 1] == s.h.started;
      assert StartedTickets(t.h.started) == StartedTickets(s.h.started) + [s.mailbox.ticket];
    }
  }

  lemma ClearKeeps(c: Config, s: State, t: State)
    requires ConfigOk(c) && ControlInv(c, s) && DeliveryInv(c, s) && s.player == AtClear && t == PlayerApply(c, s)
    ensures DeliveryInv(c, t)
  {
    assert s.phase != Running && s.control != Starting;
    ClearKeepsAccount(c, s, t);
    ClearKeepsDrops(c, s, t);
  }

  lemma ClearKeepsAccount(c: Config, s: State, t: State)
    requires ConfigOk(c) && AccountInv(c, s) && s.player == AtClear && t == PlayerApply(c, s)
    ensures AccountInv(c, t)
  {
    var a, b := StartedTickets(s.h.started), HandTickets(s.task) + Tickets(s.queue);
    if MailEmpty(c, s) {
      assert Pipeline(c, t) == Pipeline(c, s);
    } else {
      assert Pipeline(c, s) == a + [s.mailbox.ticket] + b;
      AccountedDrop(|s.h.accepted|, a, s.mailbox.ticket, b, s.h.dropped, CutOff);
      assert Pipeline(c, t) == a + b;
    }
  }

  lemma ClearKeepsDrops(c: Config, s: State, t: State)
    requires ConfigOk(c) && DeliveryInv(c, s) && s.player == AtClear && t == PlayerApply(c, s)
    requires s.phase != Running && s.control != Starting
    ensures DropsInv(c, t)
  {
    forall u | u in t.h.dropped ensures u < |t.h.accepted| && DropInv(c, t, u, t.h.dropped[u]) {
      if u in s.h.dropped { assert DropInv(c, s, u, s.h.dropped[u]); }
    }
  }

  /** Closing finds both threads gone and drops what the queue still holds. */
  lemma CloseCutsOff(c: Config, env: CloseEnv, s: State, t: State)
    requires ConfigOk(c) && ControlInv(c, s) && Step(c, EndClose(env), s, t)
    ensures t.phase != Running && t.control != Starting && t.h.started == s.h.started
    ensures t.h.accepted == s.h.accepted && t.h.session == s.h.session && t.player == s.player
    ensures t.queue == [] && t.h.dropped == DropAll(s.h.dropped, Tickets(s.queue))
    ensures HandTickets(s.task) == [] && HandTickets(t.task) == []
    ensures MailEmpty(c, s) && MailEmpty(c, t)
    ensures s.queue != [] ==> s.player == PlayerDone
  {
  }

  lemma CloseKeeps(c: Config, env: CloseEnv, s: State, t: State)
    requires ConfigOk(c) && ControlInv(c, s) && DeliveryInv(c, s) && Step(c, EndClose(env), s, t)
    ensures DeliveryInv(c, t)
  {
    CloseCutsOff(c, env, s, t);
    CloseKeepsAccount(c, s, t);
    CloseKeepsDrops(c, s, t);
  }

  lemma CloseKeepsAccount(c: Config, s: State, t: State)
    requires AccountInv(c, s) && HandTickets(s.task) == [] && HandTickets(t.task) == []
    requires MailEmpty(c, s) && MailEmpty(c, t) && t.queue == [] && t.h.started == s.h.started
    requires t.h.accepted == s.h.accepted && t.h.dropped == DropAll(s.h.dropped, Tickets(s.queue))
    ensures AccountInv(c, t)
  {
    var a, b := StartedTickets(s.h.started), Tickets(s.queue);
    assert Pipeline(c, s) == a + b;
    AccountedDropAll(|s.h.accepted|, a, b, s.h.dropped);
    assert Pipeline(c, t) == a;
  }

  lemma CloseKeepsDrops(c: Config, s: State, t: State)
    requires AccountInv(c, s) && DropsInv(c, s)
    requires HandTickets(s.task) == [] && HandTickets(t.task) == [] && MailEmpty(c, s) && t.queue == []
    requires t.h.accepted == s.h.accepted && t.h.session == s.h.session
    requires t.h.dropped == DropAll(s.h.dropped, Tickets(s.queue))
    requires t.phase != Running && t.control != Starting
    ensures DropsInv(c, t)
  {
    var a, b := StartedTickets(s.h.started), Tickets(s.queue);
    assert Pipeline(c, s) == a + b;
    AccountedDropAll(|s.h.accepted|, a, b, s.h.dropped);
    assert forall u | u in b :: u in a + b;
    forall u | u in t.h.dropped ensures u < |t.h.accepted| && DropInv(c, t, u, t.h.dropped[u]) {
      if u in s.h.dropped { assert DropInv(c, s, u, s.h.dropped[u]); }
    }
  }

  lemma StartKeeps(c: Config, created: bool, s: State, t: State)
    requires ConfigOk(c) && ControlInv(c, s) && DeliveryInv(c, s) && Step(c, StartCall(created), s, t)
    ensures DeliveryInv(c, t)
  {
    if s.phase == Inited && created {
      assert HandTickets(s.task) == [] && HandTickets(t.task) == [];
      assert Pipeline(c, t) == Pipeline(c, s);
      forall u | u in t.h.dropped ensures u < |t.h.accepted| && DropInv(c, t, u, t.h.dropped[u]) {
        assert DropInv(c, s, u, s.h.dropped[u]);
      }
    }
  }

  /** No request moves, and no session starts. */
  ghost predicate NothingMoves(s: State, t: State) {
    && SameRequests(s, t) && t.queue == s.queue
    && HandTickets(t.task) == HandTickets(s.task)
    && (t.task.Handling? && t.task.msg.PlayMsg? ==> t.task == s.task)
    && (t.phase == Running || t.control == Starting ==> s.phase == Running || s.control == Starting)
  }

  lemma OtherTaskStepFrame(c: Config, a: Action, s: State, t: State)
    requires ControlInv(c, s) && (a.TaskStep? || a.SpuriousWakeup?) && Enabled(a, s) && t == TaskApply(c, s)
    requires a.TaskStep? ==> (s.task == AtGet ==> s.queue == []) && (s.task.Handling? ==> s.task.msg == EndMsg)
    ensures NothingMoves(s, t)
  {
  }

  lemma OtherStepFrame(c: Config, a: Action, s: State, t: State)
    requires ConfigOk(c) && ControlInv(c, s) && Step(c, a, s, t)
    requires !a.PlaySend? && !a.EndSend? && !a.EndClose? && !a.StartCall? && !a.PlayerStep?
    requires a.TaskStep? ==> (s.task == AtGet ==> s.queue == []) && (s.task.Handling? ==> s.task.msg == EndMsg)
    ensures NothingMoves(s, t)
  {
    match a
    case TaskStep => OtherTaskStepFrame(c, a, s, t);
    case SpuriousWakeup => OtherTaskStepFrame(c, a, s, t);
    case InitCall(env) => InitMovesNothing(c, env, s, t);
    case _ =>
  }

  lemma InitMovesNothing(c: Config, env: InitEnv, s: State, t: State)
    requires ControlInv(c, s) && t == ControlApply(c, InitCall(env), s)
    ensures NothingMoves(s, t)
  {
  }

  lemma OtherStepKeeps(c: Config, a: Action, s: State, t: State)
    requires ConfigOk(c) && ControlInv(c, s) && DeliveryInv(c, s) && Step(c, a, s, t)
    requires !a.PlaySend? && !a.EndSend? && !a.EndClose? && !a.StartCall? && !a.PlayerStep?
    requires a.TaskStep? ==> (s.task == AtGet ==> s.queue == []) && (s.task.Handling? ==> s.task.msg == EndMsg)
    ensures DeliveryInv(c, t)
  {
    OtherStepFrame(c, a, s, t);
    UntouchedKeeps(c, s, t);
  }

  lemma QuietPlayerKeeps(c: Config, s: State, t: State)
    requires ConfigOk(c) && DeliveryInv(c, s) && s.player != AtPoll && s.player != AtClear && t == PlayerApply(c, s)
    ensures DeliveryInv(c, t)
  {
    UntouchedKeeps(c, s, t);
  }

  lemma StepKeepsDelivery(c: Config, a: Action, s: State, t: State)
    requires ConfigOk(c) && ControlInv(c, s) && DeliveryInv(c, s) && Step(c, a, s, t)
    ensures DeliveryInv(c, t)
  {
    match a
    case PlaySend(track) => SendKeeps(c, track, s, t);
    case EndSend => EndSendKeeps(c, s, t);
    case EndClose(env) => CloseKeeps(c, env, s, t);
    case StartCall(created) => StartKeeps(c, created, s, t);
    case PlayerStep =>
      if s.player == AtPoll { PollKeeps(c, s, t); }
      else if s.player == AtClear { ClearKeeps(c, s, t); }
      else { QuietPlayerKeeps(c, s, t); }
    case TaskStep =>
      if s.task == AtGet && s.queue != [] { TakeKeeps(c, s, t); }
      else if s.task.Handling? && s.task.msg.PlayMsg? { DeliverKeeps(c, s, t); }
      else { OtherStepKeeps(c, a, s, t); }
    case _ => OtherStepKeeps(c, a, s, t);
  }

  lemma RunDelivery(c: Config, run: nat -> State, act: nat -> Action, i: nat)
    requires ConfigOk(c) && Execution(c, run, act)
    ensures ControlInv(c, run(i)) && DeliveryInv(c, run(i))
  {
    RunControl(c, run, act, i);
    DeliveryHolds(c, run, act, i);
  }

  lemma {:induction false} DeliveryHolds(c: Config, run: nat -> State, act: nat -> Action, i: nat)
    requires ConfigOk(c) && Execution(c, run, act)
    ensures DeliveryInv(c, run(i))
  {
    if i == 0 {
      InitialDelivery(c, run(0));
    } else {
      DeliveryHolds(c, run, act, i - 1);
      NextDelivery(c, run, act, i);
    }
  }

  lemma NextDelivery(c: Config, run: nat -> State, act: nat -> Action, i: nat)
    requires ConfigOk(c) && Execution(c, run, act) && i > 0 && DeliveryInv(c, run(i - 1))
    ensures DeliveryInv(c, run(i))
  {
    RunControl(c, run, act, i - 1);
    assert StepAt(c, run, act, i - 1);
    StepKeepsDelivery(c, act(i - 1), run(i - 1), run(i));
  }

  // ---- Theorems about every run ----

  lemma {:induction false} StartedTicketAt(started: seq<Start>, k: nat)
    requires k < |started|
    ensures |StartedTickets(started)| == |started| && StartedTickets(started)[k] == started[k].ticket
  {
    var n := |started| - 1;
    if k < n {
      StartedTicketAt(started[..n], k);
    } else if n > 0 {
      StartedTicketAt(started[..n], n - 1);
    }
  }

  /** End-to-end delivery: the player starts accepted requests in the order of acceptance,
      none twice, each with the track and in the session it was requested. */
  lemma StartedInOrder(c: Config, run: nat -> State, act: nat -> Action, i: nat)
    requires ConfigOk(c) && Execution(c, run, act)
    ensures var h := run(i).h;
            && (forall x, y | 0 <= x < y < |h.started| :: h.started[x].ticket < h.started[y].ticket)
            && (forall x | 0 <= x < |h.started| ::
                  var e := h.started[x];
                  && e.ticket < |h.accepted| && h.accepted[e.ticket] == Request(e.session, e.track)
                  && e.track != c.cat.maxTracks)
  {
    RunDelivery(c, run, act, i);
    var s := run(i);
    var a := StartedTickets(s.h.started);
    assert forall x | 0 <= x < |a| :: a[x] == Pipeline(c, s)[x];
    forall x, y | 0 <= x < y < |s.h.started| ensures s.h.started[x].ticket < s.h.started[y].ticket {
      StartedTicketAt(s.h.started, x);
      StartedTicketAt(s.h.started, y);
    }
  }

  lemma StartedWasRequested(c: Config, s: State, t: nat)
    requires ContentsInv(c, s) && t in StartedTickets(s.h.started) && t < |s.h.accepted|
    ensures s.h.accepted[t].track != c.cat.maxTracks
  {
    if forall m | 0 <= m < |s.h.started| :: s.h.started[m].ticket != t {
      NeverStarted(s.h.started, t);
    }
  }

  /** While a session runs, none of its requests is cut off: each is under way, started,
      overwritten by a later one that has left the queue, or void. */
  lemma NothingCutOffWhileRunning(c: Config, run: nat -> State, act: nat -> Action, i: nat, t: nat)
    requires ConfigOk(c) && Execution(c, run, act) && run(i).phase == Running
    requires t < |run(i).h.accepted| && run(i).h.accepted[t].session == run(i).h.session
    ensures var s := run(i);
            t in Pipeline(c, s) ||
            (t in s.h.dropped && s.h.dropped[t] != CutOff
             && (s.h.dropped[t].Overwritten? ==> s.h.dropped[t].later !in Tickets(s.queue)))
  {
    RunDelivery(c, run, act, i);
    var s := run(i);
    if t in s.h.dropped { assert DropInv(c, s, t, s.h.dropped[t]); }
  }

  /** History only grows. */
  predicate Extends(h: History, k: History) {
    && |h.started| <= |k.started| && k.started[..|h.started|] == h.started
    && |h.accepted| <= |k.accepted| && k.accepted[..|h.accepted|] == h.accepted
    && h.dropped.Keys <= k.dropped.Keys
  }

  lemma PlayerStepExtends(c: Config, s: State, t: State)
    requires ConfigOk(c) && ControlInv(c, s) && Step(c, PlayerStep, s, t)
    ensures Extends(s.h, t.h)
  {
  }

  lemma TaskStepExtends(c: Config, s: State, t: State)
    requires t == TaskApply(c, s)
    ensures Extends(s.h, t.h)
  {
  }

  lemma OtherStepExtends(c: Config, a: Action, s: State, t: State)
    requires ConfigOk(c) && Step(c, a, s, t) && !a.PlayerStep? && !a.TaskStep? && !a.SpuriousWakeup?
    ensures Extends(s.h, t.h)
  {
  }

  lemma StepExtends(c: Config, a: Action, s: State, t: State)
    requires ConfigOk(c) && ControlInv(c, s) && Step(c, a, s, t)
    ensures Extends(s.h, t.h)
  {
    if a.PlayerStep? {
      PlayerStepExtends(c, s, t);
    } else if a.TaskStep? || a.SpuriousWakeup? {
      TaskStepExtends(c, s, t);
    } else {
      OtherStepExtends(c, a, s, t);
    }
  }

  lemma {:induction false} RunExtends(c: Config, run: nat -> State, act: nat -> Action, i: nat, j: nat)
    requires ConfigOk(c) && Execution(c, run, act) && i <= j
    ensures Extends(run(i).h, run(j).h)
    decreases j
  {
    if i == j {
    } else {
      RunExtends(c, run, act, i, j - 1);
      NextExtends(c, run, act, j - 1);
      ExtendsTransitive(run(i).h, run(j - 1).h, run(j).h);
    }
  }

  lemma NextExtends(c: Config, run: nat -> State, act: nat -> Action, k: nat)
    requires ConfigOk(c) && Execution(c, run, act)
    ensures Extends(run(k).h, run(k + 1).h)
  {
    RunControl(c, run, act, k);
    assert StepAt(c, run, act, k);
    StepExtends(c, act(k), run(k), run(k + 1));
  }

  lemma ExtendsTransitive(g: History, h: History, k: History)
    requires Extends(g, h) && Extends(h, k)
    ensures Extends(g, k)
  {
    assert k.started[..|g.started|] == h.started[..|g.started|];
    assert k.accepted[..|g.accepted|] == h.accepted[..|g.accepted|];
  }

  /** Session isolation: no request accepted before a successful Audio_end is started after
      it. Whatever starts later was accepted later. */
  lemma SessionIsolation(c: Config, run: nat -> State, act: nat -> Action, i: nat, j: nat, k: nat)
    requires ConfigOk(c) && Execution(c, run, act) && run(i).phase == Ended && i <= j
    requires |run(i).h.started| <= k < |run(j).h.started|
    ensures run(j).h.started[k].ticket >= |run(i).h.accepted|
  {
    RunDelivery(c, run, act, i);
    RunDelivery(c, run, act, j);
    RunExtends(c, run, act, i, j);
    StartedInOrder(c, run, act, j);
    LaterStartsAreNew(c, run(i), run(j), k);
  }

  lemma LaterStartsAreNew(c: Config, s: State, t: State, k: nat)
    requires AccountInv(c, s) && AccountInv(c, t) && Extends(s.h, t.h)
    requires MailEmpty(c, s) && HandTickets(s.task) == [] && s.queue == []
    requires forall x, y | 0 <= x < y < |t.h.started| :: t.h.started[x].ticket < t.h.started[y].ticket
    requires |s.h.started| <= k < |t.h.started|
    ensures t.h.started[k].ticket >= |s.h.accepted|
  {
    var x := t.h.started[k].ticket;
    StartedTicketAt(t.h.started, k);
    assert Pipeline(c, t)[k] == x;
    assert x in Pipeline(c, t) && x !in t.h.dropped;
    assert Pipeline(c, s) == StartedTickets(s.h.started);
    forall m | 0 <= m < |s.h.started| ensures s.h.started[m].ticket != x {
      assert t.h.started[..|s.h.started|][m] == t.h.started[m];
    }
    NeverStarted(s.h.started, x);
  }

  lemma {:induction false} NeverStarted(started: seq<Start>, x: nat)
    requires forall m | 0 <= m < |started| :: started[m].ticket != x
    ensures x !in StartedTickets(started)
  {
    if started == [] {
    } else {
      NeverStarted(started[..|started| - 1], x);
    }
  }
}
