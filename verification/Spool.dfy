/** The file spool between submit clients and the single submit service. Clients publish, wait, time out and
    retry at any moment; the service claims one file at a time, handles it and writes the response. */
module Spool {
  import opened Text
  import opened Submit

  // ---------------------------------------------------------------- one client call

  datatype ClientResult = Response(reply: Reply) | TimedOut | InvalidId

  /** The first response of all is found at this look, after the request was published this often. */
  ghost predicate FoundAt(poll: (nat, nat) -> Option<Reply>, looks: nat, published: nat, look: nat, reply: Reply) {
    && published > 0 && poll(published - 1, look) == Some(reply)
    && forall a, p :: 0 <= a < published && 0 <= p < looks && (a < published - 1 || p < look) ==> poll(a, p) == None
  }

  /** `spool_request`: publish, poll until the deadline, publish again. `poll(a, p)` is what the `p`-th look at
      the response path during attempt `a` finds. The first response found is returned, and the request was
      published once for every attempt up to that one. */
  method SpoolRequest(id: string, attempts: nat, looks: nat, poll: (nat, nat) -> Option<Reply>)
    returns (r: ClientResult, published: nat)
    ensures r.InvalidId? <==> !IsRequestId(id)
    ensures r.InvalidId? ==> published == 0
    ensures r.TimedOut? ==> published == attempts && forall a, p :: 0 <= a < attempts && 0 <= p < looks ==> poll(a, p) == None
    ensures r.Response? ==> 1 <= published <= attempts
    ensures r.Response? ==> exists look: nat :: look < looks && FoundAt(poll, looks, published, look, r.reply)
  {
    published := 0;
    if !IsRequestId(id) { return InvalidId, 0; }
    while published < attempts
      invariant published <= attempts
      invariant forall a, p :: 0 <= a < published && 0 <= p < looks ==> poll(a, p) == None
    {
      var attempt := published;
      published := published + 1;
      var look := 0;
      while look < looks
        invariant look <= looks
        invariant forall p :: 0 <= p < look ==> poll(attempt, p) == None
      {
        var found := poll(attempt, look);
        if found.Some? {
          assert FoundAt(poll, looks, published, look, found.value);
          return Response(found.value), published;
        }
        look := look + 1;
      }
    }
    return TimedOut, published;
  }

  // ---------------------------------------------------------------- clients and service together

  datatype Phase = ToPublish | Waiting | Removing(reply: Reply) | Got(reply: Reply) | GaveUp

  datatype Client = Client(id: string, req: Request, triesLeft: nat, phase: Phase)

  datatype Serving = Free | Claimed(id: string, req: Request) | Answering(id: string, reply: Reply)

  datatype Spool = Spool(
    limit: nat, rule: string, session: SubmitState, inbox: map<string, Request>, serving: Serving,
    outbox: map<string, Reply>, clients: seq<Client>)

  datatype Event =
    | Start(id: string, req: Request, tries: nat)   // a client call begins
    | Publish(client: nat)                          // its request file replaces any earlier one
    | Expire(client: nat)                           // its deadline passes
    | Read(client: nat)                             // it reads the response file
    | Remove(client: nat)                           // it removes the response file and returns
    | Claim(id: string)
    | Handle(v: Verification)
    | Deliver

  function Empty(limit: nat, rule: string): Spool {
    Spool(limit, rule, NOTHING_SUBMITTED, map[], Free, map[], [])
  }

  predicate Can(s: Spool, e: Event) {
    match e
    case Start(_, _, _) => true
    case Publish(i) => i < |s.clients| && s.clients[i].phase.ToPublish? && s.clients[i].triesLeft > 0
    case Expire(i) => i < |s.clients| && s.clients[i].phase.Waiting?
    case Read(i) => i < |s.clients| && s.clients[i].phase.Waiting? && s.clients[i].id in s.outbox
    case Remove(i) => i < |s.clients| && s.clients[i].phase.Removing?
    case Claim(id) => s.serving.Free? && id in s.inbox
    case Handle(_) => s.serving.Claimed?
    case Deliver => s.serving.Answering?
  }

  function Enter(s: Spool, i: nat, phase: Phase, tries: nat): Spool
    requires i < |s.clients|
  {
    s.(clients := s.clients[i := s.clients[i].(phase := phase, triesLeft := tries)])
  }

  function Next(s: Spool, e: Event): Spool
    requires Can(s, e)
  {
    match e
    case Start(id, req, tries) => s.(clients := s.clients + [Client(id, req, tries, ToPublish)])
    case Publish(i) =>
      Enter(s, i, Waiting, s.clients[i].triesLeft - 1).(inbox := s.inbox[s.clients[i].id := s.clients[i].req])
    case Expire(i) => Enter(s, i, if s.clients[i].triesLeft > 0 then ToPublish else GaveUp, s.clients[i].triesLeft)
    case Read(i) => Enter(s, i, Removing(s.outbox[s.clients[i].id]), s.clients[i].triesLeft)
    case Remove(i) =>
      Enter(s, i, Got(s.clients[i].phase.reply), s.clients[i].triesLeft).(outbox := s.outbox - {s.clients[i].id})
    case Claim(id) => s.(inbox := s.inbox - {id}, serving := Claimed(id, s.inbox[id]))
    case Handle(v) =>
      var (session, reply) := Serve(s.limit, s.rule, s.session, s.serving.id, s.serving.req, v);
      s.(session := session, serving := Answering(s.serving.id, reply))
    case Deliver => s.(outbox := s.outbox[s.serving.id := s.serving.reply], serving := Free)
  }

  predicate IsSpoolRun(s: Spool, events: seq<Event>)
    decreases |events|
  {
    events == [] || (Can(s, events[0]) && IsSpoolRun(Next(s, events[0]), events[1..]))
  }

  function SpoolEnd(s: Spool, events: seq<Event>): Spool
    requires IsSpoolRun(s, events)
    decreases |events|
  {
    if events == [] then s else SpoolEnd(Next(s, events[0]), events[1..])
  }

  // ---------------------------------------------------------------- at most once, in every run

  lemma EventKeepsSession(s: Spool, e: Event)
    requires Can(s, e) && SessionInv(s.limit, s.rule, s.session)
    ensures SessionInv(s.limit, s.rule, Next(s, e).session)
    ensures Next(s, e).limit == s.limit && Next(s, e).rule == s.rule
    ensures s.session.attempts <= Next(s, e).session.attempts
  {
    hide SessionInv, Serve;
    if e.Handle? { ServeKeeps(s.limit, s.rule, s.session, s.serving.id, s.serving.req, e.v); }
  }

  /** At-most-once submission. Over every run of clients and service, with any retries, timeouts and reused
      ids, attempts are numbered from 1 and never exceed the limit, each request id has at most one attempt,
      at most one attempt is accepted and it is the last, and the session is closed exactly then. */
  lemma {:induction false} AtMostOnce(s: Spool, events: seq<Event>)
    requires IsSpoolRun(s, events) && SessionInv(s.limit, s.rule, s.session)
    ensures SessionInv(s.limit, s.rule, SpoolEnd(s, events).session)
    ensures s.session.attempts <= SpoolEnd(s, events).session.attempts
    decreases |events|
  {
    hide SessionInv, Can, Next;
    if events != [] {
      EventKeepsSession(s, events[0]);
      AtMostOnce(Next(s, events[0]), events[1..]);
    }
  }

  // ---------------------------------------------------------------- what a client does in a run

  /** How often the event happens in the run. */
  function Times(events: seq<Event>, e: Event): nat {
    if events == [] then 0 else (if events[0] == e then 1 else 0) + Times(events[1..], e)
  }

  /** Its request is out: it was published and neither expired nor given up since. */
  function Out(c: Client): int { if c.phase.ToPublish? || c.phase.GaveUp? then 0 else 1 }

  lemma StepOfClient(s: Spool, e: Event, i: nat)
    requires Can(s, e) && i < |s.clients|
    ensures i < |Next(s, e).clients|
    ensures var c, c' := s.clients[i], Next(s, e).clients[i]; var published, expired := e == Publish(i), e == Expire(i);
      && c'.id == c.id && c'.req == c.req && c'.triesLeft == c.triesLeft - (if published then 1 else 0)
      && Out(c') == Out(c) + (if published then 1 else 0) - (if expired then 1 else 0)
  {
    hide Serve;
  }

  /** Over any stretch of a run a client publishes as often as its tries get fewer, every time its own request, and
      between two publications its deadline passes. */
  lemma {:induction false} TriesAreSpent(s: Spool, events: seq<Event>, i: nat)
    requires IsSpoolRun(s, events) && i < |s.clients|
    ensures var end := SpoolEnd(s, events).clients;
      && i < |end| && end[i].id == s.clients[i].id && end[i].req == s.clients[i].req
      && Times(events, Publish(i)) == s.clients[i].triesLeft - end[i].triesLeft
      && Times(events, Publish(i)) - Times(events, Expire(i)) == Out(end[i]) - Out(s.clients[i])
    decreases |events|
  {
    hide Can, Next, Out;
    if events != [] {
      StepOfClient(s, events[0], i);
      TriesAreSpent(Next(s, events[0]), events[1..], i);
    }
  }

  /** The client has returned, with a reply or with none after its last try, or it can go on by itself. */
  predicate GoesOn(s: Spool, i: nat)
    requires i < |s.clients|
  {
    var c := s.clients[i];
    || c.phase.Got? || (c.phase.GaveUp? && c.triesLeft == 0)
    || Can(s, Publish(i)) || Can(s, Expire(i)) || Can(s, Remove(i))
  }

  lemma StepGoesOn(s: Spool, e: Event)
    requires Can(s, e) && (e.Start? ==> e.tries > 0) && forall i :: 0 <= i < |s.clients| ==> GoesOn(s, i)
    ensures forall i :: 0 <= i < |Next(s, e).clients| ==> GoesOn(Next(s, e), i)
  {
    hide Serve;
    var s' := Next(s, e);
    forall i | 0 <= i < |s'.clients| ensures GoesOn(s', i) {
      if i < |s.clients| { assert GoesOn(s, i); }
    }
  }

  /** In every run in which calls have at least one try, no client is ever stuck, and none gives up before its last
      try is spent. */
  lemma {:induction false} ClientsGoOn(s: Spool, events: seq<Event>)
    requires IsSpoolRun(s, events) && forall i :: 0 <= i < |s.clients| ==> GoesOn(s, i)
    requires forall e :: e in events && e.Start? ==> e.tries > 0
    ensures var end := SpoolEnd(s, events); forall i :: 0 <= i < |end.clients| ==> GoesOn(end, i)
    decreases |events|
  {
    hide Can, Next, GoesOn;
    if events == [] {
      RunNothing(s);
    } else {
      assert events[0] in events;
      StepGoesOn(s, events[0]);
      ClientsGoOn(Next(s, events[0]), events[1..]);
      assert SpoolEnd(s, events) == SpoolEnd(Next(s, events[0]), events[1..]);
    }
  }

  // ---------------------------------------------------------------- one payload per id: one reply per id

  /** Nobody starts a call under an id that is in use for another payload. */
  ghost predicate Honest(s: Spool, e: Event) {
    e.Start? ==> forall i :: 0 <= i < |s.clients| && s.clients[i].id == e.id ==> s.clients[i].req == e.req
  }

  ghost predicate IsHonestRun(s: Spool, events: seq<Event>)
    decreases |events|
  {
    events == [] || (Can(s, events[0]) && Honest(s, events[0]) && IsHonestRun(Next(s, events[0]), events[1..]))
  }

  /** Some client published this. */
  ghost predicate Sent(s: Spool, id: string, req: Request) {
    exists i :: 0 <= i < |s.clients| && s.clients[i].id == id && s.clients[i].req == req
  }

  predicate IsStored(s: Spool, id: string, reply: Reply) { id in s.session.responses && s.session.responses[id].reply == reply }

  ghost predicate OnePayload(s: Spool) {
    forall i, j :: 0 <= i < j < |s.clients| && s.clients[i].id == s.clients[j].id ==> s.clients[i].req == s.clients[j].req
  }

  /** Requests on their way were sent by clients, and so was what the stored replies answer. */
  ghost predicate Requests(s: Spool) {
    && (forall id :: id in s.inbox ==> Sent(s, id, s.inbox[id]))
    && (s.serving.Claimed? ==> Sent(s, s.serving.id, s.serving.req))
    && (forall id :: id in s.session.responses ==> Sent(s, id, s.session.responses[id].fingerprint))
  }

  /** Every reply on its way back, or already returned, is the stored one. */
  ghost predicate Replies(s: Spool) {
    && (s.serving.Answering? ==> IsStored(s, s.serving.id, s.serving.reply))
    && (forall id :: id in s.outbox ==> IsStored(s, id, s.outbox[id]))
    && (forall i :: 0 <= i < |s.clients| && (s.clients[i].phase.Removing? || s.clients[i].phase.Got?) ==>
          IsStored(s, s.clients[i].id, s.clients[i].phase.reply))
  }

  ghost predicate SpoolInv(s: Spool) { OnePayload(s) && Requests(s) && Replies(s) }

  lemma SentUnique(s: Spool, id: string, a: Request, b: Request)
    requires OnePayload(s) && Sent(s, id, a) && Sent(s, id, b)
    ensures a == b
  {
    var i :| 0 <= i < |s.clients| && s.clients[i].id == id && s.clients[i].req == a;
    var j :| 0 <= j < |s.clients| && s.clients[j].id == id && s.clients[j].req == b;
    if i < j { assert s.clients[i].req == s.clients[j].req; } else if j < i { assert s.clients[j].req == s.clients[i].req; }
  }

  /** Clients keep their id and payload. */
  lemma ClientsKept(s: Spool, e: Event, i: nat)
    requires Can(s, e) && i < |s.clients|
    ensures i < |Next(s, e).clients| && Next(s, e).clients[i].id == s.clients[i].id && Next(s, e).clients[i].req == s.clients[i].req
  {
    hide Serve;
  }

  /** What was sent stays sent, whatever the clients do next. */
  lemma SentKept(s: Spool, e: Event, id: string, req: Request)
    requires Can(s, e) && Sent(s, id, req)
    ensures Sent(Next(s, e), id, req)
  {
    hide Can, Next;
    var i :| 0 <= i < |s.clients| && s.clients[i].id == id && s.clients[i].req == req;
    ClientsKept(s, e, i);
  }

  lemma OnePayloadKept(s: Spool, e: Event)
    requires Can(s, e) && Honest(s, e) && OnePayload(s)
    ensures OnePayload(Next(s, e))
  {
    hide Serve;
    forall i | 0 <= i < |s.clients|
      ensures Next(s, e).clients[i].id == s.clients[i].id && Next(s, e).clients[i].req == s.clients[i].req
    {
      ClientsKept(s, e, i);
    }
  }

  lemma RequestsKept(s: Spool, e: Event)
    requires Can(s, e) && Requests(s)
    ensures Requests(Next(s, e))
  {
    var s' := Next(s, e);
    forall id, req | Sent(s, id, req) ensures Sent(s', id, req) { SentKept(s, e, id, req); }
    if e.Publish? {
      var c := s.clients[e.client];
      assert Sent(s, c.id, c.req);
    }
    if e.Handle? { ServeStores(s.limit, s.rule, s.session, s.serving.id, s.serving.req, e.v); }
    hide Sent, Serve;
  }

  lemma RepliesKept(s: Spool, e: Event)
    requires Can(s, e) && !e.Handle? && Replies(s)
    ensures Replies(Next(s, e))
  {
    hide Serve;
  }

  lemma HandledReplies(s: Spool, e: Event)
    requires Can(s, e) && e.Handle? && SpoolInv(s)
    ensures Replies(Next(s, e))
  {
    ServeStores(s.limit, s.rule, s.session, s.serving.id, s.serving.req, e.v);
    if s.serving.id in s.session.responses {
      SentUnique(s, s.serving.id, s.serving.req, s.session.responses[s.serving.id].fingerprint);
    }
    hide Sent, Serve, OnePayload;
  }

  lemma HonestEventKeeps(s: Spool, e: Event)
    requires Can(s, e) && Honest(s, e) && SpoolInv(s)
    ensures SpoolInv(Next(s, e))
  {
    OnePayloadKept(s, e);
    RequestsKept(s, e);
    if e.Handle? { HandledReplies(s, e); } else { RepliesKept(s, e); }
  }

  /** One reply per id. In every run in which an id is only ever used for one payload, whatever the retries
      and timeouts, every client that returns gets the one stored reply of its id: all clients of an id agree,
      and if the reply reports an attempt, it is in the ledger under that id. */
  lemma {:induction false} EveryReplyIsTheStoredOne(s: Spool, events: seq<Event>)
    requires IsHonestRun(s, events) && SpoolInv(s)
    ensures IsSpoolRun(s, events) && SpoolInv(SpoolEnd(s, events))
    decreases |events|
  {
    hide SpoolInv, SessionInv, Can, Next, Honest;
    if events != [] {
      HonestEventKeeps(s, events[0]);
      EveryReplyIsTheStoredOne(Next(s, events[0]), events[1..]);
    }
  }

  lemma ClientsAgree(limit: nat, rule: string, events: seq<Event>, i: nat, j: nat)
    requires IsHonestRun(Empty(limit, rule), events)
    ensures IsSpoolRun(Empty(limit, rule), events)
    ensures var s := SpoolEnd(Empty(limit, rule), events);
      i < |s.clients| && j < |s.clients| && s.clients[i].id == s.clients[j].id
      && s.clients[i].phase.Got? && s.clients[j].phase.Got? ==>
        s.clients[i].phase.reply == s.clients[j].phase.reply && IsStored(s, s.clients[i].id, s.clients[i].phase.reply)
  {
    hide IsHonestRun, SpoolEnd, IsSpoolRun, SessionInv;
    EveryReplyIsTheStoredOne(Empty(limit, rule), events);
  }

  // ---------------------------------------------------------------- a reused id

  lemma RunNothing(s: Spool)
    ensures IsSpoolRun(s, []) && SpoolEnd(s, []) == s
  {
  }

  lemma RunStep(s: Spool, events: seq<Event>, s': Spool)
    requires events != [] && Can(s, events[0]) && Next(s, events[0]) == s' && IsSpoolRun(s', events[1..])
    ensures IsSpoolRun(s, events) && SpoolEnd(s, events) == SpoolEnd(s', events[1..])
  {
    hide Can, Next;
  }

  /** The service takes the only request file, handles it and answers. */
  function ServiceRound(id: string, v: Verification): seq<Event> { [Claim(id), Handle(v), Deliver] }

  lemma ServiceRoundRuns(s: Spool, id: string, req: Request, v: Verification)
    requires s.serving.Free? && s.inbox == map[id := req]
    ensures var (session, reply) := Serve(s.limit, s.rule, s.session, id, req, v);
      && IsSpoolRun(s, ServiceRound(id, v))
      && SpoolEnd(s, ServiceRound(id, v)) == s.(session := session, inbox := map[], outbox := s.outbox[id := reply])
  {
    hide Serve, IsSpoolRun, SpoolEnd;
    var (session, reply) := Serve(s.limit, s.rule, s.session, id, req, v);
    var events := ServiceRound(id, v);
    var s1 := s.(inbox := map[], serving := Claimed(id, req));
    var s2 := s1.(session := session, serving := Answering(id, reply));
    var s3 := s.(session := session, inbox := map[], outbox := s.outbox[id := reply]);
    assert Next(s, Claim(id)) == s1;
    RunNothing(s3);
    assert events[2..][1..] == [] && events[1..][1..] == events[2..];
    RunStep(s2, events[2..], s3);
    RunStep(s1, events[1..], s2);
    RunStep(s, events, s1);
  }

  lemma {:induction false} SpoolRunConcat(s: Spool, a: seq<Event>, b: seq<Event>)
    requires IsSpoolRun(s, a) && IsSpoolRun(SpoolEnd(s, a), b)
    ensures IsSpoolRun(s, a + b) && SpoolEnd(s, a + b) == SpoolEnd(SpoolEnd(s, a), b)
    decreases |a|
  {
    hide Can, Next;
    if a == [] {
      assert a + b == b;
    } else {
      SpoolRunConcat(Next(s, a[0]), a[1..], b);
      assert (a + b)[0] == a[0] && (a + b)[1..] == a[1..] + b;
    }
  }

  lemma BothStart(limit: nat, rule: string, id: string, mine: Request, other: Request)
    ensures var events := [Start(id, mine, 1), Start(id, other, 1), Publish(0)];
      && IsSpoolRun(Empty(limit, rule), events)
      && SpoolEnd(Empty(limit, rule), events)
        == Empty(limit, rule).(inbox := map[id := mine], clients := [Client(id, mine, 0, Waiting), Client(id, other, 1, ToPublish)])
  {
    hide IsSpoolRun, SpoolEnd;
    var events := [Start(id, mine, 1), Start(id, other, 1), Publish(0)];
    var s0 := Empty(limit, rule);
    var s1 := s0.(clients := [Client(id, mine, 1, ToPublish)]);
    var s2 := s0.(clients := [Client(id, mine, 1, ToPublish), Client(id, other, 1, ToPublish)]);
    var s3 := s0.(inbox := map[id := mine], clients := [Client(id, mine, 0, Waiting), Client(id, other, 1, ToPublish)]);
    RunNothing(s3);
    assert events[2..][1..] == [] && events[1..][1..] == events[2..];
    RunStep(s2, events[2..], s3);
    RunStep(s1, events[1..], s2);
    RunStep(s0, events, s1);
  }

  lemma OneEvent(s: Spool, e: Event)
    requires Can(s, e)
    ensures IsSpoolRun(s, [e]) && SpoolEnd(s, [e]) == Next(s, e)
  {
    hide Can, Next;
    RunNothing(Next(s, e));
    RunStep(s, [e], Next(s, e));
  }

  /** With a reused id it is different: whatever the first request is and however it is answered, its client can
      read the refusal meant for another payload instead of its own reply. */
  lemma ReusedIdMisdelivers(limit: nat, rule: string, id: string, mine: Request, other: Request, v: Verification)
    requires mine != other
    ensures exists events :: Misdelivered(limit, rule, id, mine, other, events)
  {
    hide Serve, IsSpoolRun, SpoolEnd;
    var (session, reply) := Serve(limit, rule, NOTHING_SUBMITTED, id, mine, v);
    ServeStores(limit, rule, NOTHING_SUBMITTED, id, mine, v);
    ServeStores(limit, rule, session, id, other, v);
    FirstIsAnswered(limit, rule, id, mine, v);
    RefusalKeeps(limit, rule, session, id, other, v);
    var start := [Start(id, mine, 1), Start(id, other, 1), Publish(0)];
    BothStart(limit, rule, id, mine, other);
    var s0 := SpoolEnd(Empty(limit, rule), start);
    ServiceRoundRuns(s0, id, mine, v);
    var s1 := SpoolEnd(s0, ServiceRound(id, v));
    OneEvent(s1, Publish(1));
    var s2 := Next(s1, Publish(1));
    ServiceRoundRuns(s2, id, other, v);
    var s3 := SpoolEnd(s2, ServiceRound(id, v));
    OneEvent(s3, Read(0));
    SpoolRunConcat(s2, ServiceRound(id, v), [Read(0)]);
    SpoolRunConcat(s1, [Publish(1)], ServiceRound(id, v) + [Read(0)]);
    SpoolRunConcat(s0, ServiceRound(id, v), [Publish(1)] + (ServiceRound(id, v) + [Read(0)]));
    var rest := ServiceRound(id, v) + ([Publish(1)] + (ServiceRound(id, v) + [Read(0)]));
    SpoolRunConcat(Empty(limit, rule), start, rest);
    assert StartsWith(start + rest, id, {mine, other});
    assert Misdelivered(limit, rule, id, mine, other, start + rest);
  }

  lemma RefusalKeeps(limit: nat, rule: string, session: SubmitState, id: string, other: Request, v: Verification)
    requires id in session.responses && session.responses[id].fingerprint != other
    ensures Serve(limit, rule, session, id, other, v).0 == session
  {
  }

  lemma FirstIsAnswered(limit: nat, rule: string, id: string, mine: Request, v: Verification)
    ensures !Serve(limit, rule, NOTHING_SUBMITTED, id, mine, v).1.kind.IdReused?
  {
    hide Judge;
  }

  /** All calls that begin are for this id and carry one of these payloads. */
  ghost predicate StartsWith(events: seq<Event>, id: string, payloads: set<Request>) {
    forall k :: 0 <= k < |events| && events[k].Start? ==> events[k].id == id && events[k].req in payloads
  }

  /** The first client holds a refusal of its id, although a reply to its own payload is stored. */
  ghost predicate Misdelivered(limit: nat, rule: string, id: string, mine: Request, other: Request, events: seq<Event>) {
    && StartsWith(events, id, {mine, other}) && IsSpoolRun(Empty(limit, rule), events)
    && var s := SpoolEnd(Empty(limit, rule), events);
       && |s.clients| == 2 && s.clients[0].id == id && s.clients[0].req == mine
       && s.clients[0].phase.Removing? && s.clients[0].phase.reply.kind == IdReused
       && id in s.session.responses && s.session.responses[id].fingerprint == mine
       && s.session.responses[id].reply != s.clients[0].phase.reply
  }

  lemma {:induction false} OnePayloadIsHonest(s: Spool, events: seq<Event>, id: string, payloads: set<Request>)
    requires IsSpoolRun(s, events) && StartsWith(events, id, payloads)
    requires forall i :: 0 <= i < |s.clients| ==> s.clients[i].req in payloads
    requires forall a, b :: a in payloads && b in payloads ==> a == b
    ensures IsHonestRun(s, events)
    decreases |events|
  {
    if events != [] {
      var s' := Next(s, events[0]);
      assert Honest(s, events[0]);
      forall i | 0 <= i < |s'.clients| ensures s'.clients[i].req in payloads {
        if i < |s.clients| { ClientsKept(s, events[0], i); }
      }
      hide Can, Next, Honest;
      OnePayloadIsHonest(s', events[1..], id, payloads);
    }
  }

  ghost predicate AnswersAll(limit: nat, rule: string, events: seq<Event>) {
    IsSpoolRun(Empty(limit, rule), events) ==> Replies(SpoolEnd(Empty(limit, rule), events))
  }

  /** When exactly clients can trust their replies. Of all runs in which an id is used for some of these payloads,
      with any retries, timeouts and verdicts, every one returns the stored reply to every client exactly if
      there is no more than one payload. */
  lemma StoredRepliesExactly(limit: nat, rule: string, id: string, payloads: set<Request>)
    ensures (forall events :: StartsWith(events, id, payloads) ==> AnswersAll(limit, rule, events))
      <==> (forall a, b :: a in payloads && b in payloads ==> a == b)
  {
    hide IsSpoolRun, SpoolEnd, IsHonestRun;
    if forall a, b :: a in payloads && b in payloads ==> a == b {
      forall events | StartsWith(events, id, payloads) ensures AnswersAll(limit, rule, events) {
        if IsSpoolRun(Empty(limit, rule), events) {
          OnePayloadIsHonest(Empty(limit, rule), events, id, payloads);
          EveryReplyIsTheStoredOne(Empty(limit, rule), events);
        }
      }
    } else {
      var a, b :| a in payloads && b in payloads && a != b;
      ReusedIdMisdelivers(limit, rule, id, a, b, VerifierRaised);
      var events :| Misdelivered(limit, rule, id, a, b, events);
      assert StartsWith(events, id, payloads) && !AnswersAll(limit, rule, events);
    }
  }
}
