/** The submit judge of one rule episode. A single service thread handles one request at a time. */
module Submit {
  import opened Text
  import opened Json

  // ---------------------------------------------------------------- requests and replies

  /** The certificate a request carries, after `json.loads`. */
  datatype Payload = NotText | BadJson | ParsedCertificate(value: Value)

  datatype Operation = StatusRequest | UnknownRequest | SubmitRequest(clientError: Option<string>, payload: Payload)

  /** The bytes of a request file; the text stands for its fingerprint. */
  datatype Request = MalformedRequest(text: string) | WellFormed(text: string, op: Operation)

  /** What the verifier did when it was called, if it was. */
  datatype Verification = Judged(accepted: bool) | VerifierRaised

  datatype Reason =
    | InvalidRequest | ClientError(text: string) | PayloadNotText | InvalidJson | NotAnObject | WrongRule
    | VerifierReason

  datatype Attempt = Attempt(number: nat, accepted: bool, rule: Value, certificate: Value, reason: Reason, requestId: string)

  datatype ReplyKind =
    | SubmitStatus | UnknownOperation | IdReused | AlreadyAccepted | OutOfAttempts | VerifierFailed
    | Recorded(attempt: Attempt)

  datatype Reply = Reply(kind: ReplyKind, accepted: bool, used: nat, remaining: nat, closed: bool)

  datatype StoredReply = StoredReply(fingerprint: Request, reply: Reply)

  datatype SubmitState = SubmitState(attempts: seq<Attempt>, responses: map<string, StoredReply>, closed: bool)

  const NOTHING_SUBMITTED := SubmitState([], map[], false)

  function Remaining(limit: nat, s: SubmitState): nat {
    if s.closed then 0 else Max(0, limit - |s.attempts|)
  }

  // ---------------------------------------------------------------- what one request does

  datatype Judgement = Judgement(certificate: Value, accepted: bool, reason: Reason) | NoJudgement

  /** How a submission is judged; `NoJudgement` when the verifier raised. */
  function Judge(rule: string, op: Operation, v: Verification): Judgement
    requires op.SubmitRequest?
  {
    if op.clientError.Some? then Judgement(Null, false, ClientError(op.clientError.value))
    else match op.payload
      case NotText => Judgement(Null, false, PayloadNotText)
      case BadJson => Judgement(Null, false, InvalidJson)
      case ParsedCertificate(value) =>
        if !value.Obj? then Judgement(value, false, NotAnObject)
        else if !PyEq(Get(value.fields, KRule), Str(rule)) then Judgement(value, false, WrongRule)
        else if v.VerifierRaised? then NoJudgement
        else Judgement(value, v.accepted, VerifierReason)
  }

  function NextAttempt(s: SubmitState, id: string, j: Judgement): Attempt
    requires j.Judgement?
  {
    Attempt(|s.attempts| + 1, j.accepted, if j.certificate.Obj? then Get(j.certificate.fields, KRule) else Null,
            j.certificate, j.reason, id)
  }

  /** One more attempt. */
  function Recording(limit: nat, s: SubmitState, id: string, j: Judgement): (SubmitState, Reply)
    requires j.Judgement?
  {
    var s' := s.(attempts := s.attempts + [NextAttempt(s, id, j)], closed := s.closed || j.accepted);
    (s', Reply(Recorded(NextAttempt(s, id, j)), j.accepted, |s'.attempts|, Remaining(limit, s'), s'.closed))
  }

  /** The effect of a request that has not been answered before. */
  function Effect(limit: nat, rule: string, s: SubmitState, id: string, req: Request, v: Verification): (SubmitState, Reply) {
    if req.WellFormed? && !req.op.SubmitRequest? then
      (s, Reply(if req.op.StatusRequest? then SubmitStatus else UnknownOperation, false, |s.attempts|, Remaining(limit, s), s.closed))
    else if s.closed then (s, Reply(AlreadyAccepted, false, |s.attempts|, 0, true))
    else if |s.attempts| >= limit then (s, Reply(OutOfAttempts, false, |s.attempts|, 0, false))
    else
      var j := if req.MalformedRequest? then Judgement(Null, false, InvalidRequest) else Judge(rule, req.op, v);
      if j.NoJudgement? then (s, Reply(VerifierFailed, false, |s.attempts|, Remaining(limit, s), false))
      else Recording(limit, s, id, j)
  }

  /** One request with its idempotence layer. */
  function Serve(limit: nat, rule: string, s: SubmitState, id: string, req: Request, v: Verification): (SubmitState, Reply) {
    if id in s.responses then
      if s.responses[id].fingerprint == req then (s, s.responses[id].reply)
      else (s, Reply(IdReused, false, |s.attempts|, Remaining(limit, s), s.closed))
    else
      var (s', reply) := Effect(limit, rule, s, id, req, v);
      (s'.(responses := s'.responses[id := StoredReply(req, reply)]), reply)
  }

  // ---------------------------------------------------------------- the session object

  class SubmissionSession {
    const limit: nat
    const expectedRule: string
    var attempts: seq<Attempt>
    var responses: map<string, StoredReply>
    var closed: bool

    constructor (expectedRule: string, limit: nat)
      ensures this.limit == limit && this.expectedRule == expectedRule && View() == NOTHING_SUBMITTED && Valid()
    {
      this.limit, this.expectedRule := limit, expectedRule;
      attempts, responses, closed := [], map[], false;
    }

    ghost function View(): SubmitState
      reads this
    {
      SubmitState(attempts, responses, closed)
    }

    ghost predicate Valid()
      reads this
    {
      SessionInv(limit, expectedRule, View())
    }

    function Left(): nat
      reads this
      ensures Left() == Remaining(limit, View())
    {
      if closed then 0 else Max(0, limit - |attempts|)
    }

    /** `_append_attempt`. */
    method AppendAttempt(certificate: Value, accepted: bool, reason: Reason, id: string) returns (r: Reply)
      requires |attempts| < limit && !closed
      modifies this`attempts, this`closed
      ensures (View(), r) == Recording(limit, old(View()), id, Judgement(certificate, accepted, reason))
    {
      var number := |attempts| + 1;
      var record := Attempt(number, accepted, if certificate.Obj? then Get(certificate.fields, KRule) else Null,
                            certificate, reason, id);
      attempts := attempts + [record];
      if accepted { closed := true; }
      r := Reply(Recorded(record), accepted, number, if closed then 0 else limit - number, closed);
    }

    /** `_record_rejection`. */
    method RecordRejection(id: string, ghost req: Request, ghost v: Verification) returns (r: Reply)
      requires req.MalformedRequest? && |attempts| <= limit
      modifies this`attempts, this`closed
      ensures (View(), r) == Effect(limit, expectedRule, old(View()), id, req, v)
    {
      if closed { return Reply(AlreadyAccepted, false, |attempts|, 0, true); }
      if |attempts| >= limit { return Reply(OutOfAttempts, false, limit, 0, false); }
      r := AppendAttempt(Null, false, InvalidRequest, id);
    }

    /** `_handle`; `v` is what the verifier does if it is called. */
    method Handle(id: string, req: Request, v: Verification) returns (r: Reply)
      requires req.WellFormed?
      modifies this`attempts, this`closed
      ensures (View(), r) == Effect(limit, expectedRule, old(View()), id, req, v)
    {
      if req.op.StatusRequest? { return Reply(SubmitStatus, false, |attempts|, Left(), closed); }
      if !req.op.SubmitRequest? { return Reply(UnknownOperation, false, |attempts|, Left(), closed); }
      if closed { return Reply(AlreadyAccepted, false, |attempts|, 0, true); }
      if |attempts| >= limit { return Reply(OutOfAttempts, false, |attempts|, 0, false); }
      var certificate, accepted, reason := Null, false, PayloadNotText;
      if req.op.clientError.Some? {
        reason := ClientError(req.op.clientError.value);
      } else if req.op.payload.BadJson? {
        reason := InvalidJson;
      } else if req.op.payload.ParsedCertificate? {
        certificate := req.op.payload.value;
        if !certificate.Obj? {
          reason := NotAnObject;
        } else if !PyEq(Get(certificate.fields, KRule), Str(expectedRule)) {
          reason := WrongRule;
        } else if v.VerifierRaised? {
          return Reply(VerifierFailed, false, |attempts|, Left(), false);
        } else {
          accepted, reason := v.accepted, VerifierReason;
        }
      }
      r := AppendAttempt(certificate, accepted, reason, id);
    }

    /** `_handle_idempotent` and `_handle_malformed_idempotent`. */
    method Answer(id: string, req: Request, v: Verification) returns (r: Reply)
      requires Valid()
      modifies this
      ensures (View(), r) == Serve(limit, expectedRule, old(View()), id, req, v)
      ensures Valid()
    {
      ServeKeeps(limit, expectedRule, View(), id, req, v);
      hide SessionInv;
      assert |attempts| <= limit by { ValidBounds(limit, expectedRule, View()); }
      if id in responses {
        if responses[id].fingerprint != req { return Reply(IdReused, false, |attempts|, Left(), closed); }
        return responses[id].reply;
      }
      if req.MalformedRequest? {
        r := RecordRejection(id, req, v);
      } else {
        r := Handle(id, req, v);
      }
      responses := responses[id := StoredReply(req, r)];
    }
  }

  // ---------------------------------------------------------------- what every request keeps

  predicate AttemptOk(rule: string, a: Attempt, k: nat) {
    && a.number == k + 1
    && (a.accepted ==> a.certificate.Obj? && PyEq(Get(a.certificate.fields, KRule), Str(rule)))
  }

  /** The session invariant: numbered attempts within the limit, at most one accepted and that one last,
      closed exactly when one was accepted, and at most one attempt per answered request id. */
  ghost predicate SessionInv(limit: nat, rule: string, s: SubmitState) {
    && |s.attempts| <= limit
    && (forall k :: 0 <= k < |s.attempts| ==> AttemptOk(rule, s.attempts[k], k))
    && (forall k :: 0 <= k < |s.attempts| && s.attempts[k].accepted ==> k == |s.attempts| - 1)
    && (s.closed <==> s.attempts != [] && s.attempts[|s.attempts| - 1].accepted)
    && (forall k :: 0 <= k < |s.attempts| ==> s.attempts[k].requestId in s.responses)
    && (forall j, k :: 0 <= j < k < |s.attempts| ==> s.attempts[j].requestId != s.attempts[k].requestId)
  }

  lemma ValidBounds(limit: nat, rule: string, s: SubmitState)
    requires SessionInv(limit, rule, s)
    ensures |s.attempts| <= limit
  {
  }

  lemma RecordingKeeps(limit: nat, rule: string, s: SubmitState, id: string, req: Request, j: Judgement)
    requires SessionInv(limit, rule, s) && id !in s.responses && !s.closed && |s.attempts| < limit
    requires j.Judgement? && (j.accepted ==> j.certificate.Obj? && PyEq(Get(j.certificate.fields, KRule), Str(rule)))
    ensures var (s', reply) := Recording(limit, s, id, j);
      SessionInv(limit, rule, s'.(responses := s'.responses[id := StoredReply(req, reply)]))
  {
    hide Canon;
  }

  lemma ServeKeeps(limit: nat, rule: string, s: SubmitState, id: string, req: Request, v: Verification)
    requires SessionInv(limit, rule, s)
    ensures SessionInv(limit, rule, Serve(limit, rule, s, id, req, v).0)
    ensures id in Serve(limit, rule, s, id, req, v).0.responses
    ensures forall x :: x in s.responses ==>
      x in Serve(limit, rule, s, id, req, v).0.responses
      && Serve(limit, rule, s, id, req, v).0.responses[x] == s.responses[x]
    ensures s.attempts <= Serve(limit, rule, s, id, req, v).0.attempts
  {
    hide Canon;
    if id !in s.responses && Effect(limit, rule, s, id, req, v).1.kind.Recorded? {
      var j := if req.MalformedRequest? then Judgement(Null, false, InvalidRequest) else Judge(rule, req.op, v);
      RecordingKeeps(limit, rule, s, id, req, j);
      hide SessionInv;
    }
  }

  /** A request adds at most one attempt, under its own id, and keeps the earlier ones. */
  lemma ServeAppends(limit: nat, rule: string, s: SubmitState, id: string, req: Request, v: Verification)
    ensures var attempts := Serve(limit, rule, s, id, req, v).0.attempts;
      && (attempts == s.attempts || |attempts| == |s.attempts| + 1)
      && (forall k :: 0 <= k < |s.attempts| ==> attempts[k] == s.attempts[k])
      && (|attempts| > |s.attempts| ==> attempts[|s.attempts|].requestId == id)
  {
    hide Canon;
  }

  /** What a request leaves in the response table, and what it is answered. */
  lemma ServeStores(limit: nat, rule: string, s: SubmitState, id: string, req: Request, v: Verification)
    ensures var (s', reply) := Serve(limit, rule, s, id, req, v);
      && s'.responses == (if id in s.responses then s.responses else s.responses[id := StoredReply(req, reply)])
      && (id in s.responses && s.responses[id].fingerprint == req ==> reply == s.responses[id].reply)
      && (id in s.responses && s.responses[id].fingerprint != req ==> reply.kind == IdReused)
  {
    hide Judge;
  }

  /** A request served some time in a run, with what the verifier would do. */
  datatype Call = Call(id: string, req: Request, v: Verification)

  function ServeAll(limit: nat, rule: string, s: SubmitState, calls: seq<Call>): SubmitState
    decreases |calls|
  {
    if calls == [] then s
    else ServeAll(limit, rule, Serve(limit, rule, s, calls[0].id, calls[0].req, calls[0].v).0, calls[1..])
  }

  lemma {:induction false} ServeAllKeeps(limit: nat, rule: string, s: SubmitState, calls: seq<Call>)
    requires SessionInv(limit, rule, s)
    ensures SessionInv(limit, rule, ServeAll(limit, rule, s, calls))
    ensures forall x :: x in s.responses ==>
      x in ServeAll(limit, rule, s, calls).responses && ServeAll(limit, rule, s, calls).responses[x] == s.responses[x]
    ensures s.attempts <= ServeAll(limit, rule, s, calls).attempts
    decreases |calls|
  {
    hide SessionInv, Serve;
    if calls != [] {
      ServeKeeps(limit, rule, s, calls[0].id, calls[0].req, calls[0].v);
      ServeAllKeeps(limit, rule, Serve(limit, rule, s, calls[0].id, calls[0].req, calls[0].v).0, calls[1..]);
    }
  }

  lemma InitialSession(limit: nat, rule: string)
    ensures SessionInv(limit, rule, NOTHING_SUBMITTED)
  {
  }

  /** Idempotence over a whole run. Once a request was answered for the first time, then however many other
      requests come in between and whatever the verifier would do by then, repeating it returns the very
      same reply and changes nothing; the same id with another payload is refused and changes nothing. */
  lemma ReplayIsIdempotent(limit: nat, rule: string, s: SubmitState, call: Call, between: seq<Call>, req: Request, v: Verification)
    requires SessionInv(limit, rule, s) && call.id !in s.responses
    ensures var (s1, reply) := Serve(limit, rule, s, call.id, call.req, call.v);
      var s2 := ServeAll(limit, rule, s1, between);
      var (s3, again) := Serve(limit, rule, s2, call.id, req, v);
      && s3 == s2
      && (req == call.req ==> again == reply)
      && (req != call.req ==> again.kind == IdReused && !again.accepted)
  {
    hide SessionInv, Effect;
    ServeKeeps(limit, rule, s, call.id, call.req, call.v);
    var s1 := Serve(limit, rule, s, call.id, call.req, call.v).0;
    ServeAllKeeps(limit, rule, s1, between);
  }

  /** A verifier error consumes no attempt and does not close the session, but its reply is stored: repeating
      the same request never reaches the verifier again. */
  lemma VerifierErrorConsumesNothing(limit: nat, rule: string, s: SubmitState, id: string, req: Request, v: Verification)
    requires SessionInv(limit, rule, s) && id !in s.responses
    requires Serve(limit, rule, s, id, req, v).1.kind.VerifierFailed?
    ensures var (s', reply) := Serve(limit, rule, s, id, req, v);
      && s'.attempts == s.attempts && s'.closed == s.closed
      && reply.remaining == Remaining(limit, s) > 0
      && forall v' :: Serve(limit, rule, s', id, req, v') == (s', reply)
  {
  }

  /** What every reply reports is the truth about the session after it. */
  lemma RepliesAreTrue(limit: nat, rule: string, s: SubmitState, id: string, req: Request, v: Verification)
    requires SessionInv(limit, rule, s) && id !in s.responses
    ensures var (s', reply) := Serve(limit, rule, s, id, req, v);
      && reply.used == |s'.attempts| && reply.closed == s'.closed && reply.remaining == Remaining(limit, s')
      && (reply.accepted <==> s'.closed && !s.closed)
      && (reply.kind.Recorded? <==> |s'.attempts| == |s.attempts| + 1)
      && (reply.kind.Recorded? ==> reply.kind.attempt == s'.attempts[|s.attempts|] && reply.kind.attempt.requestId == id)
      && (!reply.kind.Recorded? ==> s'.attempts == s.attempts)
  {
    hide Canon;
  }

  // ---------------------------------------------------------------- what becomes of a submission

  /** The request still gets a judgement: its id is new, the session is open and has an attempt left. */
  predicate Awaits(limit: nat, s: SubmitState, id: string) {
    id !in s.responses && !s.closed && |s.attempts| < limit
  }

  /** A certificate for the rule, submitted without a client error. */
  predicate Presents(req: Request, rule: string, f: Fields) {
    && req.WellFormed? && req.op == SubmitRequest(None, ParsedCertificate(Obj(f)))
    && KRule in f && f[KRule] == Str(rule)
  }

  /** The verifier's word counts: a certificate for the rule is recorded exactly as it is, and attempt, reply and
      session say accepted exactly if the verifier did. */
  lemma VerdictIsTheVerifiers(limit: nat, rule: string, s: SubmitState, id: string, req: Request, f: Fields, accepted: bool)
    requires Awaits(limit, s, id) && Presents(req, rule, f)
    ensures var (s', reply) := Serve(limit, rule, s, id, req, Judged(accepted)); var n := |s.attempts|;
      && |s'.attempts| == n + 1 && s'.attempts[..n] == s.attempts
      && s'.attempts[n].certificate == Obj(f) && s'.attempts[n].rule == Str(rule) && s'.attempts[n].number == n + 1
      && s'.attempts[n].requestId == id && s'.attempts[n].accepted == accepted && s'.attempts[n].reason == VerifierReason
      && reply.kind == Recorded(s'.attempts[n]) && reply.accepted == reply.closed == s'.closed == accepted
      && reply.used == n + 1 && reply.remaining == (if accepted then 0 else limit - n - 1)
      && s'.responses == s.responses[id := StoredReply(req, reply)]
  {
    PyEqStr(rule, f[KRule]);
    hide PyEq;
  }

  lemma PresentsAnything(req: Request, rule: string)
    ensures (exists f :: Presents(req, rule, f)) <==>
      && req.WellFormed? && req.op.SubmitRequest? && req.op.clientError.None? && req.op.payload.ParsedCertificate?
      && req.op.payload.value.Obj? && PyEq(Get(req.op.payload.value.fields, KRule), Str(rule))
  {
    if req.WellFormed? && req.op.SubmitRequest? && req.op.payload.ParsedCertificate? && req.op.payload.value.Obj? {
      var f := req.op.payload.value.fields;
      PyEqStr(rule, Get(f, KRule));
      assert Presents(req, rule, f) <==> req.op.clientError.None? && Get(f, KRule) == Str(rule);
    }
  }

  /** The verifier is asked about certificates for the rule and about nothing else: what it would say matters for
      no other request, and only a request that reaches it can be told that it failed or be accepted. */
  lemma VerifierIsAskedExactly(limit: nat, rule: string, s: SubmitState, id: string, req: Request, v: Verification)
    requires id !in s.responses
    ensures var reply := Serve(limit, rule, s, id, req, v).1; var reaches := Awaits(limit, s, id) && exists f :: Presents(req, rule, f);
      && (reply.kind.VerifierFailed? <==> reaches && v.VerifierRaised?)
      && (reply.accepted <==> reaches && v == Judged(true))
      && (!reaches ==> forall v' :: Serve(limit, rule, s, id, req, v') == Serve(limit, rule, s, id, req, v))
  {
    PresentsAnything(req, rule);
    hide PyEq, Presents;
  }

  /** Every other way to ask for a judgement costs an attempt, which is refused for the reason that applies first. */
  lemma RejectionsNameTheirReason(limit: nat, rule: string, s: SubmitState, id: string, req: Request, v: Verification)
    requires Awaits(limit, s, id) && (req.WellFormed? ==> req.op.SubmitRequest?) && !exists f :: Presents(req, rule, f)
    ensures var (s', reply) := Serve(limit, rule, s, id, req, v); var n := |s.attempts|;
      && |s'.attempts| == n + 1 && s'.attempts[..n] == s.attempts && reply.kind == Recorded(s'.attempts[n])
      && !s'.closed && !s'.attempts[n].accepted
      && s'.attempts[n].reason ==
         if req.MalformedRequest? then InvalidRequest
         else if req.op.clientError.Some? then ClientError(req.op.clientError.value)
         else match req.op.payload
           case NotText => PayloadNotText
           case BadJson => InvalidJson
           case ParsedCertificate(value) => if value.Obj? then WrongRule else NotAnObject
  {
    PresentsAnything(req, rule);
    hide PyEq, Presents;
  }

  /** Status requests and unknown operations are answered at any time and change no attempt; a session that is
      closed or out of attempts says which of the two it is, closed first. */
  lemma OtherRequestsAreAnswered(limit: nat, rule: string, s: SubmitState, id: string, req: Request, v: Verification)
    requires id !in s.responses
    ensures var (s', reply) := Serve(limit, rule, s, id, req, v);
      var asks := req.WellFormed? && !req.op.SubmitRequest?;
      && (reply.kind == SubmitStatus <==> req.WellFormed? && req.op.StatusRequest?)
      && (reply.kind == UnknownOperation <==> req.WellFormed? && req.op.UnknownRequest?)
      && (reply.kind == AlreadyAccepted <==> !asks && s.closed)
      && (reply.kind == OutOfAttempts <==> !asks && !s.closed && |s.attempts| >= limit)
      && (asks || s.closed || |s.attempts| >= limit ==> s'.attempts == s.attempts && s'.closed == s.closed)
  {
    hide PyEq;
  }
}
