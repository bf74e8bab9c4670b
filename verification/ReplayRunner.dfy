/** The replay probe: present one payment twice and judge the target by what it
    answers, run against the paid resource server while others use it too. */
module ReplayRunner {
  import opened Wrappers
  import opened ExactEvm
  import opened DemoTarget

  datatype Response = Response(status: int, deliveryConfirmed: bool)

  datatype FailureName = InitialProtectedDeliveryFailed | PaymentProofReplayAccepted | ReplayProbeInconclusive

  datatype Verdict = Pass | Fail(code: FailureName) | Inconclusive(why: FailureName)

  const DEFAULT_REPLAY_REJECTION_STATUSES: set<int> := {401, 402, 409}

  predicate IsSuccess(status: int) { 200 <= status <= 299 }

  /** None is an attempt without a response. */
  function Judge(initial: Option<Response>, replay: Option<Response>, accepted: set<int>): Verdict {
    if initial.None? then Inconclusive(InitialProtectedDeliveryFailed)
    else if !IsSuccess(initial.value.status) || !initial.value.deliveryConfirmed then Fail(InitialProtectedDeliveryFailed)
    else if replay.None? then Inconclusive(ReplayProbeInconclusive)
    else if IsSuccess(replay.value.status) then Fail(PaymentProofReplayAccepted)
    else if replay.value.status !in accepted then Inconclusive(ReplayProbeInconclusive)
    else Pass
  }

  predicate IsDelivery(response: Option<Response>) {
    response.Some? && 200 <= response.value.status <= 299 && response.value.deliveryConfirmed
  }

  /** A verdict about replay is only given after a confirmed delivery: a failure
      exactly for a second success, a pass exactly for an accepted refusal, and
      whatever was not heard or not understood stays inconclusive. */
  lemma VerdictNeedsEvidence(initial: Option<Response>, replay: Option<Response>, accepted: set<int>)
    ensures var verdict := Judge(initial, replay, accepted);
            && (verdict == Pass <==>
                  && IsDelivery(initial) && replay.Some?
                  && !(200 <= replay.value.status <= 299) && replay.value.status in accepted)
            && (verdict == Fail(PaymentProofReplayAccepted) <==>
                  IsDelivery(initial) && replay.Some? && 200 <= replay.value.status <= 299)
            && (verdict == Fail(InitialProtectedDeliveryFailed) <==> initial.Some? && !IsDelivery(initial))
            && (initial.None? || (IsDelivery(initial) && replay.None?) ==> verdict.Inconclusive?)
  {
  }

  function ResponseOf(reply: Reply): Response {
    Response(Status(reply), reply.Delivered?)
  }

  predicate HasReplied(w: World, r: nat, header: Header) {
    r in w.requests && w.requests[r].presented == Some(header) && w.requests[r].stage.Replied?
  }

  function ReplyTo(w: World, r: nat): Reply
    requires r in w.requests && w.requests[r].stage.Replied?
  {
    w.requests[r].stage.reply
  }

  /** The probe tells the two servers apart, with the default statuses, whatever
      else happened around the two requests. Once the first was delivered, the
      protected server passes; the vulnerable one fails exactly when the payment's
      window was still open on its clock as the replay arrived. */
  lemma ProbeTellsServersApart(w: World, actions: seq<Action>, initial: nat, replay: nat, header: Header)
    requires IsInitial(w) && initial != replay
    requires HasReplied(Execute(w, actions), initial, header) && HasReplied(Execute(w, actions), replay, header)
    requires ReplyTo(Execute(w, actions), initial).Delivered?
    ensures var after := Execute(w, actions);
            Judge(Some(ResponseOf(ReplyTo(after, initial))), Some(ResponseOf(ReplyTo(after, replay))),
                  DEFAULT_REPLAY_REJECTION_STATUSES)
            == if w.mode.V1Vulnerable? && Verifies(header, w.terms, after.requests[replay].now)
               then Fail(PaymentProofReplayAccepted) else Pass
  {
    EveryScheduleHolds(w, actions);
    var after := Execute(w, actions);
    hide Execute, Holds, Verifies, IsInitial, Judge, ResponseOf;
    ReplayIsJudged(after, initial, replay, header);
    RepliesAreJudged(ReplyTo(after, initial), ReplyTo(after, replay));
  }

  lemma RepliesAreJudged(initial: Reply, replay: Reply)
    requires initial.Delivered?
    ensures Judge(Some(ResponseOf(initial)), Some(ResponseOf(replay)), DEFAULT_REPLAY_REJECTION_STATUSES)
            == if replay.Delivered? then Fail(PaymentProofReplayAccepted) else Pass
  {
  }

  lemma ReplayIsJudged(w: World, initial: nat, replay: nat, header: Header)
    requires Holds(w) && initial != replay
    requires HasReplied(w, initial, header) && HasReplied(w, replay, header) && ReplyTo(w, initial).Delivered?
    ensures ReplyTo(w, replay).Delivered? <==> w.mode.V1Vulnerable? && Verifies(header, w.terms, w.requests[replay].now)
  {
  }

  /** A payment the vulnerable server honoured has, at most, its window in the way:
      the terms it matched once it matches for good. */
  lemma ReplayVerifiesWhileWindowIsOpen(header: Header, terms: Terms, first: int, second: int)
    requires Verifies(header, terms, first) && first <= second
    ensures Verifies(header, terms, second) <==> second < header.authorization.validBefore
  {
  }

  /** It does happen: the vulnerable server honours a payment, the same payment comes
      back when its window has closed, and the probe lets the server pass. */
  lemma LateReplayPassesVulnerableServer(w: World, header: Header, now: int)
    requires IsInitial(w) && w.mode.V1Vulnerable? && Verifies(header, w.terms, now)
    ensures var late := header.authorization.validBefore;
            var after := Execute(w, [Receive(0, Some(Some(header)), now), LoseRpc(0), Receive(1, Some(Some(header)), late)]);
            && HasReplied(after, 0, header) && HasReplied(after, 1, header)
            && ReplyTo(after, 0) == Delivered(false) && ReplyTo(after, 1) == InvalidPayment
            && Judge(Some(ResponseOf(ReplyTo(after, 0))), Some(ResponseOf(ReplyTo(after, 1))),
                     DEFAULT_REPLAY_REJECTION_STATUSES) == Pass
  {
    var late := header.authorization.validBefore;
    var first, lost, second := Receive(0, Some(Some(header)), now), LoseRpc(0), Receive(1, Some(Some(header)), late);
    ThreeSteps(w, first, lost, second);
    hide Execute;
    assert !Verifies(header, w.terms, late);
    hide Verifies;
  }

  lemma ThreeSteps(w: World, a: Action, b: Action, c: Action)
    ensures Execute(w, [a, b, c]) == Step(Step(Step(w, a), b), c)
  {
    assert Execute(w, []) == w && [] + [a] == [a] && [a] + [b] == [a, b] && [a, b] + [c] == [a, b, c];
    hide Step, Execute;
    ExecuteOneMore(w, [], a);
    ExecuteOneMore(w, [a], b);
    ExecuteOneMore(w, [a, b], c);
  }

  // ---------------------------------------------------------------- the server, request by request

  class Runtime {
    var world: World
    ghost var origin: World
    ghost var trace: seq<Action>

    ghost predicate Valid()
      reads this
    {
      IsInitial(origin) && world == Execute(origin, trace)
    }

    constructor (start: World)
      requires IsInitial(start)
      ensures Valid() && world == start && trace == []
    {
      world, origin, trace := start, start, [];
    }

    method Perform(a: Action)
      requires Valid()
      modifies this
      ensures Valid() && world == Step(old(world), a) && IsSameServer(old(world), world)
      ensures origin == old(origin) && trace == old(trace) + [a]
    {
      ExecuteOneMore(origin, trace, a);
      StepKeepsServer(world, a);
      world := Step(world, a);
      trace := trace + [a];
    }

    method Await(others: seq<Action>)
      requires Valid()
      modifies this
      ensures Valid() && origin == old(origin) && trace == old(trace) + others && IsSameServer(old(world), world)
      ensures forall q :: OthersOnly(others, q) ==> IsSameRequest(old(world), world, q)
    {
      ghost var before := trace;
      for k := 0 to |others|
        invariant Valid() && origin == old(origin) && trace == before + others[..k]
        invariant IsSameServer(old(world), world)
        invariant forall q :: OthersOnly(others, q) ==> IsSameRequest(old(world), world, q)
      {
        forall q | OthersOnly(others, q) ensures IsSameRequest(world, Step(world, others[k]), q) {
          OthersLeaveRequest(world, others[k], q);
        }
        Perform(others[k]);
        assert others[..k + 1] == others[..k] + [others[k]];
      }
      assert others[..|others|] == others;
    }
  }

  /** Mining is the chain's step, whoever's transaction it is. */
  predicate Concerns(a: Action, me: nat) {
    (a.Receive? || a.Simulate? || a.Send? || a.Confirm? || a.LoseRpc?) && a.r == me
  }

  predicate OthersOnly(actions: seq<Action>, me: nat) {
    forall k :: 0 <= k < |actions| ==> !Concerns(actions[k], me)
  }

  predicate IsSameRequest(before: World, after: World, q: nat) {
    && (q in before.requests <==> q in after.requests)
    && (q in before.requests ==> after.requests[q] == before.requests[q])
  }

  lemma OthersLeaveRequest(w: World, a: Action, q: nat)
    requires !Concerns(a, q)
    ensures IsSameRequest(w, Step(w, a), q)
  {
  }

  /** What the chain answers to one request's settlement. */
  datatype Answers = Answers(simulatable: bool, simulatedAt: nat, reached: bool, answered: bool)

  /** One request of the paid route. The reply is decided by the mode, by what the
      check said on arrival and by whether the settlement was seen to succeed. */
  method HandlePaidResource(rt: Runtime, me: nat, encoded: Option<Option<Header>>, now: int, answers: Answers,
                            others: nat -> seq<Action>, ghost bystander: nat)
    returns (reply: Reply)
    requires rt.Valid() && me !in rt.world.requests && IsTerms(rt.world.terms)
    requires bystander != me && forall n :: OthersOnly(others(n), me) && OthersOnly(others(n), bystander)
    modifies rt
    ensures rt.Valid() && rt.origin == old(rt.origin) && IsSameServer(old(rt.world), rt.world)
    ensures IsSameRequest(old(rt.world), rt.world, bystander)
    ensures encoded.None? ==> reply == PaymentRequired
    ensures encoded.Some? && Decoded(encoded).None? ==> reply == MalformedHeader
    ensures Decoded(encoded).Some? ==>
              var header := Decoded(encoded).value;
              && HasReplied(rt.world, me, header) && ReplyTo(rt.world, me) == reply && rt.world.requests[me].now == now
              && (!Verifies(header, rt.world.terms, now) ==> reply == InvalidPayment)
              && (Verifies(header, rt.world.terms, now) ==> IsSettledReply(rt.world, me, header, now))
  {
    rt.Perform(Receive(me, encoded, now));
    if encoded.None? { return PaymentRequired; }
    var decoded := Decoded(encoded);
    if decoded.None? { return MalformedHeader; }
    var failures := VerifyExactEvmPayment(decoded.value, rt.world.terms, now);
    if failures != [] { return InvalidPayment; }
    rt.Await(others(0));
    Settle(rt, me, decoded.value, now, answers, others, bystander);
    return ReplyTo(rt.world, me);
  }

  /** How a request with this header may have ended: delivered as settled only with
      a successful receipt, delivered at all by the protected server only as settled. */
  predicate IsSettledReply(w: World, me: nat, header: Header, now: int) {
    && HasReplied(w, me, header) && w.requests[me].now == now
    && (w.mode.V1Vulnerable? ==> ReplyTo(w, me).Delivered?)
    && (ReplyTo(w, me).Delivered? && ReplyTo(w, me).settled ==> me in w.receipts && w.receipts[me].Some?)
    && (ReplyTo(w, me).Delivered? && w.mode.V2Protected? ==> ReplyTo(w, me).settled)
  }

  /** Simulates, submits and waits for the receipt; an error on the way ends the
      request as its mode has it. */
  method Settle(rt: Runtime, me: nat, header: Header, now: int, answers: Answers, others: nat -> seq<Action>,
                ghost bystander: nat)
    requires rt.Valid() && me in rt.world.requests && rt.world.requests[me] == Request(Some(header), now, Verified)
    requires IsDecoded(header)
    requires bystander != me && forall n :: OthersOnly(others(n), me) && OthersOnly(others(n), bystander)
    modifies rt
    ensures rt.Valid() && rt.origin == old(rt.origin) && IsSameServer(old(rt.world), rt.world)
    ensures IsSameRequest(old(rt.world), rt.world, bystander)
    ensures IsSettledReply(rt.world, me, header, now)
  {
    hide Execute, IsInitial, Verifies;
    if !answers.simulatable {
      rt.Perform(LoseRpc(me));
      return;
    }
    rt.Perform(Simulate(me, answers.simulatedAt));
    if rt.world.requests[me].stage != Cleared { return; }
    rt.Await(others(1));
    SubmitSettlement(rt, me, header, now, answers, others(2), bystander);
  }

  method SubmitSettlement(rt: Runtime, me: nat, header: Header, now: int, answers: Answers, others: seq<Action>,
                          ghost bystander: nat)
    requires rt.Valid() && me in rt.world.requests && rt.world.requests[me] == Request(Some(header), now, Cleared)
    requires bystander != me && OthersOnly(others, me) && OthersOnly(others, bystander)
    modifies rt
    ensures rt.Valid() && rt.origin == old(rt.origin) && IsSameServer(old(rt.world), rt.world)
    ensures IsSameRequest(old(rt.world), rt.world, bystander)
    ensures IsSettledReply(rt.world, me, header, now)
  {
    hide Execute, IsInitial, Verifies;
    rt.Perform(Send(me, answers.reached));
    rt.Await(others);
    if !answers.answered || me !in rt.world.receipts {
      rt.Perform(LoseRpc(me));
      return;
    }
    rt.Perform(Confirm(me));
  }

  // ---------------------------------------------------------------- the probe

  datatype Presentation = Presentation(request: nat, now: int, answers: Answers, heard: bool)

  /** A request whose response may not come back. */
  method Attempt(rt: Runtime, header: Header, p: Presentation, others: nat -> seq<Action>, ghost bystander: nat)
    returns (response: Option<Response>)
    requires rt.Valid() && p.request !in rt.world.requests && IsDecoded(header) && IsTerms(rt.world.terms)
    requires bystander != p.request && forall n :: OthersOnly(others(n), p.request) && OthersOnly(others(n), bystander)
    modifies rt
    ensures rt.Valid() && rt.origin == old(rt.origin) && IsSameServer(old(rt.world), rt.world)
    ensures IsSameRequest(old(rt.world), rt.world, bystander)
    ensures HasReplied(rt.world, p.request, header) && rt.world.requests[p.request].now == p.now
    ensures response == if p.heard then Some(ResponseOf(ReplyTo(rt.world, p.request))) else None
  {
    var reply := HandlePaidResource(rt, p.request, Some(Some(header)), p.now, p.answers, others, bystander);
    return if p.heard then Some(ResponseOf(reply)) else None;
  }

  /** Presents the payment, and again if the first time delivered. The verdict is
      the judgement of the responses that were heard, in that order. */
  method Run(rt: Runtime, header: Header, first: Presentation, second: Presentation, accepted: set<int>,
             others: nat -> seq<Action>, between: seq<Action>)
    returns (verdict: Verdict, attempts: seq<Option<Response>>)
    requires rt.Valid() && IsDecoded(header) && IsTerms(rt.world.terms)
    requires first.request != second.request && first.request !in rt.world.requests && second.request !in rt.world.requests
    requires forall n :: OthersOnly(others(n), first.request) && OthersOnly(others(n), second.request)
    requires OthersOnly(between, first.request) && OthersOnly(between, second.request)
    modifies rt
    ensures rt.Valid() && rt.origin == old(rt.origin) && IsSameServer(old(rt.world), rt.world)
    ensures 1 <= |attempts| <= 2
    ensures verdict == Judge(attempts[0], if |attempts| == 2 then attempts[1] else None, accepted)
    ensures |attempts| == 2 <==>
              attempts[0].Some? && IsSuccess(attempts[0].value.status) && attempts[0].value.deliveryConfirmed
    ensures |attempts| == 2 && attempts[1].Some? && accepted == DEFAULT_REPLAY_REJECTION_STATUSES ==>
              verdict == if rt.world.mode.V1Vulnerable? && Verifies(header, rt.world.terms, second.now)
                         then Fail(PaymentProofReplayAccepted) else Pass
  {
    hide Execute, Verifies;
    var initial := Attempt(rt, header, first, others, second.request);
    attempts := [initial];
    if initial.None? { return Inconclusive(InitialProtectedDeliveryFailed), attempts; }
    if !IsSuccess(initial.value.status) || !initial.value.deliveryConfirmed {
      return Fail(InitialProtectedDeliveryFailed), attempts;
    }
    rt.Await(between);
    var replay := Attempt(rt, header, second, others, first.request);
    attempts := attempts + [replay];
    EveryScheduleHolds(rt.origin, rt.trace);
    ReplayIsJudged(rt.world, first.request, second.request, header);
    if replay.None? { return Inconclusive(ReplayProbeInconclusive), attempts; }
    if IsSuccess(replay.value.status) { return Fail(PaymentProofReplayAccepted), attempts; }
    if replay.value.status !in accepted { return Inconclusive(ReplayProbeInconclusive), attempts; }
    return Pass, attempts;
  }
}
