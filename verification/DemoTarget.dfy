/** The paid resource server under concurrent requests, in its protected and its
    deliberately vulnerable version, against a chain that anybody else uses too. */
module DemoTarget {
  import opened Wrappers
  import opened Decimal
  import opened ExactEvm

  datatype Mode = V1Vulnerable | V2Protected

  datatype Reply =
    | PaymentRequired | MalformedHeader | InvalidPayment | AlreadySettled | SettlementFailed
    | Delivered(settled: bool)

  function Status(reply: Reply): int {
    match reply
    case Delivered(_) => 200
    case AlreadySettled => 409
    case _ => 402
  }

  datatype Stage = Verified | Cleared | Pending | Replied(reply: Reply)

  /** `presented` is the decoded payment header, `now` the server's clock on arrival. */
  datatype Request = Request(presented: Option<Header>, now: int, stage: Stage)

  /** One transfer event of the token; `maker` is the request whose transaction
      made it. */
  datatype Credit = Credit(maker: Option<nat>, from: nat, nonce: Option<nat>, to: nat, value: nat)

  /** `sent` are the settlement transactions that reached a node, `receipts` those
      that were mined: the log position of a success, None for a revert. */
  datatype World = World(
    mode: Mode,
    terms: Terms,
    token: Token,
    log: seq<Credit>,
    sent: map<nat, Header>,
    receipts: map<nat, Option<nat>>,
    requests: map<nat, Request>)

  datatype Action =
    | Receive(r: nat, encoded: Option<Option<Header>>, now: int)
    | Simulate(r: nat, ts: nat)
    | Send(r: nat, reached: bool)
    | Mine(r: nat, ts: nat)
    | Confirm(r: nat)
    | LoseRpc(r: nat)
    | Authorize(ts: nat, m: Message, signature: Signature)
    | Pay(from: nat, to: nat, value: nat)
    | Mint(to: nat, value: nat)

  function Put(w: World, r: nat, stage: Stage): World
    requires r in w.requests
  {
    w.(requests := w.requests[r := w.requests[r].(stage := stage)])
  }

  predicate IsAt(w: World, r: nat, stage: Stage) {
    r in w.requests && w.requests[r].presented.Some? && w.requests[r].stage == stage
  }

  /** A settlement error: the protected server refuses, the vulnerable one delivers. */
  function Unsettled(mode: Mode, reply: Reply): Stage {
    Replied(if mode.V1Vulnerable? then Delivered(false) else reply)
  }

  /** `decodePaymentHeader`: what does not decode is no header. */
  function Decoded(encoded: Option<Option<Header>>): Option<Header> {
    if encoded.Some? && encoded.value.Some? && IsDecoded(encoded.value.value) then encoded.value else None
  }

  function Received(encoded: Option<Option<Header>>, terms: Terms, now: int): Request {
    if encoded.None? then Request(None, now, Replied(PaymentRequired))
    else if Decoded(encoded).None? then Request(None, now, Replied(MalformedHeader))
    else if !Verifies(Decoded(encoded).value, terms, now) then Request(Decoded(encoded), now, Replied(InvalidPayment))
    else Request(Decoded(encoded), now, Verified)
  }

  function Settlement(w: World, r: nat, ts: nat): Result<Token, Revert>
    requires r in w.requests && w.requests[r].presented.Some? && IsDecoded(w.requests[r].presented.value)
  {
    var header := w.requests[r].presented.value;
    Transferred(w.token, ts, MessageOf(header.authorization), header.signature)
  }

  function CreditOf(r: nat, header: Header): Credit
    requires IsDecoded(header)
  {
    var a := header.authorization;
    Credit(Some(r), a.from, Some(a.nonce), a.to, ValueOf(a.value))
  }

  function Step(w: World, a: Action): World {
    match a
    case Receive(r, encoded, now) =>
      if r in w.requests then w else w.(requests := w.requests[r := Received(encoded, w.terms, now)])
    case Simulate(r, ts) =>
      if !IsAt(w, r, Verified) || !IsDecoded(w.requests[r].presented.value) then w
      else
        var result := Settlement(w, r, ts);
        if result.Ok? then Put(w, r, Cleared)
        else if result.error == AuthorizationAlreadyUsed then Put(w, r, Unsettled(w.mode, AlreadySettled))
        else Put(w, r, Unsettled(w.mode, SettlementFailed))
    case Send(r, reached) =>
      if !IsAt(w, r, Cleared) then w
      else Put(w, r, Pending).(sent := if reached then w.sent[r := w.requests[r].presented.value] else w.sent)
    case Mine(r, ts) => StepMine(w, r, ts)
    case Confirm(r) =>
      if !IsAt(w, r, Pending) || r !in w.receipts then w
      else if w.receipts[r].Some? then Put(w, r, Replied(Delivered(true)))
      else Put(w, r, Unsettled(w.mode, SettlementFailed))
    case LoseRpc(r) =>
      if IsAt(w, r, Verified) || IsAt(w, r, Cleared) || IsAt(w, r, Pending)
      then Put(w, r, Unsettled(w.mode, SettlementFailed)) else w
    case Authorize(ts, m, signature) =>
      var result := Transferred(w.token, ts, m, signature);
      if result.Err? then w
      else w.(token := result.value, log := w.log + [Credit(None, m.from, Some(m.nonce), m.to, m.value)])
    case Pay(from, to, value) =>
      if from == 0 || to == 0 || value > BalanceOf(w.token, from) then w
      else w.(token := Moved(w.token, from, to, value), log := w.log + [Credit(None, from, None, to, value)])
    case Mint(to, value) =>
      if to == 0 then w
      else w.(token := w.token.(balances := w.token.balances[to := BalanceOf(w.token, to) + value]),
              log := w.log + [Credit(None, 0, None, to, value)])
  }

  /** A broadcast transaction is mined once, whether or not its request still waits. */
  function StepMine(w: World, r: nat, ts: nat): World {
    if r !in w.sent || r in w.receipts || !IsDecoded(w.sent[r]) then w
    else
      var result := Transferred(w.token, ts, MessageOf(w.sent[r].authorization), w.sent[r].signature);
      if result.Err? then w.(receipts := w.receipts[r := None])
      else w.(token := result.value, log := w.log + [CreditOf(r, w.sent[r])], receipts := w.receipts[r := Some(|w.log|)])
  }

  function Execute(w: World, actions: seq<Action>): World {
    if actions == [] then w
    else Step(Execute(w, actions[..|actions| - 1]), actions[|actions| - 1])
  }

  lemma ExecuteOneMore(w: World, actions: seq<Action>, a: Action)
    ensures Execute(w, actions + [a]) == Step(Execute(w, actions), a)
  {
  }

  /** A server that has not been asked yet, on a token with any history. */
  predicate IsInitial(w: World) {
    IsTerms(w.terms) && w.log == [] && w.sent == map[] && w.receipts == map[] && w.requests == map[]
  }

  /** Left alone, a request with a payment that verifies and that the token settles
      is delivered as settled by either server, and the price has moved. */
  lemma PayingRequestIsDelivered(w: World, r: nat, header: Header, now: int, ts: nat)
    requires r !in w.requests && r !in w.sent && r !in w.receipts
    requires Verifies(header, w.terms, now) && Settles(w.token, header, ts)
    ensures var a := header.authorization;
            var after := Step(Step(Step(Step(Step(w, Receive(r, Some(Some(header)), now)), Simulate(r, ts)), Send(r, true)),
                                   Mine(r, ts)), Confirm(r));
            && r in after.requests && after.requests[r] == Request(Some(header), now, Replied(Delivered(true)))
            && after.receipts == w.receipts[r := Some(|w.log|)] && (a.from, a.nonce) in after.token.used
            && |after.log| == |w.log| + 1
            && after.log[|w.log|] == Credit(Some(r), a.from, Some(a.nonce), w.terms.payTo, ValueOf(w.terms.amount))
            && (a.from != w.terms.payTo ==>
                  BalanceOf(after.token, w.terms.payTo) == BalanceOf(w.token, w.terms.payTo) + ValueOf(w.terms.amount))
  {
    var a := header.authorization;
    var received := Step(w, Receive(r, Some(Some(header)), now));
    assert received.requests[r] == Request(Some(header), now, Verified);
    SettlesExactlyWhen(w.token, ts, MessageOf(a), header.signature);
    var cleared := Step(received, Simulate(r, ts));
    assert cleared.requests[r] == Request(Some(header), now, Cleared) && cleared.token == w.token;
    var sent := Step(cleared, Send(r, true));
    assert sent.requests[r] == Request(Some(header), now, Pending) && sent.sent[r] == header;
    SettlementMovesTheValue(w.token, ts, MessageOf(a), header.signature, w.terms.payTo);
    hide Verifies, Transferred, IsDecoded;
    assert Step(sent, Mine(r, ts)).receipts[r] == Some(|w.log|);
  }

  predicate Settles(token: Token, header: Header, ts: nat) {
    var a := header.authorization;
    && IsDecoded(header) && a.validAfter < ts < a.validBefore && (a.from, a.nonce) !in token.used
    && header.signature == Signature(a.from, token.domain, MessageOf(a))
    && a.to != 0 && ValueOf(a.value) <= BalanceOf(token, a.from)
  }

  // ---------------------------------------------------------------- the invariant

  predicate IsOpen(stage: Stage) { stage.Verified? || stage.Cleared? || stage.Pending? }

  /** What the server knows of a request, mode by mode. */
  predicate RequestHolds(w: World, r: nat, q: Request) {
    && (IsOpen(q.stage) || q.stage.Replied?)
    && (q.presented.Some? ==> IsDecoded(q.presented.value))
    && (IsOpen(q.stage) ==> q.presented.Some? && Verifies(q.presented.value, w.terms, q.now))
    && (q.stage.Replied? && q.stage.reply.Delivered? ==> q.presented.Some? && Verifies(q.presented.value, w.terms, q.now))
    && (q.stage.Replied? && q.stage.reply.Delivered? && w.mode.V2Protected? ==> r in w.receipts && w.receipts[r].Some?)
    && (q.stage.Replied? && w.mode.V1Vulnerable? && q.presented.Some? && Verifies(q.presented.value, w.terms, q.now)
        ==> q.stage.reply.Delivered?)
  }

  predicate SentHolds(w: World, r: nat)
    requires r in w.sent
  {
    && r in w.requests && w.requests[r].presented == Some(w.sent[r]) && IsDecoded(w.sent[r])
    && Verifies(w.sent[r], w.terms, w.requests[r].now)
    && !w.requests[r].stage.Verified? && !w.requests[r].stage.Cleared?
  }

  predicate ReceiptHolds(w: World, r: nat)
    requires r in w.receipts
  {
    && r in w.sent
    && (w.receipts[r].Some? ==>
          && w.receipts[r].value < |w.log| && IsDecoded(w.sent[r])
          && w.log[w.receipts[r].value] == CreditOf(r, w.sent[r]))
  }

  predicate LogHolds(w: World) {
    && (forall k :: 0 <= k < |w.log| && w.log[k].nonce.Some? ==> (w.log[k].from, w.log[k].nonce.value) in w.token.used)
    && (forall k, l :: 0 <= k < l < |w.log| && w.log[k].nonce.Some? && w.log[l].nonce.Some?
                       ==> (w.log[k].from, w.log[k].nonce) != (w.log[l].from, w.log[l].nonce))
  }

  /** A transfer made for a request is the one its header authorizes. */
  predicate MakerHolds(w: World, k: nat)
    requires k < |w.log| && w.log[k].maker.Some?
  {
    var r := w.log[k].maker.value;
    r in w.sent && IsDecoded(w.sent[r]) && w.log[k] == CreditOf(r, w.sent[r])
  }

  ghost predicate MakersHold(w: World) {
    forall k :: 0 <= k < |w.log| && w.log[k].maker.Some? ==> MakerHolds(w, k)
  }

  ghost predicate Holds(w: World) {
    && IsTerms(w.terms)
    && LogHolds(w)
    && MakersHold(w)
    && (forall r :: r in w.requests ==> RequestHolds(w, r, w.requests[r]))
    && (forall r :: r in w.sent ==> SentHolds(w, r))
    && (forall r :: r in w.receipts ==> ReceiptHolds(w, r))
  }

  lemma PutHolds(w: World, r: nat, stage: Stage)
    requires Holds(w) && r in w.requests && RequestHolds(w, r, w.requests[r].(stage := stage))
    requires r in w.sent ==> !stage.Verified? && !stage.Cleared?
    ensures Holds(Put(w, r, stage))
  {
    hide Verifies, IsDecoded;
  }

  lemma ReceiveHolds(w: World, r: nat, encoded: Option<Option<Header>>, now: int)
    requires Holds(w)
    ensures Holds(Step(w, Receive(r, encoded, now)))
  {
    hide Verifies, IsDecoded;
  }

  /** Ending a request's settlement one way or the other is sound if a successful
      receipt is behind it whenever the protected server delivers. */
  lemma ProgressHolds(w: World, r: nat, stage: Stage)
    requires Holds(w) && r in w.requests && IsOpen(w.requests[r].stage)
    requires stage == Pending || stage == Unsettled(w.mode, AlreadySettled) || stage == Unsettled(w.mode, SettlementFailed)
             || (stage == Replied(Delivered(true)) && r in w.receipts && w.receipts[r].Some?)
    ensures Holds(Put(w, r, stage))
  {
    assert RequestHolds(w, r, w.requests[r]);
    PutHolds(w, r, stage);
  }

  lemma SimulateHolds(w: World, r: nat, ts: nat)
    requires Holds(w)
    ensures Holds(Step(w, Simulate(r, ts)))
  {
    if IsAt(w, r, Verified) {
      assert RequestHolds(w, r, w.requests[r]);
      var result := Settlement(w, r, ts);
      if result.Ok? {
        PutHolds(w, r, Cleared);
      } else if result.error == AuthorizationAlreadyUsed {
        ProgressHolds(w, r, Unsettled(w.mode, AlreadySettled));
      } else {
        ProgressHolds(w, r, Unsettled(w.mode, SettlementFailed));
      }
    }
  }

  lemma EndHolds(w: World, a: Action)
    requires Holds(w) && (a.Confirm? || a.LoseRpc?)
    ensures Holds(Step(w, a))
  {
    var after := Step(w, a);
    if after != w {
      ProgressHolds(w, a.r, after.requests[a.r].stage);
    }
  }

  lemma SendHolds(w: World, r: nat, reached: bool)
    requires Holds(w)
    ensures Holds(Step(w, Send(r, reached)))
  {
    if IsAt(w, r, Cleared) {
      assert RequestHolds(w, r, w.requests[r]);
      var put := Put(w, r, Pending);
      PutHolds(w, r, Pending);
      var after := Step(w, Send(r, reached));
      forall k | 0 <= k < |after.log| && after.log[k].maker.Some? ensures MakerHolds(after, k) {
        assert MakerHolds(w, k);
      }
      forall s | s in after.requests ensures RequestHolds(after, s, after.requests[s]) {
        assert RequestHolds(put, s, put.requests[s]);
      }
      forall s | s in after.sent ensures SentHolds(after, s) {
        if s != r { assert SentHolds(put, s); }
      }
      forall s | s in after.receipts ensures ReceiptHolds(after, s) {
        assert ReceiptHolds(put, s) && SentHolds(w, s);
      }
    }
  }

  /** The token only ever grows its set of used nonces, and an authorization that
      goes through was not in it. */
  lemma TransferredUses(token: Token, ts: nat, m: Message, signature: Signature)
    requires Transferred(token, ts, m, signature).Ok?
    ensures (m.from, m.nonce) !in token.used
    ensures Transferred(token, ts, m, signature).value.used == token.used + {(m.from, m.nonce)}
  {
  }

  lemma LogGrowsHolds(before: World, after: World)
    requires Holds(before) && LogHolds(after) && before.log <= after.log
    requires forall k :: |before.log| <= k < |after.log| && after.log[k].maker.Some? ==> MakerHolds(after, k)
    requires after == before.(token := after.token, log := after.log)
    ensures Holds(after)
  {
    hide Verifies, IsDecoded;
  }

  /** Transfers that others make touch nothing the server relies on. */
  lemma ChainHolds(w: World, a: Action)
    requires Holds(w) && (a.Authorize? || a.Pay? || a.Mint?)
    ensures Holds(Step(w, a))
  {
    hide Verifies, IsDecoded;
    var after := Step(w, a);
    if a.Authorize? && Transferred(w.token, a.ts, a.m, a.signature).Ok? {
      TransferredUses(w.token, a.ts, a.m, a.signature);
    }
    assert LogHolds(after);
    LogGrowsHolds(w, after);
  }

  /** Recording a receipt for a transaction that had none. */
  lemma ReceiptArrives(w: World, r: nat, receipt: Option<nat>)
    requires Holds(w) && r in w.sent && r !in w.receipts
    requires receipt.Some? ==>
               receipt.value < |w.log| && IsDecoded(w.sent[r]) && w.log[receipt.value] == CreditOf(r, w.sent[r])
    ensures Holds(w.(receipts := w.receipts[r := receipt]))
  {
    hide Verifies, IsDecoded;
  }

  lemma SettlementLogged(w: World, r: nat, ts: nat)
    requires Holds(w) && r in w.sent && IsDecoded(w.sent[r])
    requires Transferred(w.token, ts, MessageOf(w.sent[r].authorization), w.sent[r].signature).Ok?
    ensures var token := Transferred(w.token, ts, MessageOf(w.sent[r].authorization), w.sent[r].signature).value;
            Holds(w.(token := token, log := w.log + [CreditOf(r, w.sent[r])]))
  {
    hide Verifies, IsDecoded;
  }

  lemma MineHolds(w: World, r: nat, ts: nat)
    requires Holds(w)
    ensures Holds(Step(w, Mine(r, ts)))
  {
    if r in w.sent && r !in w.receipts && IsDecoded(w.sent[r]) {
      var result := Transferred(w.token, ts, MessageOf(w.sent[r].authorization), w.sent[r].signature);
      hide Transferred, Holds;
      if result.Err? {
        ReceiptArrives(w, r, None);
      } else {
        SettlementLogged(w, r, ts);
        ReceiptArrives(w.(token := result.value, log := w.log + [CreditOf(r, w.sent[r])]), r, Some(|w.log|));
      }
    }
  }

  predicate IsSameServer(before: World, after: World) {
    after.mode == before.mode && after.terms == before.terms
  }

  lemma StepHolds(w: World, a: Action)
    requires Holds(w)
    ensures Holds(Step(w, a))
  {
    hide Holds, Step;
    match a
    case Receive(r, encoded, now) => ReceiveHolds(w, r, encoded, now);
    case Send(r, reached) => SendHolds(w, r, reached);
    case Mine(r, ts) => MineHolds(w, r, ts);
    case Authorize(_, _, _) => ChainHolds(w, a);
    case Pay(_, _, _) => ChainHolds(w, a);
    case Mint(_, _) => ChainHolds(w, a);
    case Simulate(r, ts) => SimulateHolds(w, r, ts);
    case _ => EndHolds(w, a);
  }

  lemma StepKeepsServer(w: World, a: Action)
    ensures IsSameServer(w, Step(w, a))
  {
  }

  lemma {:induction false} EveryScheduleHolds(w: World, actions: seq<Action>)
    requires Holds(w)
    ensures Holds(Execute(w, actions)) && IsSameServer(w, Execute(w, actions))
  {
    if actions != [] {
      var init, last := actions[..|actions| - 1], actions[|actions| - 1];
      EveryScheduleHolds(w, init);
      StepHolds(Execute(w, init), last);
      StepKeepsServer(Execute(w, init), last);
    }
  }

  // ---------------------------------------------------------------- what every schedule guarantees

  predicate IsDelivered(w: World, r: nat) {
    r in w.requests && w.requests[r].stage.Replied? && w.requests[r].stage.reply.Delivered?
  }

  function PaymentId(w: World, r: nat): (nat, nat)
    requires r in w.requests && w.requests[r].presented.Some?
  {
    var a := w.requests[r].presented.value.authorization;
    (a.from, a.nonce)
  }

  /** The protected server delivers at most once per payer and nonce, however many
      requests race with the same header. */
  lemma OneDeliveryPerPayment(w: World, actions: seq<Action>, r: nat, s: nat)
    requires IsInitial(w) && w.mode.V2Protected?
    requires IsDelivered(Execute(w, actions), r) && IsDelivered(Execute(w, actions), s)
    ensures Execute(w, actions).requests[r].presented.Some? && Execute(w, actions).requests[s].presented.Some?
    ensures PaymentId(Execute(w, actions), r) == PaymentId(Execute(w, actions), s) ==> r == s
  {
    EveryScheduleHolds(w, actions);
    DeliveredOnce(Execute(w, actions), r, s);
  }

  lemma DeliveredOnce(w: World, r: nat, s: nat)
    requires Holds(w) && w.mode.V2Protected? && IsDelivered(w, r) && IsDelivered(w, s)
    ensures w.requests[r].presented.Some? && w.requests[s].presented.Some?
    ensures PaymentId(w, r) == PaymentId(w, s) ==> r == s
  {
  }

  /** Behind every protected delivery there is a transfer of the price to the payee,
      made by that request's own transaction. */
  lemma DeliveryHasCredit(w: World, r: nat)
    requires Holds(w) && w.mode.V2Protected? && IsDelivered(w, r)
    ensures w.requests[r].presented.Some? && r in w.receipts && w.receipts[r].Some?
    ensures w.receipts[r].value < |w.log|
    ensures w.log[w.receipts[r].value]
            == Credit(Some(r), PaymentId(w, r).0, Some(PaymentId(w, r).1), w.terms.payTo, ValueOf(w.terms.amount))
  {
  }

  lemma DeliveredNonceIsUsed(w: World, r: nat)
    requires Holds(w) && w.mode.V2Protected? && IsDelivered(w, r)
    ensures w.requests[r].presented.Some? && PaymentId(w, r) in w.token.used
  {
    DeliveryHasCredit(w, r);
  }

  lemma UsedNonceReverts(token: Token, ts: nat, m: Message, signature: Signature)
    requires (m.from, m.nonce) in token.used
    ensures Transferred(token, ts, m, signature).Err?
    ensures Transferred(token, ts, m, signature) == Err(AuthorizationAlreadyUsed) <==> m.validAfter < ts < m.validBefore
  {
  }

  /** Once a payment was delivered for, simulating it again inside its window is
      answered with a conflict, and outside it with a refusal. */
  lemma SettledPaymentConflicts(w: World, settled: nat, r: nat, ts: nat)
    requires Holds(w) && w.mode.V2Protected? && IsDelivered(w, settled) && IsAt(w, r, Verified)
    requires w.requests[settled].presented.Some? && PaymentId(w, settled) == PaymentId(w, r)
    ensures var a := w.requests[r].presented.value.authorization;
            var reply := if a.validAfter < ts < a.validBefore then AlreadySettled else SettlementFailed;
            && Step(w, Simulate(r, ts)).requests[r].stage == Replied(reply)
            && Status(reply) == if a.validAfter < ts < a.validBefore then 409 else 402
  {
    var a, header := w.requests[r].presented.value.authorization, w.requests[r].presented.value;
    DeliveredNonceIsUsed(w, settled);
    assert RequestHolds(w, r, w.requests[r]);
    UsedNonceReverts(w.token, ts, MessageOf(a), header.signature);
    hide Holds, Transferred, IsDelivered;
  }

  function ReceivedBy(log: seq<Credit>, account: nat): nat {
    if log == [] then 0
    else
      var last := log[|log| - 1];
      ReceivedBy(log[..|log| - 1], account) + (if last.to == account then last.value else 0)
  }

  function SpentBy(log: seq<Credit>, account: nat): nat {
    if log == [] then 0
    else
      var last := log[|log| - 1];
      SpentBy(log[..|log| - 1], account) + (if last.from == account then last.value else 0)
  }

  /** Every delivery of the protected server is paid for: what the payee received
      covers the price of any set of delivered requests. */
  lemma DeliveriesArePaid(w: World, actions: seq<Action>, delivered: set<nat>)
    requires IsInitial(w) && w.mode.V2Protected?
    requires forall r :: r in delivered ==> IsDelivered(Execute(w, actions), r)
    ensures |delivered| * ValueOf(w.terms.amount) <= ReceivedBy(Execute(w, actions).log, w.terms.payTo)
  {
    EveryScheduleHolds(w, actions);
    var after := Execute(w, actions);
    forall r | r in delivered ensures HasCreditBelow(after, r, |after.log|) {
      DeliveryHasCredit(after, r);
    }
    assert after.log[..|after.log|] == after.log;
    CreditsAddUp(after, delivered, |after.log|);
  }

  predicate HasCreditBelow(w: World, r: nat, n: nat)
    requires IsTerms(w.terms)
  {
    && r in w.receipts && w.receipts[r].Some?
    && w.receipts[r].value < n && w.receipts[r].value < |w.log|
    && w.log[w.receipts[r].value].maker == Some(r)
    && w.log[w.receipts[r].value].to == w.terms.payTo
    && w.log[w.receipts[r].value].value == ValueOf(w.terms.amount)
  }

  lemma {:induction false} CreditsAddUp(w: World, delivered: set<nat>, n: nat)
    requires IsTerms(w.terms) && n <= |w.log|
    requires forall r :: r in delivered ==> HasCreditBelow(w, r, n)
    ensures |delivered| * ValueOf(w.terms.amount) <= ReceivedBy(w.log[..n], w.terms.payTo)
  {
    if n == 0 {
      if r :| r in delivered { assert false; }
      assert delivered == {};
    } else {
      var rest := set r | r in delivered && w.receipts[r] != Some(n - 1);
      assert w.log[..n][..n - 1] == w.log[..n - 1];
      forall r | r in rest ensures HasCreditBelow(w, r, n - 1) {
        assert HasCreditBelow(w, r, n);
      }
      CreditsAddUp(w, rest, n - 1);
      if rest != delivered {
        var r :| r in delivered && r !in rest;
        assert HasCreditBelow(w, r, n);
        forall s | s in delivered && s !in rest ensures s == r {
          assert HasCreditBelow(w, s, n);
        }
        assert rest == delivered - {r};
        CreditAtTheEnd(w, rest, delivered, r, n);
      }
    }
  }

  lemma CreditAtTheEnd(w: World, rest: set<nat>, delivered: set<nat>, r: nat, n: nat)
    requires IsTerms(w.terms) && 0 < n <= |w.log|
    requires r in delivered && rest == delivered - {r}
    requires HasCreditBelow(w, r, n) && w.receipts[r] == Some(n - 1)
    requires |rest| * ValueOf(w.terms.amount) <= ReceivedBy(w.log[..n - 1], w.terms.payTo)
    requires w.log[..n][..n - 1] == w.log[..n - 1]
    ensures |delivered| * ValueOf(w.terms.amount) <= ReceivedBy(w.log[..n], w.terms.payTo)
  {
  }

  /** The log accounts for every balance, so what the payee received it holds,
      unless it spent it. */
  lemma {:induction false} LogIsTheLedger(w: World, actions: seq<Action>, account: nat)
    requires IsInitial(w) && account != 0
    ensures var after := Execute(w, actions);
            BalanceOf(after.token, account) + SpentBy(after.log, account)
            == BalanceOf(w.token, account) + ReceivedBy(after.log, account)
  {
    if actions != [] {
      var init, last := actions[..|actions| - 1], actions[|actions| - 1];
      LogIsTheLedger(w, init, account);
      StepKeepsLedger(Execute(w, init), last, account);
    }
  }

  lemma LogGrows(log: seq<Credit>, credit: Credit, account: nat)
    ensures ReceivedBy(log + [credit], account)
            == ReceivedBy(log, account) + if credit.to == account then credit.value else 0
    ensures SpentBy(log + [credit], account)
            == SpentBy(log, account) + if credit.from == account then credit.value else 0
  {
  }

  lemma MovedBalance(token: Token, from: nat, to: nat, value: nat, account: nat)
    requires value <= BalanceOf(token, from)
    ensures BalanceOf(Moved(token, from, to, value), account) + (if account == from then value else 0)
            == BalanceOf(token, account) + (if account == to then value else 0)
  {
  }

  lemma TransferredBalance(token: Token, ts: nat, m: Message, signature: Signature, account: nat)
    requires Transferred(token, ts, m, signature).Ok?
    ensures BalanceOf(Transferred(token, ts, m, signature).value, account) + (if account == m.from then m.value else 0)
            == BalanceOf(token, account) + (if account == m.to then m.value else 0)
  {
    hide Moved;
    MovedBalance(token.(used := token.used + {(m.from, m.nonce)}), m.from, m.to, m.value, account);
  }

  /** A step logs exactly the transfer it makes. */
  lemma StepMovesOneCredit(w: World, a: Action, account: nat)
    requires account != 0
    ensures var after := Step(w, a);
            || (after.log == w.log && after.token == w.token)
            || (&& |after.log| == |w.log| + 1 && after.log == w.log + [after.log[|w.log|]]
                && var credit := after.log[|w.log|];
                   BalanceOf(after.token, account) + (if account == credit.from then credit.value else 0)
                   == BalanceOf(w.token, account) + (if account == credit.to then credit.value else 0))
  {
    hide Transferred, Moved, Received, Settlement;
    match a
    case Mine(r, ts) =>
      if Step(w, a).log != w.log {
        TransferredBalance(w.token, ts, MessageOf(w.sent[r].authorization), w.sent[r].signature, account);
      }
    case Authorize(ts, m, signature) =>
      if Transferred(w.token, ts, m, signature).Ok? { TransferredBalance(w.token, ts, m, signature, account); }
    case Pay(from, to, value) =>
      if value <= BalanceOf(w.token, from) { MovedBalance(w.token, from, to, value, account); }
    case _ =>
  }

  lemma StepKeepsLedger(w: World, a: Action, account: nat)
    requires account != 0
    ensures var after := Step(w, a);
            BalanceOf(after.token, account) + SpentBy(after.log, account) + ReceivedBy(w.log, account)
            == BalanceOf(w.token, account) + SpentBy(w.log, account) + ReceivedBy(after.log, account)
  {
    StepMovesOneCredit(w, a, account);
    var after := Step(w, a);
    hide Step;
    if |after.log| > |w.log| {
      LogGrows(w.log, after.log[|w.log|], account);
    }
  }
}
