/** The merchant adapter under overlapping calls. Each call reads a stored context,
    waits, and writes back what it read with its own change; in between, other calls
    and the chain go on. */
module BotChainSystem {
  import opened BotChainMerchant
  import opened Decimal
  import opened SettlementVerifier
  import opened Wrappers

  /** A call between its read and its write. `read` is the context it will write
      back; a call that never writes has crashed. */
  datatype Session =
    | Creating(request: OrderRequest, created: Context)
    | Submitting(read: Context, hash: string)
    | Asking(read: Context)
    | Confirming(read: Context, proof: Proof)
    | Over

  /** `chain` holds the mined receipts by chain and lower-case hash. `accepted` are
      the orders returned for requests, `confirmed` and `proofs` what queries about
      paid orders were answered with. */
  datatype World = World(
    chainId: nat,
    orderTtlSeconds: nat,
    store: Contexts,
    sessions: map<nat, Session>,
    chain: map<(nat, string), Receipt>,
    accepted: set<(string, OrderRequest)>,
    confirmed: set<Order>,
    proofs: set<Proof>)

  datatype Action =
    | BeginCreate(r: nat, request: OrderRequest, now: int, freshId: string)
    | BeginSubmit(r: nat, orderId: string, hash: string)
    | BeginAsk(r: nat, orderId: string)
    | Look(r: nat)
    | Write(r: nat)
    | Mine(receipt: Receipt)

  predicate IsInitial(w: World) {
    && w.store == Contexts(map[], map[]) && w.sessions == map[] && w.chain == map[]
    && w.accepted == {} && w.confirmed == {} && w.proofs == {}
  }

  function At(w: World, r: nat): Session {
    if r in w.sessions then w.sessions[r] else Over
  }

  function Put(w: World, r: nat, session: Session): World {
    w.(sessions := w.sessions[r := session])
  }

  /** Random order ids never collide. */
  predicate IsNewId(w: World, id: string) {
    && id !in w.store.records
    && forall r :: r in w.sessions && w.sessions[r].Creating? ==> w.sessions[r].created.order.orderId != id
  }

  /** A query about a paid order answers with the confirmed order, or its proof. */
  function Answered(w: World, order: Order, proof: Proof): World {
    w.(confirmed := w.confirmed + {order.(status := PaymentConfirmed)}, proofs := w.proofs + {proof})
  }

  function KeyOf(order: Order, hash: string): (nat, string) {
    (order.chainId, Lower(hash))
  }

  /** The proof the chain has for the submitted hash now. */
  function Found(w: World, context: Context): Option<Proof> {
    if context.submitted.None? then None
    else
      var key := KeyOf(context.order, context.submitted.value);
      if key !in w.chain then None else ProofFrom(context.order, context.submitted.value, w.chain[key])
  }

  /** What the call is about to put. */
  function Pending(session: Session): Option<Context> {
    match session
    case Creating(_, created) => Some(created)
    case Submitting(read, hash) => Some(read.(submitted := Some(hash)))
    case Confirming(read, proof) => Some(read.(order := read.order.(status := PaymentConfirmed), proof := Some(proof)))
    case _ => None
  }

  function Created(w: World, r: nat, request: OrderRequest, now: int, freshId: string): World {
    var existing := ByDappOrderId(w.store, request.dappOrderId);
    if existing.Some? then
      if Matches(existing.value, request)
      then Put(w, r, Over).(accepted := w.accepted + {(existing.value.order.orderId, request)})
      else Put(w, r, Over)
    else
      var created := NewContext(request, w.chainId, w.orderTtlSeconds, now, freshId);
      if created.Err? then Put(w, r, Over) else Put(w, r, Creating(request, created.value))
  }

  function Written(w: World, r: nat): World
    requires Pending(At(w, r)).Some?
  {
    var context := Pending(At(w, r)).value;
    var result := PutContext(w.store, context);
    if result.Err? then Put(w, r, Over)
    else
      var after := Put(w, r, Over).(store := result.value);
      match At(w, r)
      case Creating(request, _) => after.(accepted := w.accepted + {(context.order.orderId, request)})
      case Confirming(_, proof) => Answered(after, context.order, proof)
      case _ => after
  }

  function Step(w: World, a: Action): World {
    match a
    case BeginCreate(r, request, now, freshId) =>
      if r in w.sessions || !IsNewId(w, freshId) then w else Created(w, r, request, now, freshId)
    case BeginSubmit(r, orderId, hash) =>
      if r in w.sessions then w
      else if orderId !in w.store.records then Put(w, r, Over)
      else
        var read := w.store.records[orderId];
        if read.proof.Some? && read.submitted != Some(hash) then Put(w, r, Over) else Put(w, r, Submitting(read, hash))
    case BeginAsk(r, orderId) =>
      if r in w.sessions then w
      else if orderId !in w.store.records then Put(w, r, Over)
      else
        var read := w.store.records[orderId];
        if read.proof.Some? then Answered(Put(w, r, Over), read.order, read.proof.value) else Put(w, r, Asking(read))
    case Look(r) =>
      if !At(w, r).Asking? then w
      else
        var proof := Found(w, At(w, r).read);
        Put(w, r, if proof.Some? then Confirming(At(w, r).read, proof.value) else Over)
    case Write(r) => if Pending(At(w, r)).Some? then Written(w, r) else w
    case Mine(receipt) =>
      var key := (receipt.chainId, Lower(receipt.hash));
      if key in w.chain then w else w.(chain := w.chain[key := receipt])
  }

  function Execute(w: World, actions: seq<Action>): World {
    if actions == [] then w
    else Step(Execute(w, actions[..|actions| - 1]), actions[|actions| - 1])
  }

  // ---------------------------------------------------------------- the invariant

  /** Nothing but the status of an order ever changes. */
  predicate IsSameOrder(a: Order, b: Order) {
    a.(status := b.status) == b
  }

  predicate ProofStands(w: World, proof: Proof) {
    && proof.orderId in w.store.records
    && var order := w.store.records[proof.orderId].order;
       && KeyOf(order, proof.hash) in w.chain
       && ProofFrom(order, proof.hash, w.chain[KeyOf(order, proof.hash)]) == Some(proof)
  }

  /** A context of a stored order, as some call read it or is about to write it. */
  predicate ContextHolds(w: World, context: Context) {
    && OrderHolds(context)
    && context.order.orderId in w.store.records
    && IsSameOrder(context.order, w.store.records[context.order.orderId].order)
    && (context.proof.Some? ==> ProofStands(w, context.proof.value) && context.proof.value.orderId == context.order.orderId)
  }

  /** The order is the one that was asked for. */
  predicate IsOrderOf(order: Order, request: OrderRequest) {
    request.payer.AddressText? ==> IsOrderFor(order, ExpectationOf(request, order.orderId))
  }

  predicate NewContextHolds(w: World, request: OrderRequest, created: Context) {
    && OrderHolds(created) && created.proof.None?
    && created.order.orderId !in w.store.records
    && created.order.payer == request.payer && IsOrderOf(created.order, request)
  }

  predicate SessionHolds(w: World, session: Session) {
    match session
    case Creating(request, created) => NewContextHolds(w, request, created)
    case Submitting(read, _) => ContextHolds(w, read)
    case Asking(read) => ContextHolds(w, read)
    case Confirming(read, proof) => ContextHolds(w, read) && ProofStands(w, proof) && proof.orderId == read.order.orderId
    case Over => true
  }

  predicate AcceptedHolds(w: World, id: string, request: OrderRequest) {
    && id in w.store.records
    && (w.store.records[id].order.payer.AddressText? ==> request.payer.AddressText?)
    && IsOrderOf(w.store.records[id].order, request)
  }

  ghost predicate StoreHolds(w: World) {
    && IsConsistent(w.store)
    && (forall id :: id in w.store.records ==> ContextHolds(w, w.store.records[id]))
    && (forall key :: key in w.chain ==> key == (w.chain[key].chainId, Lower(w.chain[key].hash)))
  }

  ghost predicate SessionsHold(w: World) {
    && (forall r :: r in w.sessions ==> SessionHolds(w, w.sessions[r]))
    && (forall r, s :: r in w.sessions && s in w.sessions && r != s && w.sessions[r].Creating? && w.sessions[s].Creating?
                       ==> w.sessions[r].created.order.orderId != w.sessions[s].created.order.orderId)
  }

  ghost predicate AnswersHold(w: World) {
    && (forall entry :: entry in w.accepted ==> AcceptedHolds(w, entry.0, entry.1))
    && (forall proof :: proof in w.proofs ==> ProofStands(w, proof))
    && (forall order :: order in w.confirmed ==>
          && order.status == PaymentConfirmed && order.orderId in w.store.records
          && IsSameOrder(order, w.store.records[order.orderId].order))
  }

  ghost predicate Holds(w: World) {
    StoreHolds(w) && SessionsHold(w) && AnswersHold(w)
  }

  /** Orders are only added, and receipts too: what was so of them stays so. */
  predicate Grows(before: World, after: World) {
    && (forall id :: id in before.store.records ==>
          && id in after.store.records
          && IsSameOrder(before.store.records[id].order, after.store.records[id].order))
    && (forall key :: key in before.chain ==> key in after.chain && after.chain[key] == before.chain[key])
  }

  lemma SameOrderSameProof(a: Order, b: Order, hash: string, receipt: Receipt)
    requires IsSameOrder(a, b)
    ensures ProofFrom(a, hash, receipt) == ProofFrom(b, hash, receipt)
  {
    StatusDoesNotMatter(receipt.logs, a, b.status);
  }

  lemma ProofKeepsStanding(before: World, after: World, proof: Proof)
    requires Grows(before, after) && ProofStands(before, proof)
    ensures ProofStands(after, proof)
  {
    var a, b := before.store.records[proof.orderId].order, after.store.records[proof.orderId].order;
    assert KeyOf(a, proof.hash) == KeyOf(b, proof.hash);
    SameOrderSameProof(a, b, proof.hash, before.chain[KeyOf(a, proof.hash)]);
  }

  lemma ContextKeepsHolding(before: World, after: World, context: Context)
    requires Grows(before, after) && ContextHolds(before, context)
    ensures ContextHolds(after, context)
  {
    if context.proof.Some? {
      ProofKeepsStanding(before, after, context.proof.value);
    }
  }

  lemma SessionKeepsHolding(before: World, after: World, session: Session)
    requires Grows(before, after) && SessionHolds(before, session)
    requires session.Creating? ==> session.created.order.orderId !in after.store.records
    ensures SessionHolds(after, session)
  {
    match session
    case Submitting(read, _) => ContextKeepsHolding(before, after, read);
    case Asking(read) => ContextKeepsHolding(before, after, read);
    case Confirming(read, proof) =>
      ContextKeepsHolding(before, after, read);
      ProofKeepsStanding(before, after, proof);
    case _ =>
  }

  lemma AnswersKeepHolding(before: World, after: World)
    requires Grows(before, after) && AnswersHold(before)
    requires after.accepted == before.accepted && after.confirmed == before.confirmed && after.proofs == before.proofs
    ensures AnswersHold(after)
  {
    forall proof | proof in after.proofs ensures ProofStands(after, proof) {
      ProofKeepsStanding(before, after, proof);
    }
  }

  /** A change of the chain alone. */
  lemma MineHolds(w: World, receipt: Receipt)
    requires Holds(w)
    ensures Holds(Step(w, Mine(receipt)))
  {
    var after := Step(w, Mine(receipt));
    assert Grows(w, after);
    AnswersKeepHolding(w, after);
    forall id | id in after.store.records ensures ContextHolds(after, after.store.records[id]) {
      ContextKeepsHolding(w, after, after.store.records[id]);
    }
    forall r | r in after.sessions ensures SessionHolds(after, after.sessions[r]) {
      SessionKeepsHolding(w, after, after.sessions[r]);
    }
  }

  /** A change of one session alone. */
  lemma PutHolds(w: World, r: nat, session: Session)
    requires Holds(w) && SessionHolds(w, session)
    requires session.Creating? ==> IsNewId(w, session.created.order.orderId)
    ensures Holds(Put(w, r, session))
  {
    var after := Put(w, r, session);
    assert Grows(w, after);
    AnswersKeepHolding(w, after);
    forall id | id in after.store.records ensures ContextHolds(after, after.store.records[id]) {
      ContextKeepsHolding(w, after, after.store.records[id]);
    }
    forall s | s in after.sessions ensures SessionHolds(after, after.sessions[s]) {
      SessionKeepsHolding(w, after, after.sessions[s]);
    }
  }

  lemma AcceptHolds(w: World, id: string, request: OrderRequest)
    requires Holds(w) && AcceptedHolds(w, id, request)
    ensures Holds(w.(accepted := w.accepted + {(id, request)}))
  {
    var after := w.(accepted := w.accepted + {(id, request)});
    assert Grows(w, after);
    AnswersKeepHolding(w, after.(accepted := w.accepted));
    forall id | id in after.store.records ensures ContextHolds(after, after.store.records[id]) {
      ContextKeepsHolding(w, after, after.store.records[id]);
    }
    forall s | s in after.sessions ensures SessionHolds(after, after.sessions[s]) {
      SessionKeepsHolding(w, after, after.sessions[s]);
    }
  }

  lemma AnswerHolds(w: World, order: Order, proof: Proof)
    requires Holds(w) && ProofStands(w, proof)
    requires order.orderId in w.store.records && IsSameOrder(order, w.store.records[order.orderId].order)
    ensures Holds(Answered(w, order, proof))
  {
    var after := Answered(w, order, proof);
    assert Grows(w, after);
    forall id | id in after.store.records ensures ContextHolds(after, after.store.records[id]) {
      ContextKeepsHolding(w, after, after.store.records[id]);
    }
    forall s | s in after.sessions ensures SessionHolds(after, after.sessions[s]) {
      SessionKeepsHolding(w, after, after.sessions[s]);
    }
  }

  lemma NewContextIsSound(w: World, request: OrderRequest, now: int, freshId: string)
    requires IsNewId(w, freshId)
    ensures var created := NewContext(request, w.chainId, w.orderTtlSeconds, now, freshId);
            created.Ok? ==> NewContextHolds(w, request, created.value) && created.value.order.orderId == freshId
  {
  }

  lemma CreateHolds(w: World, r: nat, request: OrderRequest, now: int, freshId: string)
    requires Holds(w) && IsNewId(w, freshId)
    ensures Holds(Created(w, r, request, now, freshId))
  {
    var existing := ByDappOrderId(w.store, request.dappOrderId);
    if existing.Some? {
      PutHolds(w, r, Over);
      if Matches(existing.value, request) {
        assert ContextHolds(w, existing.value);
        AcceptHolds(Put(w, r, Over), existing.value.order.orderId, request);
      }
    } else {
      NewContextIsSound(w, request, now, freshId);
      var created := NewContext(request, w.chainId, w.orderTtlSeconds, now, freshId);
      PutHolds(w, r, if created.Err? then Over else Creating(request, created.value));
    }
  }

  lemma BeginHolds(w: World, a: Action)
    requires Holds(w) && (a.BeginSubmit? || a.BeginAsk?)
    ensures Holds(Step(w, a))
  {
    if a.r !in w.sessions {
      PutHolds(w, a.r, Over);
      if a.orderId in w.store.records {
        var read := w.store.records[a.orderId];
        assert ContextHolds(w, read);
        if a.BeginSubmit? {
          PutHolds(w, a.r, Submitting(read, a.hash));
        } else if read.proof.Some? {
          AnswerHolds(Put(w, a.r, Over), read.order, read.proof.value);
        } else {
          PutHolds(w, a.r, Asking(read));
        }
      }
    }
  }

  lemma LookHolds(w: World, r: nat)
    requires Holds(w)
    ensures Holds(Step(w, Look(r)))
  {
    if At(w, r).Asking? {
      var read := At(w, r).read;
      assert SessionHolds(w, w.sessions[r]);
      var proof := Found(w, read);
      if proof.Some? {
        FoundStands(w, read);
        PutHolds(w, r, Confirming(read, proof.value));
      } else {
        PutHolds(w, r, Over);
      }
    }
  }

  lemma FoundStands(w: World, read: Context)
    requires ContextHolds(w, read) && Found(w, read).Some?
    ensures ProofStands(w, Found(w, read).value) && Found(w, read).value.orderId == read.order.orderId
  {
    var order := w.store.records[read.order.orderId].order;
    SameOrderSameProof(read.order, order, read.submitted.value, w.chain[KeyOf(read.order, read.submitted.value)]);
  }

  predicate ChangesOnly(before: Contexts, after: Contexts, id: string) {
    && id in after.records
    && forall other :: other in after.records && other != id ==>
         other in before.records && after.records[other] == before.records[other]
  }

  /** A change of one stored context. */
  lemma StoreChangeHolds(w: World, store: Contexts, id: string)
    requires Holds(w) && IsConsistent(store) && ChangesOnly(w.store, store, id)
    requires Grows(w, w.(store := store)) && ContextHolds(w.(store := store), store.records[id])
    requires forall r :: r in w.sessions && w.sessions[r].Creating? ==> w.sessions[r].created.order.orderId !in store.records
    ensures Holds(w.(store := store))
  {
    var after := w.(store := store);
    hide IsConsistent, ContextHolds, Grows;
    AnswersKeepHolding(w, after);
    forall other | other in store.records ensures ContextHolds(after, store.records[other]) {
      if other != id { ContextKeepsHolding(w, after, w.store.records[other]); }
    }
    forall s | s in after.sessions ensures SessionHolds(after, after.sessions[s]) {
      SessionKeepsHolding(w, after, after.sessions[s]);
    }
  }

  lemma WriteBackGrows(w: World, context: Context)
    requires StoreHolds(w) && ContextHolds(w, context)
    ensures PutContext(w.store, context).Ok?
    ensures var store := PutContext(w.store, context).value;
            && Grows(w, w.(store := store)) && ChangesOnly(w.store, store, context.order.orderId)
            && store.records == w.store.records[context.order.orderId := context]
  {
    assert ContextHolds(w, w.store.records[context.order.orderId]);
  }

  lemma CreatingIsUnstored(w: World, r: nat)
    requires Holds(w) && r in w.sessions && w.sessions[r].Creating?
    ensures w.sessions[r].created.order.orderId !in w.store.records
  {
    assert SessionHolds(w, w.sessions[r]);
  }

  /** Writing back a context of a stored order. */
  lemma WriteBackHolds(w: World, context: Context)
    requires Holds(w) && ContextHolds(w, context)
    ensures PutContext(w.store, context).Ok? && Holds(w.(store := PutContext(w.store, context).value))
    ensures Grows(w, w.(store := PutContext(w.store, context).value))
  {
    var id := context.order.orderId;
    assert id in w.store.records;
    WriteBackGrows(w, context);
    PutKeepsConsistency(w.store, context);
    var after := w.(store := PutContext(w.store, context).value);
    hide Holds, IsConsistent, Grows, ContextHolds, PutContext;
    ContextKeepsHolding(w, after, context);
    forall r | r in w.sessions && w.sessions[r].Creating?
      ensures w.sessions[r].created.order.orderId !in after.store.records
    {
      CreatingIsUnstored(w, r);
    }
    StoreChangeHolds(w, after.store, id);
  }

  lemma PendingHolds(w: World, session: Session)
    requires SessionHolds(w, session) && (session.Submitting? || session.Confirming?)
    ensures ContextHolds(w, Pending(session).value)
  {
  }

  lemma NewIdsDiffer(w: World, r: nat, s: nat, store: Contexts)
    requires Holds(w) && At(w, r).Creating? && PutContext(w.store, At(w, r).created) == Ok(store)
    requires s in Put(w, r, Over).sessions && Put(w, r, Over).sessions[s].Creating?
    ensures Put(w, r, Over).sessions[s].created.order.orderId !in store.records
  {
    CreatingIsUnstored(w, s);
    assert s != r;
  }

  /** Storing a new order leaves the stored ones and the other new ids alone. */
  lemma NewOrderGrows(w: World, r: nat, store: Contexts)
    requires Holds(w) && At(w, r).Creating? && PutContext(w.store, At(w, r).created) == Ok(store)
    ensures var over, id := Put(w, r, Over), At(w, r).created.order.orderId;
            && ChangesOnly(w.store, store, id) && Grows(over, over.(store := store))
            && store.records[id] == At(w, r).created && ContextHolds(over.(store := store), store.records[id])
            && AcceptedHolds(over.(store := store), id, At(w, r).request)
  {
    assert SessionHolds(w, w.sessions[r]);
    hide Holds, OrderHolds, IsOrderFor;
  }

  lemma WriteNewHolds(w: World, r: nat)
    requires Holds(w) && At(w, r).Creating?
    ensures Holds(Written(w, r))
  {
    var request, created := At(w, r).request, At(w, r).created;
    var id, over := created.order.orderId, Put(w, r, Over);
    PutHolds(w, r, Over);
    var result := PutContext(w.store, created);
    if result.Ok? {
      PutKeepsConsistency(w.store, created);
      NewOrderGrows(w, r, result.value);
      hide Holds, IsConsistent, Grows, ContextHolds, AcceptedHolds, PutContext;
      forall s | s in over.sessions && over.sessions[s].Creating?
        ensures over.sessions[s].created.order.orderId !in result.value.records
      {
        NewIdsDiffer(w, r, s, result.value);
      }
      StoreChangeHolds(over, result.value, id);
      AcceptHolds(over.(store := result.value), id, request);
    }
  }

  lemma WriteConfirmedHolds(w: World, r: nat)
    requires Holds(w) && At(w, r).Confirming?
    ensures Holds(Written(w, r))
  {
    var session, over := At(w, r), Put(w, r, Over);
    assert SessionHolds(w, session);
    PendingHolds(w, session);
    var context := Pending(session).value;
    assert ContextHolds(over, context) && ProofStands(over, session.proof);
    hide ContextHolds, ProofStands, PutContext;
    PutHolds(w, r, Over);
    hide Holds;
    WriteBackHolds(over, context);
    WriteBackGrows(over, context) by { assert Holds(over) ==> StoreHolds(over); }
    var after := over.(store := PutContext(w.store, context).value);
    ProofKeepsStanding(over, after, session.proof);
    AnswerHolds(after, context.order, session.proof);
  }

  lemma WriteHolds(w: World, r: nat)
    requires Holds(w)
    ensures Holds(Step(w, Write(r)))
  {
    var session := At(w, r);
    if session.Creating? {
      WriteNewHolds(w, r);
    } else if session.Confirming? {
      WriteConfirmedHolds(w, r);
    } else if session.Submitting? {
      assert SessionHolds(w, session);
      PendingHolds(w, session);
      assert ContextHolds(Put(w, r, Over), Pending(session).value);
      PutHolds(w, r, Over);
      WriteBackHolds(Put(w, r, Over), Pending(session).value);
    }
  }

  lemma StepHolds(w: World, a: Action)
    requires Holds(w)
    ensures Holds(Step(w, a))
  {
    hide Holds;
    match a
    case BeginCreate(r, request, now, freshId) =>
      if r !in w.sessions && IsNewId(w, freshId) {
        CreateHolds(w, r, request, now, freshId);
      }
    case Look(r) => LookHolds(w, r);
    case Write(r) => WriteHolds(w, r);
    case Mine(receipt) => MineHolds(w, receipt);
    case _ => BeginHolds(w, a);
  }

  lemma {:induction false} EveryScheduleHolds(w: World, actions: seq<Action>)
    requires Holds(w)
    ensures Holds(Execute(w, actions))
  {
    if actions != [] {
      EveryScheduleHolds(w, actions[..|actions| - 1]);
      StepHolds(Execute(w, actions[..|actions| - 1]), actions[|actions| - 1]);
    }
  }

  lemma InitialHolds(w: World)
    requires IsInitial(w)
    ensures Holds(w)
  {
  }

  // ---------------------------------------------------------------- confirmed orders settle

  /** Whatever overlaps, any order the adapter ever confirmed and any proof it ever
      gave for it verify, against every request the order was returned for, if and
      only if the first log with the proof's index is the payment. Distinct log
      indices are enough for that. */
  lemma ConfirmedOrdersSettle(w: World, actions: seq<Action>, order: Order, proof: Proof, request: OrderRequest)
    requires IsInitial(w)
    requires order in Execute(w, actions).confirmed && proof in Execute(w, actions).proofs
    requires proof.orderId == order.orderId && (order.orderId, request) in Execute(w, actions).accepted
    ensures KeyOf(order, proof.hash) in Execute(w, actions).chain
    ensures var receipt := Execute(w, actions).chain[KeyOf(order, proof.hash)];
            var expected := ExpectationOf(request, order.orderId);
            && LogAt(receipt.logs, proof.logIndex).Some?
            && (Verifies(order, proof, receipt, expected)
                <==> MatchesTransferLog(LogAt(receipt.logs, proof.logIndex).value, expected))
            && (HasDistinctIndices(receipt.logs) ==> Verifies(order, proof, receipt, expected))
  {
    InitialHolds(w);
    EveryScheduleHolds(w, actions);
    AnswersSettle(Execute(w, actions), order, proof, request);
  }

  lemma AnswersSettle(w: World, order: Order, proof: Proof, request: OrderRequest)
    requires Holds(w) && order in w.confirmed && proof in w.proofs
    requires proof.orderId == order.orderId && (order.orderId, request) in w.accepted
    ensures KeyOf(order, proof.hash) in w.chain
    ensures var receipt := w.chain[KeyOf(order, proof.hash)];
            var expected := ExpectationOf(request, order.orderId);
            && LogAt(receipt.logs, proof.logIndex).Some?
            && (Verifies(order, proof, receipt, expected)
                <==> MatchesTransferLog(LogAt(receipt.logs, proof.logIndex).value, expected))
            && (HasDistinctIndices(receipt.logs) ==> Verifies(order, proof, receipt, expected))
  {
    var stored, expected := w.store.records[order.orderId].order, ExpectationOf(request, order.orderId);
    assert AcceptedHolds(w, order.orderId, request) && ProofStands(w, proof);
    var receipt := w.chain[KeyOf(order, proof.hash)];
    SameOrderSameProof(stored, order, proof.hash, receipt);
    if order.payer.Unparsable? {
      UnparsablePayerIsNeverConfirmed(order, proof.hash, receipt);
      assert false;
    }
    assert IsOrderFor(order, expected);
    ConfirmedOrderVerifiesExactlyWhen(order, proof.hash, receipt, expected);
    FirstPaymentIsThere(receipt.logs, order, expected);
  }

  // ---------------------------------------------------------------- when a proof is lost

  predicate HasProof(w: World, id: string, proof: Proof) {
    id in w.store.records && w.store.records[id].proof == Some(proof)
  }

  /** The action writes back a context without this proof, which its call had
      already read at `since`. */
  predicate Overwrites(since: World, now: World, a: Action, id: string, proof: Proof) {
    && a.Write? && a.r in since.sessions
    && Pending(At(now, a.r)).Some?
    && Pending(At(now, a.r)).value.order.orderId == id
    && Pending(At(now, a.r)).value.proof != Some(proof)
  }

  ghost predicate IsKept(w: World, actions: seq<Action>, n: nat, m: nat, id: string, proof: Proof)
    requires m <= |actions|
  {
    forall k :: n <= k <= m ==> HasProof(Execute(w, actions[..k]), id, proof)
  }

  ghost predicate IsOverwritten(w: World, actions: seq<Action>, n: nat, m: nat, id: string, proof: Proof)
    requires n <= m <= |actions|
  {
    exists k :: n <= k < m && Overwrites(Execute(w, actions[..n]), Execute(w, actions[..k]), actions[k], id, proof)
  }

  /** A confirmed order keeps its proof exactly as long as no call writes back what
      it had read before: whatever is read from then on carries the proof along. */
  lemma {:induction false} ProofIsKeptExactlyWhen(w: World, actions: seq<Action>, n: nat, m: nat, id: string, proof: Proof)
    requires IsInitial(w) && n <= m <= |actions| && HasProof(Execute(w, actions[..n]), id, proof)
    ensures IsKept(w, actions, n, m, id, proof) <==> !IsOverwritten(w, actions, n, m, id, proof)
    decreases m
  {
    hide Execute, HasProof, Overwrites, IsInitial;
    if n < m {
      ProofIsKeptExactlyWhen(w, actions, n, m - 1, id, proof);
      if IsKept(w, actions, n, m - 1, id, proof) {
        LastStepKeepsExactlyWhen(w, actions, n, m, id, proof);
      }
    }
  }

  lemma LastStepKeepsExactlyWhen(w: World, actions: seq<Action>, n: nat, m: nat, id: string, proof: Proof)
    requires IsInitial(w) && n < m <= |actions| && IsKept(w, actions, n, m - 1, id, proof)
    ensures HasProof(Execute(w, actions[..m]), id, proof)
            <==> !Overwrites(Execute(w, actions[..n]), Execute(w, actions[..m - 1]), actions[m - 1], id, proof)
  {
    LateReadersCarry(w, actions, n, m - 1, id, proof);
    LastStep(w, actions, m);
    InitialHolds(w);
    EveryScheduleHolds(w, actions[..m - 1]);
    assert HasProof(Execute(w, actions[..m - 1]), id, proof);
    hide Step, Execute, Holds, HasProof, Overwrites;
    OneStepKeepsExactlyWhen(Execute(w, actions[..n]), Execute(w, actions[..m - 1]), actions[m - 1], id, proof);
  }

  lemma LastStep(w: World, actions: seq<Action>, m: nat)
    requires 0 < m <= |actions|
    ensures Execute(w, actions[..m]) == Step(Execute(w, actions[..m - 1]), actions[m - 1])
  {
    assert actions[..m][..m - 1] == actions[..m - 1];
  }

  predicate Carries(session: Session, id: string, proof: Proof) {
    match session
    case Creating(_, created) => created.order.orderId != id
    case Submitting(read, _) => read.order.orderId == id ==> read.proof == Some(proof)
    case Asking(read) => read.order.orderId != id
    case Confirming(read, _) => read.order.orderId != id
    case Over => true
  }

  /** Every call on the order that was not under way at `since` carries the proof. */
  ghost predicate NewcomersCarry(since: World, now: World, id: string, proof: Proof) {
    && (forall r :: r in since.sessions ==> r in now.sessions)
    && forall r :: r in now.sessions && r !in since.sessions ==> Carries(now.sessions[r], id, proof)
  }

  lemma {:induction false} LateReadersCarry(w: World, actions: seq<Action>, n: nat, m: nat, id: string, proof: Proof)
    requires IsInitial(w) && n <= m <= |actions|
    requires IsKept(w, actions, n, m, id, proof)
    ensures NewcomersCarry(Execute(w, actions[..n]), Execute(w, actions[..m]), id, proof)
    decreases m
  {
    if n < m {
      LateReadersCarry(w, actions, n, m - 1, id, proof);
      assert HasProof(Execute(w, actions[..m - 1]), id, proof);
      InitialHolds(w);
      EveryScheduleHolds(w, actions[..m - 1]);
      LastStep(w, actions, m);
      NewcomersStepOn(Execute(w, actions[..n]), Execute(w, actions[..m - 1]), actions[m - 1], id, proof);
    }
  }

  /** A step moves one session, if any, and starts it if need be. */
  lemma StepMovesOneSession(w: World, a: Action)
    ensures forall r :: r in w.sessions ==> r in Step(w, a).sessions
    ensures forall r :: r in Step(w, a).sessions && (a.Mine? || r != a.r)
              ==> r in w.sessions && Step(w, a).sessions[r] == w.sessions[r]
  {
  }

  lemma CreatorIsElsewhere(w: World, r: nat, request: OrderRequest, now: int, freshId: string, id: string)
    requires id in w.store.records && IsNewId(w, freshId)
    ensures var session := Created(w, r, request, now, freshId).sessions[r];
            session.Creating? ==> session.created.order.orderId != id
    ensures var session := Created(w, r, request, now, freshId).sessions[r]; session.Creating? || session == Over
  {
    hide Matches;
  }

  lemma ReaderCarries(w: World, a: Action, id: string, proof: Proof)
    requires Holds(w) && HasProof(w, id, proof) && (a.BeginSubmit? || a.BeginAsk?) && a.r !in w.sessions
    ensures a.r in Step(w, a).sessions && Carries(Step(w, a).sessions[a.r], id, proof)
  {
    assert forall other :: other in w.store.records ==> w.store.records[other].order.orderId == other;
    hide Holds;
  }

  lemma OngoingCarries(w: World, a: Action, id: string, proof: Proof)
    requires (a.Look? || a.Write?) && a.r in w.sessions && Carries(w.sessions[a.r], id, proof)
    ensures a.r in Step(w, a).sessions && Carries(Step(w, a).sessions[a.r], id, proof)
  {
    hide Found, PutContext;
  }

  lemma NewcomerCarries(w: World, a: Action, id: string, proof: Proof)
    requires Holds(w) && HasProof(w, id, proof) && !a.Mine? && a.r in Step(w, a).sessions
    requires a.r in w.sessions ==> Carries(w.sessions[a.r], id, proof)
    ensures Carries(Step(w, a).sessions[a.r], id, proof)
  {
    if a.Look? || a.Write? {
      if a.r in w.sessions { OngoingCarries(w, a, id, proof); }
    } else if a.r !in w.sessions {
      if a.BeginCreate? {
        CreatorIsElsewhere(w, a.r, a.request, a.now, a.freshId, id);
      } else {
        ReaderCarries(w, a, id, proof);
      }
    }
  }

  lemma NewcomersStepOn(since: World, now: World, a: Action, id: string, proof: Proof)
    requires Holds(now) && HasProof(now, id, proof) && NewcomersCarry(since, now, id, proof)
    ensures NewcomersCarry(since, Step(now, a), id, proof)
  {
    StepMovesOneSession(now, a);
    hide Holds, HasProof, Step, Carries;
    if !a.Mine? && a.r in Step(now, a).sessions && a.r !in since.sessions {
      NewcomerCarries(now, a, id, proof);
    }
  }

  lemma OnlyWritesChangeTheStore(w: World, a: Action)
    ensures Step(w, a).store == if !a.Write? || Pending(At(w, a.r)).None? then w.store
                                else
                                  var result := PutContext(w.store, Pending(At(w, a.r)).value);
                                  if result.Ok? then result.value else w.store
  {
  }

  /** A write about the order decides what proof it has. */
  lemma WriteDecides(w: World, r: nat, id: string, proof: Proof)
    requires Holds(w) && HasProof(w, id, proof) && Pending(At(w, r)).Some?
    ensures var context := Pending(At(w, r)).value;
            HasProof(Step(w, Write(r)), id, proof) <==> (context.order.orderId == id ==> context.proof == Some(proof))
  {
    OnlyWritesChangeTheStore(w, Write(r));
    assert SessionHolds(w, w.sessions[r]);
    hide Step;
    var context := Pending(At(w, r)).value;
    if context.order.orderId == id {
      assert !At(w, r).Creating?;
      PendingHolds(w, At(w, r));
      WriteBackHolds(w, context);
    }
  }

  lemma OneStepKeepsExactlyWhen(since: World, now: World, a: Action, id: string, proof: Proof)
    requires Holds(now) && HasProof(now, id, proof) && NewcomersCarry(since, now, id, proof)
    ensures HasProof(Step(now, a), id, proof) <==> !Overwrites(since, now, a, id, proof)
  {
    OnlyWritesChangeTheStore(now, a);
    hide Holds, Step, PutContext;
    if a.Write? && Pending(At(now, a.r)).Some? {
      WriteDecides(now, a.r, id, proof);
    }
  }

  // ---------------------------------------------------------------- calls that do not overlap

  lemma ExecuteOneMore(w: World, actions: seq<Action>, a: Action)
    ensures Execute(w, actions + [a]) == Step(Execute(w, actions), a)
  {
  }

  /** What a submission by itself does to the store. */
  lemma SubmissionAlone(w: World, r: nat, orderId: string, hash: string)
    requires Holds(w) && r !in w.sessions && orderId in w.store.records
    ensures var context, after := w.store.records[orderId], Step(Step(w, BeginSubmit(r, orderId, hash)), Write(r));
            && after == Put(w, r, Over).(store := after.store)
            && after.store == if context.proof.Some? && context.submitted != Some(hash) then w.store
                              else Contexts(w.store.records[orderId := context.(submitted := Some(hash))], w.store.ids)
  {
    var context, between := w.store.records[orderId], Step(w, BeginSubmit(r, orderId, hash));
    assert ContextHolds(w, context);
    if context.proof.Some? && context.submitted != Some(hash) {
      assert between == Put(w, r, Over);
    } else {
      assert between == Put(w, r, Submitting(context, hash));
      assert between.sessions[r := Over] == w.sessions[r := Over];
      assert w.store.ids[context.order.dappOrderId := orderId] == w.store.ids;
    }
  }

  /** What a query by itself does to the store, whether it is for the status or for
      the proof. */
  lemma QueryAlone(w: World, r: nat, orderId: string)
    requires Holds(w) && r !in w.sessions && orderId in w.store.records
    ensures var context, after := w.store.records[orderId], Step(Step(Step(w, BeginAsk(r, orderId)), Look(r)), Write(r));
            && after.sessions == w.sessions[r := Over] && after.chain == w.chain
            && after.store == Contexts(w.store.records[orderId := Checked(context, ReceiptOf(w, context))], w.store.ids)
            && (after.store.records[orderId].proof.Some? ==> after.store.records[orderId].proof.value in after.proofs)
  {
    var context := w.store.records[orderId];
    assert ContextHolds(w, context);
    var asked := Step(w, BeginAsk(r, orderId));
    if context.proof.Some? {
      assert asked == Answered(Put(w, r, Over), context.order, context.proof.value);
      assert Step(Step(asked, Look(r)), Write(r)) == asked;
      assert w.store.records[orderId := context] == w.store.records;
    } else {
      assert asked == Put(w, r, Asking(context));
      CheckedIsFound(w, context);
      hide Step, Found, Checked;
      if Found(w, context).None? {
        FoundNothing(w, r, context);
        assert w.store.records[orderId := context] == w.store.records;
      } else {
        FoundPayment(w, r, context);
      }
    }
  }

  /** The receipt of the submitted hash, if it is mined. */
  function ReceiptOf(w: World, context: Context): Option<Receipt> {
    if context.submitted.None? || KeyOf(context.order, context.submitted.value) !in w.chain then None
    else Some(w.chain[KeyOf(context.order, context.submitted.value)])
  }

  /** Looking for a payment and checking the context against the receipt agree. */
  lemma CheckedIsFound(w: World, context: Context)
    requires context.proof.None?
    ensures Checked(context, ReceiptOf(w, context))
            == if Found(w, context).None? then context
               else context.(order := context.order.(status := PaymentConfirmed), proof := Found(w, context))
  {
  }

  lemma FoundNothing(w: World, r: nat, context: Context)
    requires r !in w.sessions && context.order.orderId in w.store.records
    requires w.store.records[context.order.orderId] == context && Found(w, context).None?
    ensures var asked := Put(w, r, Asking(context)); Step(Step(asked, Look(r)), Write(r)) == Put(w, r, Over)
  {
    var asked := Put(w, r, Asking(context));
    assert Found(asked, context) == Found(w, context);
    hide Found;
    assert Step(asked, Look(r)) == Put(asked, r, Over);
    assert asked.sessions[r := Over] == w.sessions[r := Over];
  }

  lemma FoundPayment(w: World, r: nat, context: Context)
    requires IsConsistent(w.store) && r !in w.sessions && context.order.orderId in w.store.records
    requires w.store.records[context.order.orderId] == context && Found(w, context).Some?
    ensures var id, asked := context.order.orderId, Put(w, r, Asking(context));
            var after := Step(Step(asked, Look(r)), Write(r));
            var confirmed := context.(order := context.order.(status := PaymentConfirmed), proof := Found(w, context));
            && after.sessions == w.sessions[r := Over] && after.chain == w.chain
            && after.store == Contexts(w.store.records[id := confirmed], w.store.ids)
            && Found(w, context).value in after.proofs
  {
    var asked, found := Put(w, r, Asking(context)), Found(w, context);
    assert Found(asked, context) == found;
    hide Found;
    var looked := Step(asked, Look(r));
    assert looked == Put(asked, r, Confirming(context, found.value));
    assert looked.sessions[r := Over] == w.sessions[r := Over];
    assert w.store.ids[context.order.dappOrderId := context.order.orderId] == w.store.ids;
  }

  /** What a creation by itself does: a new order is stored as the request and the
      capability say, a repeated one changes nothing. */
  lemma CreationAlone(w: World, r: nat, request: OrderRequest, now: int, freshId: string)
    requires Holds(w) && r !in w.sessions && IsNewId(w, freshId)
    ensures var after := Step(Step(w, BeginCreate(r, request, now, freshId)), Write(r));
            var created := NewContext(request, w.chainId, w.orderTtlSeconds, now, freshId);
            && after.sessions == w.sessions[r := Over] && after.chain == w.chain
            && if ByDappOrderId(w.store, request.dappOrderId).Some? || created.Err? then after.store == w.store
               else PutContext(w.store, created.value) == Ok(after.store) && (freshId, request) in after.accepted
  {
    var created := NewContext(request, w.chainId, w.orderTtlSeconds, now, freshId);
    var between := Step(w, BeginCreate(r, request, now, freshId));
    if ByDappOrderId(w.store, request.dappOrderId).Some? || created.Err? {
      assert At(between, r) == Over && between.sessions == w.sessions[r := Over];
    } else {
      assert between == Put(w, r, Creating(request, created.value));
      assert between.sessions[r := Over] == w.sessions[r := Over];
      assert PutContext(w.store, created.value).Ok?;
    }
  }

  // ---------------------------------------------------------------- a proof that is lost

  /** A receipt that pays the order and nothing else. */
  function Paying(order: Order, hash: string): Receipt
    requires IsNumeral(order.amount)
  {
    Receipt(order.chainId, hash, true,
            [Log(order.token, Some(Transfer(order.payer, order.payTo, ValueOf(order.amount))), 0)])
  }

  /** An order is created, paid and submitted. */
  function Sale(request: OrderRequest, now: int, id: string, hash: string, receipt: Receipt): seq<Action> {
    [BeginCreate(0, request, now, id)] + [Write(0)] + [BeginSubmit(1, id, hash)] + [Write(1)] + [Mine(receipt)]
  }

  /** It is asked about, and a second hash is submitted between the query's read
      and its write. */
  function Race(id: string, other: string): seq<Action> {
    [BeginAsk(2, id)] + [BeginSubmit(3, id, other)] + [Look(2)] + [Write(2)]
  }

  lemma ExecuteSale(w: World, request: OrderRequest, now: int, id: string, hash: string, receipt: Receipt)
    ensures var created := Step(Step(w, BeginCreate(0, request, now, id)), Write(0));
            Execute(w, Sale(request, now, id, hash, receipt))
            == Step(Step(Step(created, BeginSubmit(1, id, hash)), Write(1)), Mine(receipt))
  {
    hide Step;
    var one := [BeginCreate(0, request, now, id)];
    var two := one + [Write(0)];
    var three := two + [BeginSubmit(1, id, hash)];
    var four := three + [Write(1)];
    assert [] + one == one && Execute(w, []) == w;
    ExecuteOneMore(w, [], one[0]);
    ExecuteOneMore(w, one, Write(0));
    hide Execute;
    ExecuteOneMore(w, two, BeginSubmit(1, id, hash));
    ExecuteOneMore(w, three, Write(1));
    ExecuteOneMore(w, four, Mine(receipt));
  }

  lemma FirstOrder(w: World, request: OrderRequest, now: int, id: string)
    requires IsInitial(w) && NewContext(request, w.chainId, w.orderTtlSeconds, now, id).Ok?
    ensures var context := NewContext(request, w.chainId, w.orderTtlSeconds, now, id).value;
            var created := Step(Step(w, BeginCreate(0, request, now, id)), Write(0));
            && created.sessions == map[0 := Over] && created.chain == map[] && Holds(created)
            && id in created.store.records && created.store.records[id] == context && context.order.orderId == id
  {
    InitialHolds(w);
    StepHolds(w, BeginCreate(0, request, now, id));
    StepHolds(Step(w, BeginCreate(0, request, now, id)), Write(0));
    hide Holds, Step;
    CreationAlone(w, 0, request, now, id);
  }

  lemma FirstSubmission(w: World, context: Context, hash: string, receipt: Receipt)
    requires Holds(w) && w.sessions == map[0 := Over] && w.chain == map[] && context.proof.None?
    requires context.order.orderId in w.store.records && w.store.records[context.order.orderId] == context
    requires receipt.chainId == context.order.chainId && receipt.hash == hash
    ensures var id := context.order.orderId;
            var after := Step(Step(Step(w, BeginSubmit(1, id, hash)), Write(1)), Mine(receipt));
            && after.sessions == map[0 := Over, 1 := Over] && after.chain == map[KeyOf(context.order, hash) := receipt]
            && id in after.store.records && after.store.records[id] == context.(submitted := Some(hash))
  {
    SubmissionAlone(w, 1, context.order.orderId, hash);
    assert w.sessions[1 := Over] == map[0 := Over, 1 := Over];
  }

  lemma SaleSells(w: World, request: OrderRequest, now: int, id: string, hash: string)
    requires IsInitial(w) && NewContext(request, w.chainId, w.orderTtlSeconds, now, id).Ok?
    ensures var context := NewContext(request, w.chainId, w.orderTtlSeconds, now, id).value;
            var receipt := Paying(context.order, hash);
            var after := Execute(w, Sale(request, now, id, hash, receipt));
            && after.sessions == map[0 := Over, 1 := Over] && after.chain == map[KeyOf(context.order, hash) := receipt]
            && id in after.store.records && after.store.records[id] == context.(submitted := Some(hash))
            && Holds(after)
  {
    var context := NewContext(request, w.chainId, w.orderTtlSeconds, now, id).value;
    var receipt := Paying(context.order, hash);
    InitialHolds(w);
    EveryScheduleHolds(w, Sale(request, now, id, hash, receipt));
    hide Holds, Execute, Step, IsInitial;
    ExecuteSale(w, request, now, id, hash, receipt);
    FirstOrder(w, request, now, id);
    FirstSubmission(Step(Step(w, BeginCreate(0, request, now, id)), Write(0)), context, hash, receipt);
  }

  /** It does happen, from the empty store: the second submission had read the order
      before the confirmation, and its write leaves the paid order without a proof. */
  lemma RacingSubmissionDropsProof(w: World, request: OrderRequest, now: int, id: string, hash: string, other: string)
    requires IsInitial(w) && NewContext(request, w.chainId, w.orderTtlSeconds, now, id).Ok? && request.payer.AddressText?
    ensures var order := NewContext(request, w.chainId, w.orderTtlSeconds, now, id).value.order;
            var actions := Sale(request, now, id, hash, Paying(order, hash)) + Race(id, other);
            var proof := Proof(id, hash, 0, order.payer, order.payTo, order.amount, order.chainId);
            var confirmed, after := Execute(w, actions), Execute(w, actions + [Write(3)]);
            && HasProof(confirmed, id, proof) && proof in confirmed.proofs
            && id in after.store.records && after.store.records[id].proof.None?
  {
    var order := NewContext(request, w.chainId, w.orderTtlSeconds, now, id).value.order;
    var sale := Sale(request, now, id, hash, Paying(order, hash));
    SaleSells(w, request, now, id, hash);
    ExecuteRace(w, sale, id, other);
    RaceDropsProof(Execute(w, sale), id, hash, other);
  }

  lemma ExecuteRace(w: World, sale: seq<Action>, id: string, other: string)
    ensures Execute(w, sale + Race(id, other))
            == Step(Step(Step(Step(Execute(w, sale), BeginAsk(2, id)), BeginSubmit(3, id, other)), Look(2)), Write(2))
    ensures Execute(w, sale + Race(id, other) + [Write(3)]) == Step(Execute(w, sale + Race(id, other)), Write(3))
  {
    hide Execute, Step;
    var one := sale + [BeginAsk(2, id)];
    var two := one + [BeginSubmit(3, id, other)];
    var three := two + [Look(2)];
    ExecuteOneMore(w, sale, BeginAsk(2, id));
    ExecuteOneMore(w, one, BeginSubmit(3, id, other));
    ExecuteOneMore(w, two, Look(2));
    ExecuteOneMore(w, three, Write(2));
    assert sale + Race(id, other) == three + [Write(2)];
    ExecuteOneMore(w, sale + Race(id, other), Write(3));
  }

  lemma RaceDropsProof(w: World, id: string, hash: string, other: string)
    requires Holds(w) && w.sessions == map[0 := Over, 1 := Over] && id in w.store.records
    requires var context := w.store.records[id];
             && context.submitted == Some(hash) && context.proof.None? && Found(w, context).Some?
    ensures var asked := Step(Step(w, BeginAsk(2, id)), BeginSubmit(3, id, other));
            var confirmed := Step(Step(asked, Look(2)), Write(2));
            var proof := Found(w, w.store.records[id]).value;
            && HasProof(confirmed, id, proof) && proof in confirmed.proofs
            && id in Step(confirmed, Write(3)).store.records && Step(confirmed, Write(3)).store.records[id].proof.None?
  {
    var context := w.store.records[id];
    assert ContextHolds(w, context);
    var proof := Found(w, context).value;
    var asked := Step(Step(w, BeginAsk(2, id)), BeginSubmit(3, id, other));
    assert asked == Put(Put(w, 2, Asking(context)), 3, Submitting(context, other));
    assert Found(asked, context) == Found(w, context);
    hide Found, Holds, ContextHolds;
    var looked := Step(asked, Look(2));
    assert looked == Put(asked, 2, Confirming(context, proof));
    LateWriteDropsProof(looked, context, proof, other);
  }

  lemma LateWriteDropsProof(w: World, context: Context, proof: Proof, other: string)
    requires At(w, 2) == Confirming(context, proof) && At(w, 3) == Submitting(context, other) && context.proof.None?
    requires IsConsistent(w.store) && context.order.orderId in w.store.records
    requires w.store.records[context.order.orderId] == context
    ensures var id, confirmed := context.order.orderId, Step(w, Write(2));
            && HasProof(confirmed, id, proof) && proof in confirmed.proofs
            && id in Step(confirmed, Write(3)).store.records && Step(confirmed, Write(3)).store.records[id].proof.None?
  {
    var confirmed := Step(w, Write(2));
    assert At(confirmed, 3) == Submitting(context, other);
    assert Pending(At(confirmed, 3)) == Some(context.(submitted := Some(other)));
    assert PutContext(confirmed.store, context.(submitted := Some(other))).Ok?;
  }
}
