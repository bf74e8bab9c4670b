/** Turning verified customer payments into funded runs, and closing out the runs
    whose payment window has passed. */
module Reconciler {
  import opened Decimal
  import opened RunDomain
  import opened RunStore
  import opened RunSystem
  import opened RunSystemProofs
  import opened Wrappers
  import V = SettlementVerifier

  datatype Outcome =
    | Reconciled(payment: Payment)
    | AlreadyFunded(recorded: Payment)
    | MissingPayment
    | NotAwaitingPayment
    | NotReady
    | OrderExpired
    | ReceiptPending
    | Rejected(codes: seq<V.FailureCode>)
    | TransitionRefused
    | NotCommitted(error: StoreError)

  /** The receipt row a proof turns into. Hashes are stored as bytes, so in one
      spelling; `proofHash` is the hash of chain, transaction, log and order. */
  function PaymentOf(proof: V.Proof, proofHash: string): Payment
    requires IsNumeral(proof.amount)
  {
    Payment(proof.chainId, V.Lower(proof.hash), proof.logIndex, ValueOf(proof.amount), proofHash)
  }

  predicate IsPaid(order: V.Order) {
    order.status == V.PaymentConfirmed || order.status == V.Invoiced
  }

  /** A run is funded by this call only if the receipt shows the quoted amount going
      to the merchant, and always if it does and nothing stands in the way. */
  method Reconcile(store: PostgresStore, fundable: Fundable, order: V.Order, proof: V.Proof, receipt: Option<V.Receipt>,
                   expected: V.Expectation, keccak: string -> string, now: int)
    returns (outcome: Outcome)
    requires DbHolds(store.View()) && IsFundableSnapshot(store.View(), fundable) && IsNumeral(expected.amount)
    modifies store
    ensures DbHolds(store.View())
    ensures outcome.Reconciled? ==>
              && receipt.Some? && V.Verifies(order, proof, receipt.value, expected)
              && fundable.run.id in store.runs && store.runs[fundable.run.id].status == Funded
              && fundable.run.id in store.receipts && store.receipts[fundable.run.id] == outcome.payment
              && outcome.payment.amount == ValueOf(expected.amount) > 0
              && outcome.payment.proofHash == keccak(V.ProofMaterial(proof, expected))
              && outcome.payment.chainId == expected.chainId && outcome.payment.logIndex == proof.logIndex
              && V.IsSameButForCase(outcome.payment.transactionHash, proof.hash)
    ensures !outcome.Reconciled? ==> store.View() == old(store.View())
    ensures outcome.AlreadyFunded? <==> IsAcknowledgeable(fundable)
    ensures outcome.OrderExpired? || outcome.NotReady? <==>
              fundable.run.status == PaymentRequired && order.status !in {V.PaymentConfirmed, V.Invoiced}
    ensures outcome.OrderExpired? ==> order.expiresAt <= now
    ensures outcome.NotReady? ==> now < order.expiresAt
    ensures outcome.ReceiptPending? <==>
              fundable.run.status == PaymentRequired && order.status in {V.PaymentConfirmed, V.Invoiced} && receipt.None?
    ensures outcome.Rejected? ==>
              && outcome.codes != [] && receipt.Some?
              && V.IsInOrder(outcome.codes)
              && forall code :: code in outcome.codes <==> V.Fails(code, order, proof, receipt.value, expected)
    ensures (fundable.run.status == PaymentRequired && order.status in {V.PaymentConfirmed, V.Invoiced} && receipt.Some?
             && V.Verifies(order, proof, receipt.value, expected)
             && IsFresh(old(store.View()), fundable.run, proof, keccak(V.ProofMaterial(proof, expected)), now))
            ==> outcome.Reconciled?
  {
    if fundable.run.status == Funded && fundable.proofHash.Some? {
      if fundable.payment.Some? && fundable.payment.value.proofHash == fundable.proofHash.value {
        return AlreadyFunded(fundable.payment.value);
      }
      return MissingPayment;
    }
    if fundable.run.status != PaymentRequired { return NotAwaitingPayment; }
    if !IsPaid(order) {
      return if now >= order.expiresAt then OrderExpired else NotReady;
    }
    if receipt.None? { return ReceiptPending; }
    var failures, material := V.VerifySettlement(order, proof, receipt.value, expected);
    if failures != [] { return Rejected(failures); }
    assert !V.Fails(V.AmountMismatch, order, proof, receipt.value, expected);
    assert !V.Fails(V.ChainMismatch, order, proof, receipt.value, expected);
    LowerIsSameButForCase(proof.hash);
    outcome := CommitPayment(store, fundable.run, PaymentOf(proof, keccak(material)), now);
  }

  /** Nothing happened to the run since it was loaded, and the transfer is new. */
  predicate IsFresh(db: Db, run: Run, proof: V.Proof, proofHash: string, now: int)
    requires Known(db, run.id)
  {
    && IsNumeral(proof.amount) && ValueOf(proof.amount) > 0
    && run.revision == db.runs[run.id].revision && run.updatedAt <= now
    && IsNewPayment(db, run.id, PaymentOf(proof, proofHash))
  }

  lemma LowerIsSameButForCase(text: string)
    ensures V.IsSameButForCase(V.Lower(text), text)
  {
  }

  method CommitPayment(store: PostgresStore, run: Run, payment: Payment, now: int) returns (outcome: Outcome)
    requires DbHolds(store.View()) && IsSnapshot(store.View(), run) && run.status == PaymentRequired
    modifies store
    ensures DbHolds(store.View())
    ensures outcome.Reconciled? ==>
              && outcome.payment == payment && payment.amount > 0
              && run.id in store.runs && store.runs[run.id].status == Funded
              && run.id in store.receipts && store.receipts[run.id] == payment
    ensures !outcome.Reconciled? ==> store.View() == old(store.View())
    ensures outcome.Reconciled? || outcome.TransitionRefused? || outcome.NotCommitted?
    ensures (payment.amount > 0 && run.revision == old(store.runs)[run.id].revision && run.updatedAt <= now
             && IsNewPayment(old(store.View()), run.id, payment)) ==> outcome.Reconciled?
  {
    ghost var db := store.View();
    PaymentIsNoReplay(db, run, payment);
    var decided := TransitionRun(run, PaymentCommand(run, payment, now));
    if decided.Err? || decided.value.event.None? { return TransitionRefused; }
    FundsExactlyWhen(db, run, payment, now, decided.value.run, decided.value.event.value);
    var committed := store.CommitFundedRun(run.revision, decided.value.run, decided.value.event.value, payment);
    if committed.Err? { return NotCommitted(committed.error); }
    FundHolds(db, run, payment, now, decided.value.run, decided.value.event.value, store.View());
    SnapshotIsCurrent(db, run);
    return Reconciled(payment);
  }

  // ---------------------------------------------------------------- closing out unpaid runs

  /** The rows after expiring a snapshot, and whether anything was done; None when
      an error is raised. */
  function Expiring(db: Db, run: Run, key: string, now: int): Option<(Db, bool)> {
    var decided := TransitionRun(run, ExpireCommand(run, key, now));
    if decided.Err? then None
    else if decided.value.event.None? then Some((db, false))
    else
      var committed := CommitExpiredResult(db, run.revision, decided.value.run, decided.value.event.value);
      if committed.Err? then None else Some((committed.value, true))
  }

  method Expire(store: PostgresStore, run: Run, key: string, now: int) returns (expired: Option<bool>)
    modifies store
    ensures var result := Expiring(old(store.View()), run, key, now);
            if result.None? then expired.None? && store.View() == old(store.View())
            else expired == Some(result.value.1) && store.View() == result.value.0
  {
    var decided := TransitionRun(run, ExpireCommand(run, key, now));
    if decided.Err? { return None; }
    if decided.value.event.None? { return Some(false); }
    var committed := store.CommitExpiredRun(run.revision, decided.value.run, decided.value.event.value);
    return if committed.Err? then None else Some(true);
  }

  /** Closes out a run whose order expired. It acts only on a run that was still
      unpaid when loaded, and then exactly if it has not moved since. */
  method ExpireRun(store: PostgresStore, fundable: Option<Fundable>, orderId: string, now: int)
    returns (expired: Option<bool>)
    requires DbHolds(store.View()) && IsOrderId(orderId)
    requires fundable.Some? ==> IsFundableSnapshot(store.View(), fundable.value)
    modifies store
    ensures DbHolds(store.View())
    ensures expired == Some(true) <==>
              && fundable.Some? && fundable.value.run.status == PaymentRequired
              && fundable.value.run.revision == old(store.runs)[fundable.value.run.id].revision
    ensures expired == Some(false) <==> fundable.None? || fundable.value.run.status != PaymentRequired
    ensures expired == Some(true) ==>
              fundable.value.run.id in store.runs && store.runs[fundable.value.run.id].status == Expired
    ensures expired != Some(true) ==> store.View() == old(store.View())
  {
    if fundable.None? || fundable.value.run.status != PaymentRequired { return Some(false); }
    ghost var db, run, key := store.View(), fundable.value.run, OrderExpiredKey(orderId);
    ghost var decided := TransitionRun(run, ExpireCommand(run, key, now));
    ExpiryKeysAreExpiryKeys(orderId, "");
    ExpiryIsNoReplay(db, run, key);
    ExpiryKeyFits(run.id, key);
    ExpireHolds(db, run, ExpireCommand(run, key, now), decided.value.run, decided.value.event.value);
    expired := Expire(store, fundable.value.run, OrderExpiredKey(orderId), now);
  }

  /** A run past its deadline, as the query returned it some time ago. */
  datatype Candidate = Candidate(run: Run, deadline: string)

  /** What a sweep did: the rows after it, the runs it reports, and whether it got
      to the end of its list. */
  datatype Sweep = Sweep(db: Db, expired: seq<string>, finished: bool)

  function Swept(db: Db, candidates: seq<Candidate>, now: int): Sweep {
    if candidates == [] then Sweep(db, [], true)
    else
      SweptOneMore(Swept(db, candidates[..|candidates| - 1], now), candidates[|candidates| - 1], now)
  }

  function SweptOneMore(before: Sweep, c: Candidate, now: int): Sweep {
    if !before.finished then before
    else
      var result := Expiring(before.db, c.run, DeadlineKey(c.deadline), now);
      if result.None? then before.(finished := false)
      else Sweep(result.value.0, if result.value.1 then before.expired + [c.run.id] else before.expired, true)
  }

  /** None is the error that a commit raises: it ends the sweep. */
  method SweepExpiredRuns(store: PostgresStore, candidates: seq<Candidate>, now: int)
    returns (expired: Option<seq<string>>)
    modifies store
    ensures var sweep := Swept(old(store.View()), candidates, now);
            && store.View() == sweep.db
            && expired == if sweep.finished then Some(sweep.expired) else None
  {
    var ids: seq<string> := [];
    ghost var db := store.View();
    for k := 0 to |candidates|
      invariant Swept(db, candidates[..k], now) == Sweep(store.View(), ids, true)
    {
      assert candidates[..k + 1][..k] == candidates[..k];
      StopsForGood(db, candidates, now, k + 1);
      hide Expiring;
      var moved := Expire(store, candidates[k].run, DeadlineKey(candidates[k].deadline), now);
      if moved.None? { return None; }
      if moved.value {
        ids := ids + [candidates[k].run.id];
      }
    }
    assert candidates[..|candidates|] == candidates;
    return Some(ids);
  }

  lemma {:induction false} StopsForGood(db: Db, candidates: seq<Candidate>, now: int, n: nat)
    requires n <= |candidates|
    ensures !Swept(db, candidates[..n], now).finished ==> Swept(db, candidates, now) == Swept(db, candidates[..n], now)
    decreases |candidates|
  {
    if n < |candidates| {
      var init := candidates[..|candidates| - 1];
      StopsForGood(db, init, now, n);
      assert init[..n] == candidates[..n];
    } else {
      assert candidates[..n] == candidates;
    }
  }

  /** What the query returns: distinct unpaid runs as they were at some moment. */
  ghost predicate AreCandidates(db: Db, candidates: seq<Candidate>) {
    && (forall k :: 0 <= k < |candidates| ==> IsCandidate(db, candidates[k]))
    && (forall k, l :: 0 <= k < l < |candidates| ==> candidates[k].run.id != candidates[l].run.id)
  }

  ghost predicate IsCandidate(db: Db, c: Candidate) {
    && IsSnapshot(db, c.run)
    && c.run.status in {Draft, Quoted, PaymentRequired}
    && IsDeadline(c.deadline)
  }

  predicate IsUnmoved(db: Db, c: Candidate) {
    Known(db, c.run.id) && c.run.revision == db.runs[c.run.id].revision
  }

  /** How many candidates come before the first that moved since the query. */
  function Unmoved(db: Db, candidates: seq<Candidate>): (n: nat)
    ensures n <= |candidates|
  {
    if candidates == [] then 0
    else
      var n := Unmoved(db, candidates[..|candidates| - 1]);
      if n == |candidates| - 1 && IsUnmoved(db, candidates[n]) then n + 1 else n
  }

  function Ids(candidates: seq<Candidate>): (ids: seq<string>)
    ensures |ids| == |candidates| && forall k :: 0 <= k < |ids| ==> ids[k] == candidates[k].run.id
  {
    seq(|candidates|, k requires 0 <= k < |candidates| => candidates[k].run.id)
  }

  predicate IsUntouched(before: Db, after: Db, id: string) {
    && (id in before.runs <==> id in after.runs) && (id in before.events <==> id in after.events)
    && (id in before.runs ==> after.runs[id] == before.runs[id])
    && (id in before.events ==> after.events[id] == before.events[id])
  }

  /** The first `n` candidates were expired, and nothing else was touched. */
  ghost predicate Expires(db: Db, sweep: Sweep, candidates: seq<Candidate>, n: nat)
    requires n <= |candidates|
  {
    && DbHolds(sweep.db)
    && sweep.expired == Ids(candidates[..n])
    && (sweep.finished <==> n == |candidates|)
    && (forall k :: 0 <= k < n ==> HasExpired(sweep.db, candidates[k].run.id))
    && (forall id :: id !in sweep.expired ==> IsUntouched(db, sweep.db, id))
  }

  predicate HasExpired(db: Db, id: string) {
    id in db.runs && db.runs[id].status == Expired
  }

  /** The sweep expires candidates in order up to the first that moved since the
      query, and there it stops with an error: that one is not forced, but those
      after it are not reached either. It finishes exactly when none has moved. */
  lemma {:induction false} SweepStopsAtFirstConflict(db: Db, candidates: seq<Candidate>, now: int)
    requires DbHolds(db) && AreCandidates(db, candidates)
    ensures Expires(db, Swept(db, candidates, now), candidates, Unmoved(db, candidates))
  {
    hide SweptOneMore, DbHolds, IsUnmoved;
    if candidates != [] {
      var m := |candidates| - 1;
      SweepStopsAtFirstConflict(db, candidates[..m], now);
      OneMoreCandidate(db, Swept(db, candidates[..m], now), candidates, now);
    }
  }

  lemma OneMoreCandidate(db: Db, before: Sweep, candidates: seq<Candidate>, now: int)
    requires DbHolds(db) && AreCandidates(db, candidates) && candidates != []
    requires var init := candidates[..|candidates| - 1]; Expires(db, before, init, Unmoved(db, init))
    ensures Expires(db, SweptOneMore(before, candidates[|candidates| - 1], now), candidates, Unmoved(db, candidates))
  {
    hide DbHolds, Expiring, IsCandidate, IsUnmoved, HasExpired;
    var m := |candidates| - 1;
    var init, last := candidates[..m], candidates[m];
    var n := Unmoved(db, init);
    assert candidates[..n] == init[..n];
    if n == m {
      assert init[..m] == init;
      assert last.run.id !in before.expired;
      CandidateExpires(db, before.db, last, now);
      if IsUnmoved(db, last) {
        AllUnmoved(db, before, SweptOneMore(before, last, now), candidates);
      }
    }
  }

  lemma AllUnmoved(db: Db, before: Sweep, after: Sweep, candidates: seq<Candidate>)
    requires candidates != [] && Expires(db, before, candidates[..|candidates| - 1], |candidates| - 1)
    requires DbHolds(after.db) && after.finished
    requires after.expired == before.expired + [candidates[|candidates| - 1].run.id]
    requires HasExpired(after.db, candidates[|candidates| - 1].run.id)
    requires forall id :: id != candidates[|candidates| - 1].run.id ==> IsUntouched(before.db, after.db, id)
    requires forall k :: 0 <= k < |candidates| - 1 ==> candidates[k].run.id != candidates[|candidates| - 1].run.id
    ensures Expires(db, after, candidates, |candidates|)
  {
    hide DbHolds;
    var m := |candidates| - 1;
    assert candidates[..m][..m] == candidates[..m] && candidates[..m + 1] == candidates;
    assert Ids(candidates) == Ids(candidates[..m]) + [candidates[m].run.id];
    forall k | 0 <= k < |candidates| ensures HasExpired(after.db, candidates[k].run.id) {
      if k < m {
        assert candidates[..m][k] == candidates[k];
        assert HasExpired(before.db, candidates[k].run.id);
        assert IsUntouched(before.db, after.db, candidates[k].run.id);
      }
    }
    forall id | id !in after.expired ensures IsUntouched(db, after.db, id) {
      assert after.expired[m] == candidates[m].run.id;
      assert id !in before.expired;
      assert IsUntouched(db, before.db, id) && IsUntouched(before.db, after.db, id);
    }
  }

  /** One candidate, on rows that other expiries changed but its own did not. */
  lemma CandidateExpires(db: Db, current: Db, c: Candidate, now: int)
    requires DbHolds(db) && DbHolds(current) && IsCandidate(db, c) && IsUntouched(db, current, c.run.id)
    ensures var result := Expiring(current, c.run, DeadlineKey(c.deadline), now);
            && (result.Some? <==> IsUnmoved(db, c))
            && (result.Some? ==>
                  && result.value.1
                  && DbHolds(result.value.0)
                  && HasExpired(result.value.0, c.run.id)
                  && (forall id :: id != c.run.id ==> IsUntouched(current, result.value.0, id)))
  {
    var key := DeadlineKey(c.deadline);
    assert IsSnapshot(current, c.run);
    ExpiryKeysAreExpiryKeys("", c.deadline);
    assert |key| >= 8;
    hide IsExpiryKey, IsSystemExpiryKey, DeadlineKey, DbHolds, IsSnapshot, KeyFits, Expiring, TransitionRun;
    ExpiryIsNoReplay(current, c.run, key);
    UnpaidCanExpire(c.run, key, now);
    ExpiryKeyFits(c.run.id, key);
    UnpaidExpires(current, c.run, key, now);
  }

  /** Expiring an unpaid run succeeds exactly while it has not moved, and touches no
      other run. */
  lemma UnpaidExpires(db: Db, run: Run, key: string, now: int)
    requires DbHolds(db) && IsSnapshot(db, run) && KeyFits(run.id, key, Expired)
    requires var decided := TransitionRun(run, ExpireCommand(run, key, now));
             && decided.Ok? && decided.value.event.Some?
             && decided.value.run.status == Expired && decided.value.event.value.runId == decided.value.run.id == run.id
    ensures var result := Expiring(db, run, key, now);
            && (result.Some? <==> run.revision == db.runs[run.id].revision)
            && (result.Some? ==>
                  && result.value.1 && DbHolds(result.value.0) && HasExpired(result.value.0, run.id)
                  && (forall id :: id != run.id ==> IsUntouched(db, result.value.0, id)))
  {
    var decided := TransitionRun(run, ExpireCommand(run, key, now)).value;
    hide DbHolds, TransitionRun, CommitExpiredResult, KeyFits, Fold;
    ExpireHolds(db, run, ExpireCommand(run, key, now), decided.run, decided.event.value);
    var committed := CommitExpiredResult(db, run.revision, decided.run, decided.event.value);
    if committed.Ok? {
      OthersUntouched(db, committed.value, run.id, decided.event.value);
      hide Appends;
      assert LoadRun(committed.value, run.id).status == Expired;
    }
  }

  /** The machine lets the system expire any unpaid run. */
  lemma UnpaidCanExpire(run: Run, key: string, now: int)
    requires run.status in {Draft, Quoted, PaymentRequired} && key !in run.appliedKeys && |key| >= 8
    ensures var decided := TransitionRun(run, ExpireCommand(run, key, now));
            && decided.Ok? && decided.value.event.Some?
            && decided.value.run.status == Expired && decided.value.run.id == run.id
            && decided.value.event.value.runId == run.id
  {
  }

  lemma OthersUntouched(before: Db, after: Db, id: string, e: Event)
    requires Appends(before, after, id, e) && id in before.runs
    ensures forall other :: other != id ==> IsUntouched(before, after, other)
  {
  }

  // ---------------------------------------------------------------- a sweep that meets a moved run

  /** A request that nobody made before is quoted. */
  lemma RunIsQuoted(s: Sys, id: string, clientKey: string, now: int)
    requires id !in s.db.runs && |id| > 0 && clientKey != ""
    requires forall other :: other in s.db.runs ==> s.db.runs[other].requestKey != clientKey
    ensures var after := Step(s, CreateRun(id, clientKey, now));
            && Known(after.db, id) && LoadRun(after.db, id) == Run(id, Quoted, None, 1, now, now, [QuotedKey(clientKey)])
            && after.db.runs[id].requestKey == clientKey
            && after.db.runs == s.db.runs[id := after.db.runs[id]]
            && after.db.events == s.db.events[id := after.db.events[id]]
  {
    assert QuotedKey(clientKey)[|clientKey|..] == ":quoted";
    var quoted := TransitionRun(DraftRun(id, now), QuotedCommand(clientKey, now));
    assert quoted.Ok? && quoted.value.event.Some?;
  }

  /** A quoted run that is loaded and saved on the way to payment moves. */
  lemma RunIsMoved(s: Sys, session: nat, id: string, orderId: string, now: int)
    requires Holds(s) && Known(s.db, id) && s.db.runs[id].status == Quoted && s.db.runs[id].updatedAt <= now
    requires CallerKey(id, Gateway(orderId)) !in LoadRun(s.db, id).appliedKeys
    ensures var after := Step(Step(s, Load(session, id)), SaveStep(session, Gateway(orderId), now)).db;
            && Known(after, id) && after.runs[id].revision == s.db.runs[id].revision + 1
            && forall other :: other != id && Known(s.db, other) ==> Known(after, other) && after.runs[other] == s.db.runs[other]
  {
    var run := LoadRun(s.db, id);
    var loaded, save := Step(s, Load(session, id)), SaveStep(session, Gateway(orderId), now);
    LoadIsSnapshot(s.db, id);
    GatewayCanAsk(run, orderId, now);
    assert loaded == s.(held := s.held[session := run]);
    hide DbHolds, Step;
    SaveMoves(loaded, save, run);
    assert Step(loaded, save) == StepSave(loaded, save) by { StepIsSave(loaded, save); }
  }

  lemma StepIsSave(s: Sys, a: Action)
    requires a.SaveStep?
    ensures Step(s, a) == StepSave(s, a)
  {
  }

  lemma GatewayCanAsk(run: Run, orderId: string, now: int)
    requires run.status == Quoted && run.updatedAt <= now && CallerKey(run.id, Gateway(orderId)) !in run.appliedKeys
    ensures var decided := TransitionRun(run, CallerCommand(run, Gateway(orderId), now));
            && decided.Ok? && decided.value.event.Some?
            && decided.value.run.revision == run.revision + 1 && decided.value.run.id == run.id
  {
    assert |CallerKey(run.id, Gateway(orderId))| >= 8;
  }

  lemma SaveMoves(s: Sys, a: Action, run: Run)
    requires DbHolds(s.db) && a.SaveStep? && a.caller.Gateway? && a.session in s.held && s.held[a.session] == run
    requires IsSnapshot(s.db, run) && run.revision == s.db.runs[run.id].revision
    requires var decided := TransitionRun(run, CallerCommand(run, a.caller, a.now));
             && decided.Ok? && decided.value.event.Some?
             && decided.value.run.revision == run.revision + 1 && decided.value.run.id == run.id
    ensures var after := StepSave(s, a).db;
            && Known(after, run.id) && after.runs[run.id].revision == run.revision + 1
            && forall other :: other != run.id && Known(s.db, other) ==>
                 Known(after, other) && after.runs[other] == s.db.runs[other]
  {
    var command := CallerCommand(run, a.caller, a.now);
    var decided := TransitionRun(run, command);
    CallerKeyFits(run.id, a.caller);
    hide DbHolds, KeyFits, SaveResult, CallerKey, TransitionRun, IsSnapshot;
    SaveHolds(s.db, run, command, decided.value.run, decided.value.event.value);
  }

  /** Two requests, and the first run moved after the sweep's query. */
  function Requests(): seq<Action> { [CreateRun("run_1", "client_1", 0)] + [CreateRun("run_2", "client_2", 0)] }

  function Move(): seq<Action> { [Load(0, "run_1")] + [SaveStep(0, Gateway("order_1"), 1)] }

  lemma ExecuteOneMore(actions: seq<Action>, a: Action)
    ensures Execute(actions + [a]) == Step(Execute(actions), a)
  {
  }

  /** Requests with different ids and keys are both quoted. */
  lemma TwoAreQuoted(id: string, clientKey: string, other: string, otherKey: string)
    requires |id| > 0 && |other| > 0 && id != other && clientKey != "" && otherKey != "" && clientKey != otherKey
    ensures var db := Step(Step(Initial, CreateRun(id, clientKey, 0)), CreateRun(other, otherKey, 0)).db;
            && Known(db, id) && LoadRun(db, id) == Run(id, Quoted, None, 1, 0, 0, [QuotedKey(clientKey)])
            && Known(db, other) && LoadRun(db, other) == Run(other, Quoted, None, 1, 0, 0, [QuotedKey(otherKey)])
  {
    var first := Step(Initial, CreateRun(id, clientKey, 0));
    hide Step, QuotedKey;
    RunIsQuoted(Initial, id, clientKey, 0);
    RunIsQuoted(first, other, otherKey, 0);
  }

  lemma RequestsAreQuoted()
    ensures var db := Execute(Requests()).db;
            && Known(db, "run_1") && LoadRun(db, "run_1") == Run("run_1", Quoted, None, 1, 0, 0, [QuotedKey("client_1")])
            && Known(db, "run_2") && LoadRun(db, "run_2") == Run("run_2", Quoted, None, 1, 0, 0, [QuotedKey("client_2")])
  {
    var first := [CreateRun("run_1", "client_1", 0)];
    assert Execute([]) == Initial && [] + first == first;
    hide Step, Execute, QuotedKey, LoadRun;
    ExecuteOneMore([], first[0]);
    ExecuteOneMore(first, CreateRun("run_2", "client_2", 0));
    assert "run_1" != "run_2" by { assert "run_1"[4] == '1' && "run_2"[4] == '2'; }
    assert "client_1" != "client_2" by { assert "client_1"[7] == '1' && "client_2"[7] == '2'; }
    TwoAreQuoted("run_1", "client_1", "run_2", "client_2");
  }

  lemma MoveMoves()
    ensures var queried, db := Execute(Requests()).db, Execute(Requests() + Move()).db;
            && Known(queried, "run_1") && Known(queried, "run_2") && Known(db, "run_1") && Known(db, "run_2")
            && db.runs["run_1"].revision == 2 && db.runs["run_2"] == queried.runs["run_2"]
  {
    var loaded := Requests() + [Load(0, "run_1")];
    RequestsAreQuoted();
    EveryInterleavingHolds(Requests());
    assert CallerKey("run_1", Gateway("order_1")) != QuotedKey("client_1") by {
      assert CallerKey("run_1", Gateway("order_1"))[0] == 'p' && QuotedKey("client_1")[0] == 'c';
    }
    hide Step, Execute, Holds, CallerKey, QuotedKey;
    ExecuteOneMore(Requests(), Load(0, "run_1"));
    ExecuteOneMore(loaded, SaveStep(0, Gateway("order_1"), 1));
    assert Requests() + Move() == loaded + [SaveStep(0, Gateway("order_1"), 1)];
    RunIsMoved(Execute(Requests()), 0, "run_1", "order_1", 1);
  }

  /** What the query returned before the first run moved. */
  ghost function Queried(id: string, deadline: string): Candidate
    requires Known(Execute(Requests()).db, id)
  {
    Candidate(LoadRun(Execute(Requests()).db, id), deadline)
  }

  lemma QueriedIsCandidate(id: string, deadline: string)
    requires (id == "run_1" || id == "run_2") && IsDeadline(deadline)
    ensures Known(Execute(Requests()).db, id) && IsCandidate(Execute(Requests() + Move()).db, Queried(id, deadline))
  {
    var queried, db := Execute(Requests()).db, Execute(Requests() + Move()).db;
    RequestsAreQuoted();
    EveryInterleavingHolds(Requests());
    LoadIsSnapshot(queried, id);
    LaterGrows();
    hide Execute, DbHolds, Grows;
    SnapshotSurvives(queried, db, LoadRun(queried, id));
  }

  lemma LaterGrows()
    ensures Grows(Execute(Requests()).db, Execute(Requests() + Move()).db)
  {
    var loaded := Requests() + [Load(0, "run_1")];
    EveryInterleavingHolds(Requests());
    EveryInterleavingHolds(loaded);
    ExecuteOneMore(Requests(), Load(0, "run_1"));
    ExecuteOneMore(loaded, SaveStep(0, Gateway("order_1"), 1));
    assert Requests() + Move() == loaded + [SaveStep(0, Gateway("order_1"), 1)];
    hide Execute, Holds;
    SaveGrows(Execute(loaded), SaveStep(0, Gateway("order_1"), 1));
  }

  lemma SaveGrows(s: Sys, a: Action)
    requires a.SaveStep? && s.db.events.Keys == s.db.runs.Keys
    ensures Grows(s.db, Step(s, a).db)
  {
  }

  lemma FirstMovedMeansNone(db: Db, candidates: seq<Candidate>)
    requires |candidates| == 2 && !IsUnmoved(db, candidates[0])
    ensures Unmoved(db, candidates) == 0
  {
    hide IsUnmoved;
    assert candidates[..1][..0] == [] && Unmoved(db, []) == 0;
    assert Unmoved(db, candidates[..1]) == 0;
  }

  lemma FirstStopsTheSecond(db: Db, first: Candidate, second: Candidate, now: int)
    requires DbHolds(db) && IsCandidate(db, first) && IsCandidate(db, second) && first.run.id != second.run.id
    requires !IsUnmoved(db, first) && second.run.id in db.runs && db.runs[second.run.id].status == Quoted
    ensures var candidates := [first, second];
            && AreCandidates(db, candidates)
            && !Swept(db, candidates, now).finished && Swept(db, candidates, now).expired == []
            && !HasExpired(Swept(db, candidates, now).db, second.run.id)
  {
    var candidates := [first, second];
    hide DbHolds, IsCandidate, IsUnmoved, Swept;
    FirstMovedMeansNone(db, candidates);
    hide Unmoved;
    SweepStopsAtFirstConflict(db, candidates, now);
    assert IsUntouched(db, Swept(db, candidates, now).db, second.run.id);
  }

  lemma FirstHasMoved(deadline: string)
    ensures Known(Execute(Requests()).db, "run_1") && Known(Execute(Requests()).db, "run_2")
    ensures var db := Execute(Requests() + Move()).db;
            && !IsUnmoved(db, Queried("run_1", deadline)) && IsUnmoved(db, Queried("run_2", deadline))
            && "run_2" in db.runs && db.runs["run_2"].status == Quoted
  {
    RequestsAreQuoted();
    MoveMoves();
    hide Execute;
  }

  /** It does happen: the sweep stops at the first run, which moved, and the second,
      which did not, stays unpaid and unexpired. */
  lemma MovedCandidateStopsTheSweep(deadline: string, now: int)
    requires IsDeadline(deadline)
    ensures Known(Execute(Requests()).db, "run_1") && Known(Execute(Requests()).db, "run_2")
    ensures var db, candidates := Execute(Requests() + Move()).db, [Queried("run_1", deadline), Queried("run_2", deadline)];
            && DbHolds(db) && AreCandidates(db, candidates) && IsUnmoved(db, candidates[1])
            && !Swept(db, candidates, now).finished && Swept(db, candidates, now).expired == []
            && !HasExpired(Swept(db, candidates, now).db, "run_2")
  {
    FirstHasMoved(deadline);
    QueriedIsCandidate("run_1", deadline);
    QueriedIsCandidate("run_2", deadline);
    EveryInterleavingHolds(Requests() + Move());
    assert DbHolds(Execute(Requests() + Move()).db);
    assert "run_1" != "run_2" by { assert "run_1"[4] == '1' && "run_2"[4] == '2'; }
    hide Execute, DbHolds, Holds, IsCandidate, IsUnmoved, Swept, Unmoved, Requests, Move;
    FirstStopsTheSecond(Execute(Requests() + Move()).db, Queried("run_1", deadline), Queried("run_2", deadline), now);
  }
}
