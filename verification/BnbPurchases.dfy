/** Buying from a target on BNB Chain: one claim row per idempotency key decides
    who signs, and an authorized row is what every later call is answered with. */
module BnbPurchases {
  import opened Texts
  import opened Wrappers

  datatype Payment = Payment(receipt: string, proofHash: string, amount: nat)

  /** A claimed row reserves its ceiling; an authorized one holds what was signed. */
  datatype Purchase = ClaimedPurchase(ceiling: nat) | Authorized(payment: Payment)

  datatype PaymentQuote = PaymentQuote(amount: nat, asset: nat, permit2: bool)

  // ---------------------------------------------------------------- the store

  function AuthorizedRows(rows: map<string, Purchase>, key: string, payment: Payment): map<string, Purchase> {
    rows[key := Authorized(payment)]
  }

  function ReleasedRows(rows: map<string, Purchase>, key: string): map<string, Purchase> {
    if key in rows && rows[key].ClaimedPurchase? then map k | k in rows && k != key :: rows[k] else rows
  }

  class InMemoryBnbPurchaseStore {
    var records: map<string, Purchase>

    constructor ()
      ensures records == map[]
    {
      records := map[];
    }

    method Claim(key: string, ceiling: nat) returns (acquired: bool, kept: Purchase)
      modifies this
      ensures acquired <==> key !in old(records)
      ensures acquired ==> kept == ClaimedPurchase(ceiling) && records == old(records)[key := kept]
      ensures !acquired ==> kept == old(records)[key] && records == old(records)
    {
      if key in records { return false, records[key]; }
      records := records[key := ClaimedPurchase(ceiling)];
      return true, records[key];
    }

    method MarkAuthorized(key: string, payment: Payment) returns (authorized: Option<Purchase>)
      modifies this
      ensures key !in old(records) ==> authorized.None? && records == old(records)
      ensures key in old(records) ==>
                authorized == Some(Authorized(payment)) && records == AuthorizedRows(old(records), key, payment)
    {
      if key !in records { return None; }
      records := records[key := Authorized(payment)];
      return Some(records[key]);
    }

    method AbandonClaim(key: string)
      modifies this
      ensures key in records <==> key in old(records) && old(records)[key].Authorized?
      ensures forall other :: other != key ==> (other in records <==> other in old(records))
      ensures forall other :: other in records ==> records[other] == old(records)[other]
    {
      if key in records && records[key].ClaimedPurchase? {
        records := map k | k in records && k != key :: records[k];
      }
    }
  }

  // ---------------------------------------------------------------- overlapping calls

  datatype Call =
    | Claimed(key: string)
    | Quoted(key: string, quote: PaymentQuote)
    | Allowed(key: string, quote: PaymentQuote)
    | Signed(key: string, quote: PaymentQuote, payment: Payment)
    | Aborting(key: string)
    | Succeeded(key: string, payment: Payment)
    | Refused

  /** An authorization that exists from the moment it is signed, whether or not the
      call that signed it gets to report it. */
  datatype Signature = Signature(call: nat, key: string, amount: nat)

  /** `allowances` are the exact approvals granted on the way. */
  datatype Client = Client(
    maximum: nat,
    rows: map<string, Purchase>,
    calls: map<nat, Call>,
    signatures: seq<Signature>,
    allowances: seq<nat>)

  datatype Action =
    | Claim(c: nat, key: string)
    | ReadQuote(c: nat, quote: PaymentQuote)
    | Allow(c: nat)
    | Sign(c: nat, payment: Payment)
    | Mark(c: nat)
    | Fail(c: nat)
    | Abandon(c: nat)

  predicate IsInitial(b: Client) {
    b.rows == map[] && b.calls == map[] && b.signatures == [] && b.allowances == []
  }

  function At(b: Client, c: nat): Call {
    if c in b.calls then b.calls[c] else Refused
  }

  function Put(b: Client, c: nat, call: Call): Client {
    b.(calls := b.calls[c := call])
  }

  /** What the signer's answer must satisfy before it is stored. */
  predicate IsAcceptable(quote: PaymentQuote, payment: Payment) {
    payment.amount == quote.amount && payment.receipt != "" && IsHash(payment.proofHash)
  }

  /** Crashing is never acting again; an error between two awaits is `Fail`. */
  function Step(b: Client, a: Action): Client {
    match a
    case Claim(c, key) =>
      if c in b.calls then b
      else if IsBlank(key) then Put(b, c, Refused)
      else if key !in b.rows then Put(b, c, Claimed(key)).(rows := b.rows[key := ClaimedPurchase(b.maximum)])
      else if b.rows[key].Authorized? && b.rows[key].payment.receipt != "" && b.rows[key].payment.proofHash != ""
      then Put(b, c, Succeeded(key, b.rows[key].payment))
      else Put(b, c, Refused)
    case ReadQuote(c, quote) =>
      if !At(b, c).Claimed? then b
      else if quote.amount > b.maximum then Put(b, c, Aborting(At(b, c).key))
      else Put(b, c, Quoted(At(b, c).key, quote))
    case Allow(c) =>
      if !At(b, c).Quoted? then b
      else
        var quote := At(b, c).quote;
        Put(b, c, Allowed(At(b, c).key, quote))
        .(allowances := if quote.permit2 then b.allowances + [quote.amount] else b.allowances)
    case Sign(c, payment) =>
      if !At(b, c).Allowed? then b
      else
        var key, quote := At(b, c).key, At(b, c).quote;
        Put(b, c, Signed(key, quote, payment)).(signatures := b.signatures + [Signature(c, key, quote.amount)])
    case Mark(c) =>
      if !At(b, c).Signed? then b
      else
        var key, payment := At(b, c).key, At(b, c).payment;
        if !IsAcceptable(At(b, c).quote, payment) || key !in b.rows then Put(b, c, Aborting(key))
        else Put(b, c, Succeeded(key, payment)).(rows := AuthorizedRows(b.rows, key, payment))
    case Fail(c) =>
      if Holding(At(b, c)).Some? then Put(b, c, Aborting(At(b, c).key)) else b
    case Abandon(c) =>
      if At(b, c).Aborting? then Put(b, c, Refused).(rows := ReleasedRows(b.rows, At(b, c).key)) else b
  }

  /** The key whose claim a call is responsible for. */
  function Holding(call: Call): Option<string> {
    if call.Succeeded? || call.Refused? then None else Some(call.key)
  }

  function Execute(b: Client, actions: seq<Action>): Client {
    if actions == [] then b
    else Step(Execute(b, actions[..|actions| - 1]), actions[|actions| - 1])
  }

  // ---------------------------------------------------------------- the invariant

  predicate CallHolds(b: Client, call: Call) {
    && (Holding(call).Some? ==> Holding(call).value in b.rows && b.rows[Holding(call).value].ClaimedPurchase?)
    && (call.Quoted? || call.Allowed? || call.Signed? ==> call.quote.amount <= b.maximum)
    && (call.Succeeded? ==> call.key in b.rows && b.rows[call.key] == Authorized(call.payment))
  }

  predicate IsSound(b: Client, payment: Payment) {
    payment.amount <= b.maximum && payment.receipt != "" && IsHash(payment.proofHash)
  }

  predicate RowsHold(b: Client) {
    forall key :: key in b.rows && b.rows[key].Authorized? ==> IsSound(b, b.rows[key].payment)
  }

  ghost predicate CallsHold(b: Client) {
    && (forall c :: c in b.calls ==> CallHolds(b, b.calls[c]))
    && (forall c, d :: c in b.calls && d in b.calls && c != d && Holding(b.calls[c]).Some?
                       ==> Holding(b.calls[c]) != Holding(b.calls[d]))
  }

  /** The call that made a signature has not turned it down. */
  predicate Stands(b: Client, s: Signature) {
    s.call in b.calls && (b.calls[s.call].Signed? || b.calls[s.call].Succeeded?) && b.calls[s.call].key == s.key
  }

  predicate SignatureHolds(b: Client, s: Signature) {
    && s.amount <= b.maximum
    && s.call in b.calls
    && (b.calls[s.call].Signed? || b.calls[s.call].Aborting? || b.calls[s.call].Succeeded? || b.calls[s.call].Refused?)
    && (!b.calls[s.call].Refused? ==> b.calls[s.call].key == s.key)
  }

  ghost predicate SignaturesHold(b: Client) {
    && (forall k :: 0 <= k < |b.signatures| ==> SignatureHolds(b, b.signatures[k]))
    && (forall k, l :: 0 <= k < l < |b.signatures| && b.signatures[k].key == b.signatures[l].key
                       ==> !Stands(b, b.signatures[k]))
    && (forall k :: 0 <= k < |b.allowances| ==> b.allowances[k] <= b.maximum)
  }

  ghost predicate Holds(b: Client) {
    RowsHold(b) && CallsHold(b) && SignaturesHold(b)
  }

  lemma StepHolds(b: Client, a: Action)
    requires Holds(b)
    ensures Holds(Step(b, a)) && Step(b, a).maximum == b.maximum
  {
    if a.c in b.calls {
      assert CallHolds(b, b.calls[a.c]);
    }
    StepKeepsCalls(b, a);
    if a.Sign? {
      SignKeepsSignatures(b, a.c, a.payment);
    } else {
      StepKeepsSignatures(b, a);
    }
  }

  lemma StepKeepsCalls(b: Client, a: Action)
    requires RowsHold(b) && CallsHold(b)
    ensures RowsHold(Step(b, a)) && CallsHold(Step(b, a))
  {
    if a.Claim? {
      ClaimKeepsCalls(b, a.c, a.key);
    } else if a.Mark? || a.Abandon? {
      RowChangeKeepsCalls(b, a);
    } else {
      LocalStepKeepsCalls(b, a);
    }
  }

  lemma LocalStepKeepsCalls(b: Client, a: Action)
    requires RowsHold(b) && CallsHold(b) && (a.ReadQuote? || a.Allow? || a.Sign? || a.Fail?)
    ensures RowsHold(Step(b, a)) && CallsHold(Step(b, a))
  {
  }

  lemma ClaimKeepsCalls(b: Client, c: nat, key: string)
    requires RowsHold(b) && CallsHold(b)
    ensures RowsHold(Step(b, Claim(c, key))) && CallsHold(Step(b, Claim(c, key)))
  {
  }

  lemma RowChangeKeepsCalls(b: Client, a: Action)
    requires RowsHold(b) && CallsHold(b) && (a.Mark? || a.Abandon?)
    ensures RowsHold(Step(b, a)) && CallsHold(Step(b, a))
  {
    hide IsHash, IsBlank;
    if a.Mark? { MarkKeepsCalls(b, a.c); }
  }

  lemma MarkKeepsCalls(b: Client, c: nat)
    requires RowsHold(b) && CallsHold(b)
    ensures RowsHold(Step(b, Mark(c))) && CallsHold(Step(b, Mark(c)))
  {
    hide IsHash, IsBlank;
    if At(b, c).Signed? { assert CallHolds(b, b.calls[c]); }
  }

  /** Only signing adds a signature, and no step revives one that was turned down. */
  lemma StepKeepsSignatures(b: Client, a: Action)
    requires SignaturesHold(b) && !a.Sign?
    requires a.c in b.calls ==> CallHolds(b, b.calls[a.c])
    ensures SignaturesHold(Step(b, a))
  {
    var after := Step(b, a);
    assert after.signatures == b.signatures;
    forall k | 0 <= k < |b.signatures|
      ensures SignatureHolds(after, b.signatures[k])
      ensures Stands(after, b.signatures[k]) ==> Stands(b, b.signatures[k])
    {
      assert SignatureHolds(b, b.signatures[k]);
    }
  }

  /** Whoever may sign holds the claim, so earlier signatures of the key are dead. */
  lemma SignKeepsSignatures(b: Client, c: nat, payment: Payment)
    requires CallsHold(b) && SignaturesHold(b)
    ensures SignaturesHold(Step(b, Sign(c, payment)))
  {
  }

  lemma {:induction false} EveryScheduleHolds(b: Client, actions: seq<Action>)
    requires Holds(b)
    ensures Holds(Execute(b, actions)) && Execute(b, actions).maximum == b.maximum
  {
    if actions != [] {
      EveryScheduleHolds(b, actions[..|actions| - 1]);
      StepHolds(Execute(b, actions[..|actions| - 1]), actions[|actions| - 1]);
    }
  }

  // ---------------------------------------------------------------- what every schedule guarantees

  /** Every call that succeeds on a key reports the same receipt, hash and amount,
      and the amount is within the ceiling. */
  lemma SuccessesAgree(b: Client, actions: seq<Action>, c: nat, d: nat)
    requires IsInitial(b)
    requires At(Execute(b, actions), c).Succeeded? && At(Execute(b, actions), d).Succeeded?
    requires At(Execute(b, actions), c).key == At(Execute(b, actions), d).key
    ensures At(Execute(b, actions), c).payment == At(Execute(b, actions), d).payment
    ensures IsSound(b, At(Execute(b, actions), c).payment)
  {
    EveryScheduleHolds(b, actions);
    var after := Execute(b, actions);
    assert CallHolds(after, after.calls[c]) && CallHolds(after, after.calls[d]);
  }

  /** An authorized row answers for its key for ever. */
  lemma {:induction false} AuthorizedForGood(b: Client, actions: seq<Action>, key: string)
    requires Holds(b) && key in b.rows && b.rows[key].Authorized?
    ensures key in Execute(b, actions).rows && Execute(b, actions).rows[key] == b.rows[key]
  {
    if actions != [] {
      var init, last := actions[..|actions| - 1], actions[|actions| - 1];
      AuthorizedForGood(b, init, key);
      EveryScheduleHolds(b, init);
      var before := Execute(b, init);
      if last.c in before.calls { assert CallHolds(before, before.calls[last.c]); }
    }
  }

  /** Nothing above the ceiling is ever signed or approved, and no key is signed for
      again while an earlier signature of it stands. A crash never lets it happen. */
  lemma SignaturesAreBounded(b: Client, actions: seq<Action>, k: nat, l: nat)
    requires IsInitial(b)
    requires k < l < |Execute(b, actions).signatures|
    requires Execute(b, actions).signatures[k].key == Execute(b, actions).signatures[l].key
    ensures !Stands(Execute(b, actions), Execute(b, actions).signatures[k])
    ensures Execute(b, actions).signatures[k].amount <= b.maximum
    ensures forall n :: 0 <= n < |Execute(b, actions).allowances| ==> Execute(b, actions).allowances[n] <= b.maximum
  {
    EveryScheduleHolds(b, actions);
    var after := Execute(b, actions);
    assert SignatureHolds(after, after.signatures[k]);
  }

  // ---------------------------------------------------------------- keys that are signed for again

  /** The call reaches the signer. */
  predicate Signs(b: Client, a: Action, c: nat, key: string) {
    a.Sign? && a.c == c && At(b, c).Allowed? && At(b, c).key == key
  }

  /** The call turns the signer's answer down, or fails with it in hand. */
  predicate TurnsDown(b: Client, a: Action, c: nat) {
    && a.c == c && At(b, c).Signed?
    && (a.Fail? || (a.Mark? && !IsAcceptable(At(b, c).quote, At(b, c).payment)))
  }

  predicate Releases(b: Client, a: Action, c: nat, key: string) {
    a.Abandon? && a.c == c && At(b, c) == Aborting(key)
  }

  predicate Acquires(b: Client, a: Action, d: nat, key: string) {
    a == Claim(d, key) && d !in b.calls && !IsBlank(key) && key !in b.rows
  }

  /** A call reaches the signer only while it holds the key's claim, and no other
      call does. */
  lemma SignerHoldsClaim(b: Client, actions: seq<Action>, m: nat, c: nat, key: string)
    requires IsInitial(b) && m < |actions| && Signs(Execute(b, actions[..m]), actions[m], c, key)
    ensures var before := Execute(b, actions[..m]);
            && key in before.rows && before.rows[key] == ClaimedPurchase(b.maximum)
            && Holding(At(before, c)) == Some(key)
            && forall d :: d != c ==> Holding(At(before, d)) != Some(key)
  {
    EveryScheduleHolds(b, actions[..m]);
    var before := Execute(b, actions[..m]);
    assert CallHolds(before, before.calls[c]);
    ClaimsReserveTheCeiling(b, actions[..m], key);
  }

  lemma {:induction false} ClaimsReserveTheCeiling(b: Client, actions: seq<Action>, key: string)
    requires IsInitial(b)
    ensures key in Execute(b, actions).rows && Execute(b, actions).rows[key].ClaimedPurchase? ==>
              Execute(b, actions).rows[key] == ClaimedPurchase(b.maximum)
  {
    if actions != [] {
      ClaimsReserveTheCeiling(b, actions[..|actions| - 1], key);
      EveryScheduleHolds(b, actions[..|actions| - 1]);
    }
  }

  /** The guard: an answer that comes back is turned down exactly when it is not
      acceptable. */
  lemma AnswerIsTurnedDownExactlyWhen(b: Client, actions: seq<Action>, c: nat)
    requires IsInitial(b) && At(Execute(b, actions), c).Signed?
    ensures var before := Execute(b, actions);
            At(Step(before, Mark(c)), c).Aborting? <==> !IsAcceptable(At(before, c).quote, At(before, c).payment)
  {
    EveryScheduleHolds(b, actions);
    assert CallHolds(Execute(b, actions), Execute(b, actions).calls[c]);
  }

  ghost predicate WasTurnedDown(b: Client, actions: seq<Action>, s: nat, i: nat, c: nat)
    requires i <= |actions|
  {
    exists n :: s < n < i && TurnsDown(Execute(b, actions[..n]), actions[n], c)
  }

  ghost predicate WasReleased(b: Client, actions: seq<Action>, s: nat, j: nat, c: nat, key: string)
    requires j <= |actions|
  {
    exists i :: s < i < j && Releases(Execute(b, actions[..i]), actions[i], c, key) && WasTurnedDown(b, actions, s, i, c)
  }

  /** After the signature at `s`, its call turned the answer down, then released the
      key, and then `d` acquired it, all before `m`. */
  ghost predicate WasReacquired(b: Client, actions: seq<Action>, s: nat, m: nat, c: nat, d: nat, key: string)
    requires m <= |actions|
  {
    exists j :: s < j < m && Acquires(Execute(b, actions[..j]), actions[j], d, key) && WasReleased(b, actions, s, j, c, key)
  }

  /** A later signature on a key, in any schedule, was only made after the earlier
      signer turned its answer down and then released the key, and the later one
      then acquired it. */
  lemma SignedAgainOnlyAfterRelease(b: Client, actions: seq<Action>, s: nat, c: nat, key: string, l: nat) returns (m: nat)
    requires IsInitial(b) && s < |actions| && Signs(Execute(b, actions[..s]), actions[s], c, key)
    requires |Execute(b, actions[..s]).signatures| < l < |Execute(b, actions).signatures|
    requires Execute(b, actions).signatures[l].key == key
    ensures s < m < |actions|
    ensures var d := Execute(b, actions).signatures[l].call;
            Signs(Execute(b, actions[..m]), actions[m], d, key) && WasReacquired(b, actions, s, m, c, d, key)
  {
    assert actions[..|actions|] == actions;
    m := SignatureHasPosition(b, actions, |actions|, l);
    if m <= s { SignaturesOnlyGrow(b, actions, m, s); }
    LaterSignerReacquired(b, actions, s, m, c, Execute(b, actions).signatures[l].call, key);
  }

  lemma PrefixStep(b: Client, actions: seq<Action>, m: nat)
    requires 0 < m <= |actions|
    ensures Execute(b, actions[..m]) == Step(Execute(b, actions[..m - 1]), actions[m - 1])
  {
    assert actions[..m][..m - 1] == actions[..m - 1];
  }

  lemma StepAddsSignatures(b: Client, a: Action)
    ensures b.signatures <= Step(b, a).signatures
    ensures |Step(b, a).signatures| > |b.signatures| ==>
              var made := Step(b, a).signatures[|b.signatures|];
              |Step(b, a).signatures| == |b.signatures| + 1 && Signs(b, a, made.call, made.key)
  {
  }

  lemma {:induction false} SignaturesOnlyGrow(b: Client, actions: seq<Action>, n: nat, m: nat)
    requires n <= m <= |actions|
    ensures Execute(b, actions[..n]).signatures <= Execute(b, actions[..m]).signatures
    decreases m
  {
    hide Step;
    if n < m {
      SignaturesOnlyGrow(b, actions, n, m - 1);
      PrefixStep(b, actions, m);
      StepAddsSignatures(Execute(b, actions[..m - 1]), actions[m - 1]);
    }
  }

  /** Every signature was made at some position. */
  lemma {:induction false} SignatureHasPosition(b: Client, actions: seq<Action>, m: nat, l: nat) returns (n: nat)
    requires IsInitial(b) && m <= |actions| && l < |Execute(b, actions[..m]).signatures|
    ensures n < m && |Execute(b, actions[..n]).signatures| == l
    ensures var made := Execute(b, actions[..m]).signatures[l];
            Signs(Execute(b, actions[..n]), actions[n], made.call, made.key)
    decreases m
  {
    assert m > 0 by { assert Execute(b, []) == b; }
    hide Step, Execute, Signs, IsInitial;
    PrefixStep(b, actions, m);
    StepAddsSignatures(Execute(b, actions[..m - 1]), actions[m - 1]);
    if l < |Execute(b, actions[..m - 1]).signatures| {
      n := SignatureHasPosition(b, actions, m - 1, l);
      SignaturesOnlyGrow(b, actions, m - 1, m);
    } else {
      n := m - 1;
    }
  }

  /** What became of the call that signed at `s`, by `m`. */
  ghost predicate SignerIsAt(b: Client, actions: seq<Action>, s: nat, m: nat, c: nat, key: string)
    requires m <= |actions|
  {
    && c in Execute(b, actions[..m]).calls
    && match At(Execute(b, actions[..m]), c)
       case Signed(k, _, _) => k == key
       case Succeeded(k, _) => k == key
       case Aborting(k) => k == key && WasTurnedDown(b, actions, s, m, c)
       case Refused => WasReleased(b, actions, s, m, c, key)
       case _ => false
  }

  lemma SignedMoves(b: Client, a: Action, c: nat, key: string)
    requires At(b, c).Signed? && At(b, c).key == key && CallHolds(b, At(b, c))
    ensures At(Step(b, a), c) == At(b, c) || At(Step(b, a), c) == Succeeded(key, At(b, c).payment)
            || (At(Step(b, a), c) == Aborting(key) && TurnsDown(b, a, c))
  {
  }

  lemma EndedMoves(b: Client, a: Action, c: nat)
    requires c in b.calls && (b.calls[c].Succeeded? || b.calls[c].Refused? || b.calls[c].Aborting?)
    ensures c in Step(b, a).calls
    ensures At(Step(b, a), c) == b.calls[c]
            || (b.calls[c].Aborting? && Releases(b, a, c, b.calls[c].key) && At(Step(b, a), c) == Refused)
  {
  }

  lemma {:induction false} SignerEndsOneWay(b: Client, actions: seq<Action>, s: nat, m: nat, c: nat, key: string)
    requires IsInitial(b) && s < m <= |actions| && Signs(Execute(b, actions[..s]), actions[s], c, key)
    ensures SignerIsAt(b, actions, s, m, c, key)
    decreases m
  {
    PrefixStep(b, actions, m);
    if s < m - 1 {
      SignerEndsOneWay(b, actions, s, m - 1, c, key);
      EveryScheduleHolds(b, actions[..m - 1]);
      hide Step, Execute;
      SignerStepsOn(b, actions, s, m, c, key);
    }
  }

  lemma SignerStepsOn(b: Client, actions: seq<Action>, s: nat, m: nat, c: nat, key: string)
    requires s < m - 1 < |actions| && SignerIsAt(b, actions, s, m - 1, c, key)
    requires CallsHold(Execute(b, actions[..m - 1]))
    requires Execute(b, actions[..m]) == Step(Execute(b, actions[..m - 1]), actions[m - 1])
    ensures SignerIsAt(b, actions, s, m, c, key)
  {
    var before, a := Execute(b, actions[..m - 1]), actions[m - 1];
    assert CallHolds(before, before.calls[c]);
    hide Execute, Step, CallHolds, CallsHold, TurnsDown, Releases;
    if At(before, c).Signed? {
      SignedMoves(before, a, c, key);
      if TurnsDown(before, a, c) { assert WasTurnedDown(b, actions, s, m, c); }
    } else {
      EndedMoves(before, a, c);
      if Releases(before, a, c, key) && At(before, c).Aborting? { assert WasReleased(b, actions, s, m, c, key); }
    }
  }

  lemma OnlyClaimingGivesAKey(b: Client, a: Action, d: nat, key: string)
    requires Holding(At(b, d)) != Some(key) && Holding(At(Step(b, a), d)) == Some(key)
    ensures Acquires(b, a, d, key)
  {
  }

  /** Whoever comes to hold a key acquired it. */
  lemma {:induction false} HolderAcquired(b: Client, actions: seq<Action>, i: nat, m: nat, d: nat, key: string) returns (j: nat)
    requires i <= m <= |actions|
    requires Holding(At(Execute(b, actions[..i]), d)) != Some(key) && Holding(At(Execute(b, actions[..m]), d)) == Some(key)
    ensures i <= j < m && Acquires(Execute(b, actions[..j]), actions[j], d, key)
    decreases m
  {
    hide Step, Execute;
    PrefixStep(b, actions, m);
    if Holding(At(Execute(b, actions[..m - 1]), d)) == Some(key) {
      j := HolderAcquired(b, actions, i, m - 1, d, key);
    } else {
      j := m - 1;
      OnlyClaimingGivesAKey(Execute(b, actions[..j]), actions[j], d, key);
    }
  }

  /** While one call holds a key, the call that signed for it before is done with it. */
  lemma OtherHolderMeansReleased(b: Client, actions: seq<Action>, s: nat, m: nat, c: nat, d: nat, key: string)
    requires m <= |actions| && SignerIsAt(b, actions, s, m, c, key) && Holds(Execute(b, actions[..m]))
    requires d in Execute(b, actions[..m]).calls && Execute(b, actions[..m]).calls[d].Allowed?
    requires Execute(b, actions[..m]).calls[d].key == key
    ensures WasReleased(b, actions, s, m, c, key)
  {
    var now := Execute(b, actions[..m]);
    hide Execute, WasReleased, WasTurnedDown;
    assert CallHolds(now, now.calls[c]) && CallHolds(now, now.calls[d]);
  }

  lemma ReleaserIsAlone(b: Client, actions: seq<Action>, i: nat, c: nat, d: nat, key: string)
    requires IsInitial(b) && i < |actions| && Releases(Execute(b, actions[..i]), actions[i], c, key)
    ensures Holding(At(Execute(b, actions[..i + 1]), d)) != Some(key)
  {
    EveryScheduleHolds(b, actions[..i]);
    PrefixStep(b, actions, i + 1);
  }

  lemma ReleasedThenReacquired(b: Client, actions: seq<Action>, s: nat, m: nat, c: nat, d: nat, key: string)
    requires IsInitial(b) && m < |actions| && WasReleased(b, actions, s, m, c, key)
    requires Holding(At(Execute(b, actions[..m]), d)) == Some(key)
    ensures WasReacquired(b, actions, s, m, c, d, key)
  {
    hide Execute, IsInitial, Releases, Acquires, WasTurnedDown, Holding;
    var i :| s < i < m && Releases(Execute(b, actions[..i]), actions[i], c, key) && WasTurnedDown(b, actions, s, i, c);
    ReleaserIsAlone(b, actions, i, c, d, key);
    var j := HolderAcquired(b, actions, i + 1, m, d, key);
    assert WasReleased(b, actions, s, j, c, key);
  }

  lemma LaterSignerReacquired(b: Client, actions: seq<Action>, s: nat, m: nat, c: nat, d: nat, key: string)
    requires IsInitial(b) && s < m < |actions|
    requires Signs(Execute(b, actions[..s]), actions[s], c, key) && Signs(Execute(b, actions[..m]), actions[m], d, key)
    ensures WasReacquired(b, actions, s, m, c, d, key)
  {
    hide Execute, WasReleased, WasReacquired;
    SignerEndsOneWay(b, actions, s, m, c, key);
    EveryScheduleHolds(b, actions[..m]);
    hide Holds;
    OtherHolderMeansReleased(b, actions, s, m, c, d, key);
    ReleasedThenReacquired(b, actions, s, m, c, d, key);
  }

  predicate IsQuotedPermit2(call: Call) {
    (call.Quoted? || call.Allowed? || call.Signed?) && call.quote.permit2
  }

  /** A signed authorization needs no standing approval, so none is ever granted
      unless a target asks for Permit2. */
  lemma {:induction false} OnlyPermit2IsApproved(b: Client, actions: seq<Action>)
    requires IsInitial(b)
    requires forall k :: 0 <= k < |actions| && actions[k].ReadQuote? ==> !actions[k].quote.permit2
    ensures Execute(b, actions).allowances == []
    ensures forall c :: c in Execute(b, actions).calls ==> !IsQuotedPermit2(Execute(b, actions).calls[c])
  {
    if actions != [] {
      OnlyPermit2IsApproved(b, actions[..|actions| - 1]);
    }
  }

  lemma ExecuteOneMore(b: Client, actions: seq<Action>, a: Action)
    ensures Execute(b, actions + [a]) == Step(Execute(b, actions), a)
  {
  }

  /** One call that buys for `quote`, from its claim to what it makes of the answer. */
  function Attempt(c: nat, key: string, quote: PaymentQuote, payment: Payment): seq<Action> {
    [Claim(c, key)] + [ReadQuote(c, quote)] + [Allow(c)] + [Sign(c, payment)] + [Mark(c)]
  }

  lemma ExecuteAttempt(b: Client, actions: seq<Action>, c: nat, key: string, quote: PaymentQuote, payment: Payment)
    ensures Execute(b, actions + Attempt(c, key, quote, payment))
            == Step(Step(Step(Step(Step(Execute(b, actions), Claim(c, key)), ReadQuote(c, quote)), Allow(c)),
                         Sign(c, payment)), Mark(c))
  {
    hide Step, Execute;
    var one := actions + [Claim(c, key)];
    var two := one + [ReadQuote(c, quote)];
    var three := two + [Allow(c)];
    var four := three + [Sign(c, payment)];
    ExecuteOneMore(b, actions, Claim(c, key));
    ExecuteOneMore(b, one, ReadQuote(c, quote));
    ExecuteOneMore(b, two, Allow(c));
    ExecuteOneMore(b, three, Sign(c, payment));
    ExecuteOneMore(b, four, Mark(c));
    assert actions + Attempt(c, key, quote, payment) == four + [Mark(c)];
  }

  /** An undisturbed call on a free key signs, and then stands or falls with what
      the signer answered. */
  lemma UndisturbedAttempt(b: Client, actions: seq<Action>, c: nat, key: string, quote: PaymentQuote, payment: Payment)
    requires !IsBlank(key) && quote.amount <= b.maximum && Execute(b, actions).maximum == b.maximum
    requires c !in Execute(b, actions).calls && key !in Execute(b, actions).rows
    ensures var before, after := Execute(b, actions), Execute(b, actions + Attempt(c, key, quote, payment));
            && after.signatures == before.signatures + [Signature(c, key, quote.amount)]
            && At(after, c) == (if IsAcceptable(quote, payment) then Succeeded(key, payment) else Aborting(key))
            && after.calls.Keys == before.calls.Keys + {c} && after.maximum == b.maximum
            && (!IsAcceptable(quote, payment) ==> after.rows == before.rows[key := ClaimedPurchase(b.maximum)])
  {
    ExecuteAttempt(b, actions, c, key, quote, payment);
  }

  /** A rejected answer does release the key, though what it signed is out: two
      authorizations of one key can then exist, one of them unreported. */
  lemma TurnedDownSignatureIsFollowedByAnother(b: Client, key: string, good: Payment)
    requires IsInitial(b) && !IsBlank(key) && IsSound(b, good)
    ensures var quote := PaymentQuote(good.amount, 0, false);
            var after := Execute(b, Attempt(0, key, quote, good.(receipt := "")) + [Abandon(0)] + Attempt(1, key, quote, good));
            && after.signatures == [Signature(0, key, good.amount), Signature(1, key, good.amount)]
            && At(after, 1) == Succeeded(key, good)
  {
    var quote := PaymentQuote(good.amount, 0, false);
    var first := Attempt(0, key, quote, good.(receipt := ""));
    assert [] + first == first;
    UndisturbedAttempt(b, [], 0, key, quote, good.(receipt := ""));
    ExecuteOneMore(b, first, Abandon(0));
    assert 1 !in Execute(b, first).calls.Keys;
    UndisturbedAttempt(b, first + [Abandon(0)], 1, key, quote, good);
  }

  // ---------------------------------------------------------------- when a key can be signed for again

  /** Every claimed row has a call that answers for it. */
  ghost predicate RowsAreHeld(b: Client) {
    forall key :: key in b.rows && b.rows[key].ClaimedPurchase? ==> exists c :: IsHolder(b, c, key)
  }

  predicate IsHolder(b: Client, c: nat, key: string) {
    c in b.calls && Holding(b.calls[c]) == Some(key)
  }

  lemma StepKeepsRowsHeld(b: Client, a: Action)
    requires CallsHold(b) && RowsAreHeld(b)
    ensures RowsAreHeld(Step(b, a))
  {
    var after := Step(b, a);
    forall key | key in after.rows && after.rows[key].ClaimedPurchase? ensures exists c :: IsHolder(after, c, key) {
      if key in b.rows && b.rows[key].ClaimedPurchase? {
        var c :| IsHolder(b, c, key);
        HolderKeepsRow(b, a, c, key);
        assert IsHolder(after, c, key);
      } else {
        assert IsHolder(after, a.c, key);
      }
    }
  }

  lemma HolderKeepsRow(b: Client, a: Action, c: nat, key: string)
    requires CallsHold(b) && IsHolder(b, c, key)
    ensures IsHolder(Step(b, a), c, key) || key !in Step(b, a).rows || Step(b, a).rows[key].Authorized?
  {
    assert CallHolds(b, b.calls[c]);
  }

  lemma {:induction false} EveryRowIsHeld(b: Client, actions: seq<Action>)
    requires Holds(b) && RowsAreHeld(b)
    ensures Holds(Execute(b, actions)) && RowsAreHeld(Execute(b, actions))
  {
    EveryScheduleHolds(b, actions);
    if actions != [] {
      var init := actions[..|actions| - 1];
      EveryRowIsHeld(b, init);
      hide Step;
      StepKeepsRowsHeld(Execute(b, init), actions[|actions| - 1]);
    }
  }

  predicate LeavesOut(actions: seq<Action>, stopped: set<nat>) {
    forall k :: 0 <= k < |actions| ==> actions[k].c !in stopped
  }

  predicate NeverFails(actions: seq<Action>, c: nat) {
    forall k :: 0 <= k < |actions| ==> actions[k] != Fail(c)
  }

  /** The schedule makes a new signature for the key. */
  ghost predicate IsSignedIn(b: Client, actions: seq<Action>, key: string) {
    exists l :: |b.signatures| <= l < |Execute(b, actions).signatures| && Execute(b, actions).signatures[l].key == key
  }

  predicate IsSettled(b: Client, key: string) {
    key in b.rows && b.rows[key].Authorized?
  }

  /** Whether a key can ever be signed for, again or for the first time, once the
      calls in `stopped` have crashed: exactly if it is not authorized and none of
      them holds it. Whoever else holds it may still fail and release it. */
  lemma CanBeSignedExactlyWhen(b: Client, key: string, stopped: set<nat>)
    requires Holds(b) && RowsAreHeld(b) && !IsBlank(key)
    ensures (exists actions :: LeavesOut(actions, stopped) && IsSignedIn(b, actions, key))
            <==> !IsSettled(b, key) && forall c :: c in stopped ==> !IsHolder(b, c, key)
  {
    if IsSettled(b, key) || exists c :: c in stopped && IsHolder(b, c, key) {
      forall actions | LeavesOut(actions, stopped) ensures !IsSignedIn(b, actions, key) {
        BlockedStaysUnsigned(b, actions, key, stopped);
      }
    } else if key in b.rows {
      var d :| IsHolder(b, d, key);
      HolderLetsOthersSign(b, d, [Fail(d), Abandon(d)], key, stopped);
    } else {
      var again := FreeKeyIsSigned(b, [], key, stopped);
      assert [] + again == again;
    }
  }

  /** A signer that does not fail: the key is signed for again exactly if the signer
      lives to see its answer and turns it down. */
  lemma SignedKeyIsSignedAgainExactlyWhen(b: Client, c: nat, stopped: set<nat>)
    requires Holds(b) && RowsAreHeld(b) && At(b, c).Signed? && !IsBlank(At(b, c).key)
    ensures (exists actions :: LeavesOut(actions, stopped) && NeverFails(actions, c) && IsSignedIn(b, actions, At(b, c).key))
            <==> c !in stopped && !IsAcceptable(At(b, c).quote, At(b, c).payment)
  {
    var key := At(b, c).key;
    assert IsHolder(b, c, key) && CallHolds(b, b.calls[c]);
    if c !in stopped && !IsAcceptable(At(b, c).quote, At(b, c).payment) {
      HolderLetsOthersSign(b, c, [Mark(c), Abandon(c)], key, stopped);
    } else {
      forall actions | LeavesOut(actions, stopped) && NeverFails(actions, c) ensures !IsSignedIn(b, actions, key) {
        if c in stopped {
          BlockedStaysUnsigned(b, actions, key, stopped);
        } else {
          AcceptedStaysUnsigned(b, actions, c);
        }
      }
    }
  }

  // The condition is needed.

  ghost predicate IsClosed(b: Client, key: string, stopped: set<nat>) {
    IsSettled(b, key) || exists c :: c in stopped && IsHolder(b, c, key)
  }

  /** Nobody but the holder of a key can sign for it. */
  lemma OnlyTheHolderSigns(b: Client, a: Action, key: string)
    requires CallsHold(b)
    requires IsSettled(b, key) || exists c :: c != a.c && IsHolder(b, c, key)
    ensures !Signs(b, a, a.c, key)
  {
    if a.c in b.calls { assert CallHolds(b, b.calls[a.c]); }
  }

  lemma SettledStaysSettled(b: Client, a: Action, key: string)
    requires CallsHold(b) && IsSettled(b, key)
    ensures IsSettled(Step(b, a), key)
  {
    if a.c in b.calls { assert CallHolds(b, b.calls[a.c]); }
  }

  lemma ClosedStaysClosed(b: Client, a: Action, key: string, stopped: set<nat>)
    requires CallsHold(b) && IsClosed(b, key, stopped) && a.c !in stopped
    ensures IsClosed(Step(b, a), key, stopped) && !Signs(b, a, a.c, key)
  {
    if IsSettled(b, key) {
      SettledStaysSettled(b, a, key);
    } else {
      var c :| c in stopped && IsHolder(b, c, key);
      assert IsHolder(Step(b, a), c, key);
    }
    OnlyTheHolderSigns(b, a, key);
  }

  /** If the last step does not sign for the key, no new signature of it appears. */
  lemma UnsignedOneMore(b: Client, actions: seq<Action>, key: string)
    requires actions != [] && !IsSignedIn(b, actions[..|actions| - 1], key)
    requires |b.signatures| <= |Execute(b, actions[..|actions| - 1]).signatures|
    requires var a := actions[|actions| - 1]; !Signs(Execute(b, actions[..|actions| - 1]), a, a.c, key)
    ensures !IsSignedIn(b, actions, key) && |b.signatures| <= |Execute(b, actions).signatures|
  {
    var before, a := Execute(b, actions[..|actions| - 1]), actions[|actions| - 1];
    StepAddsSignatures(before, a);
    hide Step, Signs;
    var after := Execute(b, actions);
    forall l | |b.signatures| <= l < |after.signatures| ensures after.signatures[l].key != key {
      if l < |before.signatures| {
        assert after.signatures[l] == before.signatures[l];
      } else {
        SignerIsActor(before, a);
      }
    }
  }

  lemma SignerIsActor(b: Client, a: Action)
    requires |Step(b, a).signatures| > |b.signatures|
    ensures Signs(b, a, a.c, Step(b, a).signatures[|b.signatures|].key)
  {
  }

  lemma {:induction false} BlockedStaysUnsigned(b: Client, actions: seq<Action>, key: string, stopped: set<nat>)
    requires Holds(b) && IsClosed(b, key, stopped) && LeavesOut(actions, stopped)
    ensures IsClosed(Execute(b, actions), key, stopped) && !IsSignedIn(b, actions, key)
    ensures |b.signatures| <= |Execute(b, actions).signatures|
  {
    if actions != [] {
      var init := actions[..|actions| - 1];
      assert LeavesOut(init, stopped);
      BlockedStaysUnsigned(b, init, key, stopped);
      EveryScheduleHolds(b, init);
      hide Step, IsSignedIn, IsClosed;
      ClosedStaysClosed(Execute(b, init), actions[|actions| - 1], key, stopped);
      UnsignedOneMore(b, actions, key);
    }
  }

  /** The signer still has its acceptable answer, or has reported it. */
  predicate IsGood(b: Client, signed: Call, c: nat)
    requires signed.Signed?
  {
    IsSettled(b, signed.key) || At(b, c) == signed
  }

  lemma GoodStaysGood(b: Client, a: Action, signed: Call, c: nat)
    requires CallsHold(b) && signed.Signed? && IsAcceptable(signed.quote, signed.payment)
    requires IsGood(b, signed, c) && a != Fail(c)
    ensures IsGood(Step(b, a), signed, c) && !Signs(b, a, a.c, signed.key)
  {
    if IsSettled(b, signed.key) {
      SettledStaysSettled(b, a, signed.key);
      OnlyTheHolderSigns(b, a, signed.key);
    } else {
      assert CallHolds(b, b.calls[c]) && IsHolder(b, c, signed.key);
      if a.c != c { OnlyTheHolderSigns(b, a, signed.key); }
    }
  }

  lemma {:induction false} AcceptedStaysUnsigned(b: Client, actions: seq<Action>, c: nat)
    requires Holds(b) && At(b, c).Signed? && IsAcceptable(At(b, c).quote, At(b, c).payment) && NeverFails(actions, c)
    ensures IsGood(Execute(b, actions), At(b, c), c) && !IsSignedIn(b, actions, At(b, c).key)
    ensures |b.signatures| <= |Execute(b, actions).signatures|
  {
    if actions != [] {
      var init := actions[..|actions| - 1];
      AcceptedStaysUnsigned(b, init, c);
      EveryScheduleHolds(b, init);
      hide Step, IsSignedIn, IsGood;
      GoodStaysGood(Execute(b, init), actions[|actions| - 1], At(b, c), c);
      UnsignedOneMore(b, actions, At(b, c).key);
    }
  }

  // The condition is enough.

  lemma {:induction false} UnusedCall(taken: set<nat>) returns (c: nat)
    ensures forall d :: d in taken ==> d < c
  {
    if taken == {} {
      c := 0;
    } else {
      var d :| d in taken;
      var rest := taken - {d};
      c := UnusedCall(rest);
      if c <= d { c := d + 1; }
      assert forall e :: e in taken ==> e == d || e in rest;
    }
  }

  /** On a key without a row a new call can sign. */
  lemma FreeKeyIsSigned(b: Client, actions: seq<Action>, key: string, stopped: set<nat>) returns (again: seq<Action>)
    requires !IsBlank(key) && key !in Execute(b, actions).rows && Execute(b, actions).maximum == b.maximum
    requires |b.signatures| <= |Execute(b, actions).signatures|
    ensures LeavesOut(again, stopped) && IsSignedIn(b, actions + again, key)
    ensures forall k :: 0 <= k < |again| ==> again[k].c !in Execute(b, actions).calls
  {
    var c := UnusedCall(Execute(b, actions).calls.Keys + stopped);
    assert c !in Execute(b, actions).calls && c !in stopped;
    var quote, payment := PaymentQuote(b.maximum, 0, false), Payment("", "", b.maximum);
    again := Attempt(c, key, quote, payment);
    UndisturbedAttempt(b, actions, c, key, quote, payment);
    var after := Execute(b, actions + again);
    assert after.signatures[|Execute(b, actions).signatures|].key == key;
  }

  lemma ExecuteTwo(b: Client, x: Action, y: Action)
    ensures Execute(b, [x, y]) == Step(Step(b, x), y)
  {
    assert [] + [x] == [x] && [x] + [y] == [x, y] && Execute(b, []) == b;
    hide Step, Execute;
    ExecuteOneMore(b, [], x);
    ExecuteOneMore(b, [x], y);
  }

  /** However the holder comes to release its key, a new call can then sign. */
  lemma HolderLetsOthersSign(b: Client, d: nat, release: seq<Action>, key: string, stopped: set<nat>)
    requires Holds(b) && IsHolder(b, d, key) && !IsBlank(key) && d !in stopped
    requires release == [Fail(d), Abandon(d)]
             || (release == [Mark(d), Abandon(d)] && b.calls[d].Signed? && !IsAcceptable(b.calls[d].quote, b.calls[d].payment))
    ensures exists actions :: LeavesOut(actions, stopped) && IsSignedIn(b, actions, key)
                              && (release[0] != Fail(d) ==> NeverFails(actions, d))
  {
    ExecuteTwo(b, release[0], release[1]);
    ReleaseFreesTheKey(b, d, release[0], key);
    hide Step, Execute;
    var again := FreeKeyIsSigned(b, release, key, stopped);
    var actions := release + again;
    assert LeavesOut(actions, stopped);
    assert release[0] != Fail(d) ==> NeverFails(actions, d);
  }

  lemma ReleaseFreesTheKey(b: Client, d: nat, first: Action, key: string)
    requires CallsHold(b) && IsHolder(b, d, key)
    requires first == Fail(d)
             || (first == Mark(d) && b.calls[d].Signed? && !IsAcceptable(b.calls[d].quote, b.calls[d].payment))
    ensures var after := Step(Step(b, first), Abandon(d));
            key !in after.rows && after.maximum == b.maximum && after.signatures == b.signatures && d in after.calls
  {
    assert CallHolds(b, b.calls[d]);
    assert Step(b, first) == Put(b, d, Aborting(key));
  }

  // ---------------------------------------------------------------- one call of `acquire`

  class Runtime {
    var client: Client
    ghost var origin: Client
    ghost var trace: seq<Action>

    ghost predicate Valid()
      reads this
    {
      IsInitial(origin) && client == Execute(origin, trace)
    }

    constructor (maximum: nat)
      ensures Valid() && client == Client(maximum, map[], map[], [], [])
    {
      client := Client(maximum, map[], map[], [], []);
      origin := Client(maximum, map[], map[], [], []);
      trace := [];
    }

    method Perform(a: Action)
      requires Valid()
      modifies this
      ensures Valid() && client == Step(old(client), a)
      ensures origin == old(origin) && trace == old(trace) + [a]
    {
      hide Step, Execute;
      ExecuteOneMore(origin, trace, a);
      client := Step(client, a);
      trace := trace + [a];
    }

    method Await(others: seq<Action>, me: nat)
      requires Valid() && OthersOnly(others, me)
      modifies this
      ensures Valid() && origin == old(origin) && trace == old(trace) + others
      ensures me in client.calls <==> me in old(client).calls
      ensures me in old(client).calls ==> client.calls[me] == old(client).calls[me]
    {
      ghost var before := trace;
      for k := 0 to |others|
        invariant Valid() && origin == old(origin) && trace == before + others[..k]
        invariant me in client.calls <==> me in old(client).calls
        invariant me in old(client).calls ==> client.calls[me] == old(client).calls[me]
      {
        Perform(others[k]);
        assert others[..k + 1] == others[..k] + [others[k]];
      }
      assert others[..|others|] == others;
    }
  }

  predicate OthersOnly(actions: seq<Action>, me: nat) {
    forall k :: 0 <= k < |actions| ==> actions[k].c != me
  }

  /** What the target, the chain and the signer answer; None is an error. */
  datatype Answers = Answers(quote: Option<PaymentQuote>, approved: bool, payment: Option<Payment>)

  /** The target named terms within the ceiling, Permit2 was approved if they ask for
      it, and the signer's answer is for those terms and complete. */
  predicate IsBought(answers: Answers, maximum: nat) {
    && answers.quote.Some? && answers.quote.value.amount <= maximum
    && (answers.quote.value.permit2 ==> answers.approved)
    && answers.payment.Some? && answers.payment.value.amount == answers.quote.value.amount
    && answers.payment.value.receipt != "" && IsHash(answers.payment.value.proofHash)
  }

  /** What is known of a call and of the rows, wherever the schedule has got to. */
  lemma CallsAreSound(origin: Client, trace: seq<Action>, me: nat)
    requires IsInitial(origin)
    ensures var client := Execute(origin, trace);
            && client.maximum == origin.maximum
            && (me in client.calls ==> CallHolds(client, client.calls[me]))
            && (me in client.calls && client.calls[me].Succeeded? ==> IsSound(origin, client.calls[me].payment))
            && RowsHold(client)
  {
    EveryScheduleHolds(origin, trace);
  }

  /** Either the payment the row holds for the key, or an error after which this
      call no longer stands in anybody's way. */
  method Acquire(rt: Runtime, me: nat, key: string, answers: Answers, others: nat -> seq<Action>)
    returns (acquired: Option<Payment>)
    requires rt.Valid() && me !in rt.client.calls
    requires forall n :: OthersOnly(others(n), me)
    modifies rt
    ensures rt.Valid() && rt.origin == old(rt.origin)
    ensures acquired.Some? ==>
              && At(rt.client, me) == Succeeded(key, acquired.value)
              && key in rt.client.rows && rt.client.rows[key] == Authorized(acquired.value)
              && IsSound(rt.origin, acquired.value)
    ensures acquired.None? ==> At(rt.client, me) == Refused
    ensures IsBlank(key) ==> acquired.None?
    ensures !IsBlank(key) && key !in old(rt.client).rows ==>
              && (acquired.Some? <==> IsBought(answers, rt.origin.maximum))
              && (acquired.Some? ==> acquired == answers.payment)
    ensures key in old(rt.client).rows && old(rt.client).rows[key].ClaimedPurchase? ==> acquired.None?
    ensures key in old(rt.client).rows && old(rt.client).rows[key].Authorized? && !IsBlank(key) ==>
              acquired == Some(old(rt.client).rows[key].payment) && rt.client.rows == old(rt.client).rows
  {
    CallsAreSound(rt.origin, rt.trace, me);
    rt.Perform(Claim(me, key));
    CallsAreSound(rt.origin, rt.trace, me);
    hide Holds;
    if At(rt.client, me).Refused? { return None; }
    if At(rt.client, me).Succeeded? { return Some(At(rt.client, me).payment); }
    acquired := BuyUnderClaim(rt, me, key, answers, others);
  }

  method BuyUnderClaim(rt: Runtime, me: nat, key: string, answers: Answers, others: nat -> seq<Action>)
    returns (acquired: Option<Payment>)
    requires rt.Valid() && At(rt.client, me) == Claimed(key)
    requires forall n :: OthersOnly(others(n), me)
    modifies rt
    ensures rt.Valid() && rt.origin == old(rt.origin)
    ensures acquired.Some? ==>
              && At(rt.client, me) == Succeeded(key, acquired.value)
              && key in rt.client.rows && rt.client.rows[key] == Authorized(acquired.value)
              && IsSound(rt.origin, acquired.value)
    ensures acquired.None? ==> At(rt.client, me) == Refused
    ensures acquired.Some? <==> IsBought(answers, rt.origin.maximum)
    ensures acquired.Some? ==> acquired == answers.payment
  {
    var ready := NegotiateTerms(rt, me, key, answers, others);
    if ready {
      acquired := SignAndMark(rt, me, key, answers.payment, others);
    } else {
      acquired := None;
    }
    if acquired.None? {
      rt.Perform(Abandon(me));
    }
  }

  /** Reads the target's terms, re-checks the ceiling and approves what Permit2 needs. */
  method NegotiateTerms(rt: Runtime, me: nat, key: string, answers: Answers, others: nat -> seq<Action>)
    returns (ready: bool)
    requires rt.Valid() && At(rt.client, me) == Claimed(key)
    requires forall n :: OthersOnly(others(n), me)
    modifies rt
    ensures rt.Valid() && rt.origin == old(rt.origin)
    ensures ready ==> answers.quote.Some? && At(rt.client, me) == Allowed(key, answers.quote.value)
    ensures !ready ==> At(rt.client, me) == Aborting(key)
    ensures ready <==>
              && answers.quote.Some? && answers.quote.value.amount <= rt.origin.maximum
              && (answers.quote.value.permit2 ==> answers.approved)
  {
    rt.Await(others(0), me);
    if answers.quote.None? {
      rt.Perform(Fail(me));
      return false;
    }
    CallsAreSound(rt.origin, rt.trace, me);
    rt.Perform(ReadQuote(me, answers.quote.value));
    if At(rt.client, me).Aborting? { return false; }
    rt.Await(others(1), me);
    if answers.quote.value.permit2 && !answers.approved {
      rt.Perform(Fail(me));
      return false;
    }
    rt.Perform(Allow(me));
    return true;
  }

  method SignAndMark(rt: Runtime, me: nat, key: string, payment: Option<Payment>, others: nat -> seq<Action>)
    returns (acquired: Option<Payment>)
    requires rt.Valid() && At(rt.client, me).Allowed? && At(rt.client, me).key == key
    requires forall n :: OthersOnly(others(n), me)
    modifies rt
    ensures rt.Valid() && rt.origin == old(rt.origin)
    ensures acquired.Some? ==>
              && acquired == payment && At(rt.client, me) == Succeeded(key, acquired.value)
              && key in rt.client.rows && rt.client.rows[key] == Authorized(acquired.value)
              && IsSound(rt.origin, acquired.value)
    ensures acquired.None? ==> At(rt.client, me) == Aborting(key)
    ensures acquired.Some? <==> payment.Some? && IsAcceptable(old(At(rt.client, me)).quote, payment.value)
  {
    rt.Await(others(2), me);
    if payment.None? {
      rt.Perform(Fail(me));
      return None;
    }
    rt.Perform(Sign(me, payment.value));
    rt.Await(others(3), me);
    CallsAreSound(rt.origin, rt.trace, me);
    rt.Perform(Mark(me));
    CallsAreSound(rt.origin, rt.trace, me);
    return if At(rt.client, me).Aborting? then None else payment;
  }
}
