/** Submitting a bridge transfer at most once: a claim row per idempotency key,
    taken before the send and kept whenever the send may have gone out. */
module StargateBridge {
  import opened Wrappers
  import opened StargateAmounts

  /** `sent` is None while the row is CLAIMED, and the send's hash once SUBMITTED.
      The hash is also the transfer id. */
  datatype Record = Record(
    key: string,
    quoteId: string,
    runId: string,
    payer: nat,
    minimumOut: nat,
    sent: Option<string>)

  // ---------------------------------------------------------------- the store

  function MarkedRows(rows: map<string, Record>, key: string, hash: string): map<string, Record>
    requires key in rows
  {
    rows[key := rows[key].(sent := Some(hash))]
  }

  /** Only a row that is still CLAIMED is given up. */
  function AbandonedRows(rows: map<string, Record>, key: string): map<string, Record> {
    if key in rows && rows[key].sent.None? then map k | k in rows && k != key :: rows[k] else rows
  }

  class InMemoryBridgeSubmissionStore {
    var byKey: map<string, Record>

    constructor ()
      ensures byKey == map[]
    {
      byKey := map[];
    }

    method Claim(record: Record) returns (acquired: bool, kept: Record)
      modifies this
      ensures acquired <==> record.key !in old(byKey)
      ensures acquired ==> kept == record && byKey == old(byKey)[record.key := record]
      ensures !acquired ==> kept == old(byKey)[record.key] && byKey == old(byKey)
    {
      if record.key in byKey { return false, byKey[record.key]; }
      byKey := byKey[record.key := record];
      return true, record;
    }

    method MarkSubmitted(key: string, hash: string) returns (submitted: Option<Record>)
      modifies this
      ensures key !in old(byKey) ==> submitted.None? && byKey == old(byKey)
      ensures key in old(byKey) ==>
                && byKey == MarkedRows(old(byKey), key, hash)
                && submitted == Some(byKey[key]) && byKey[key].sent == Some(hash)
    {
      if key !in byKey { return None; }
      byKey := MarkedRows(byKey, key, hash);
      return Some(byKey[key]);
    }

    /** Gives up a key whose send was never made, so that it can be claimed anew. A
        submitted row stays, and so does every row of another key. */
    method AbandonClaim(key: string)
      modifies this
      ensures key in byKey <==> key in old(byKey) && old(byKey)[key].sent.Some?
      ensures forall other :: other != key ==> (other in byKey <==> other in old(byKey))
      ensures forall other :: other in byKey ==> byKey[other] == old(byKey)[other]
    {
      if key in byKey && byKey[key].sent.None? {
        byKey := map other | other in byKey && other != key :: byKey[other];
      }
    }

    /** Some row with this transfer id, if there is one. */
    method FindByTransferId(hash: string) returns (found: Option<Record>)
      ensures found.Some? ==> found.value in byKey.Values && found.value.sent == Some(hash)
      ensures found.None? ==> forall key :: key in byKey ==> byKey[key].sent != Some(hash)
    {
      var remaining := byKey.Keys;
      while remaining != {}
        invariant remaining <= byKey.Keys
        invariant forall key :: key in byKey && key !in remaining ==> byKey[key].sent != Some(hash)
        decreases remaining
      {
        var key :| key in remaining;
        if byKey[key].sent == Some(hash) { return Some(byKey[key]); }
        remaining := remaining - {key};
      }
      return None;
    }
  }

  // ---------------------------------------------------------------- overlapping submissions

  /** Where one call of `submit` stands. From InFlight on, the send was attempted. */
  datatype Call =
    | Claimed(key: string)
    | Ready(key: string)
    | Aborting(key: string)
    | InFlight(key: string, reached: Option<string>)
    | Returned(key: string, hash: string)
    | Stuck(key: string)
    | Succeeded(key: string, hash: string)
    | Refused

  /** `sends` are the transfers that reached a node, each with its transaction hash. */
  datatype Broadcast = Broadcast(key: string, hash: string)

  datatype Bridge = Bridge(rows: map<string, Record>, calls: map<nat, Call>, sends: seq<Broadcast>)

  datatype Action =
    | Claim(c: nat, record: Record)
    | Requote(c: nat, freshOut: Result<nat, AmountError>, nativeFee: nat, maxNativeFee: nat)
    | FailBeforeSend(c: nat)
    | Abandon(c: nat)
    | AttemptSend(c: nat, reached: Option<string>)
    | SendReturns(c: nat)
    | SendErrors(c: nat)
    | MarkSubmitted(c: nat)

  const Initial := Bridge(map[], map[], [])

  function At(b: Bridge, c: nat): Call {
    if c in b.calls then b.calls[c] else Refused
  }

  function Put(b: Bridge, c: nat, call: Call): Bridge {
    b.(calls := b.calls[c := call])
  }

  predicate IsFreshHash(b: Bridge, hash: string) {
    forall k :: 0 <= k < |b.sends| ==> b.sends[k].hash != hash
  }

  /** Crashing is never acting again. Two transactions never share a hash. */
  function Step(b: Bridge, a: Action): Bridge {
    match a
    case Claim(c, record) =>
      if c in b.calls || record.sent.Some? then b
      else if record.key !in b.rows then Put(b, c, Claimed(record.key)).(rows := b.rows[record.key := record])
      else if b.rows[record.key].sent.Some? then Put(b, c, Succeeded(record.key, b.rows[record.key].sent.value))
      else Put(b, c, Refused)
    case Requote(c, freshOut, nativeFee, maxNativeFee) =>
      if !At(b, c).Claimed? || At(b, c).key !in b.rows then b
      else if freshOut.Err? || freshOut.value < b.rows[At(b, c).key].minimumOut || nativeFee > maxNativeFee
      then Put(b, c, Aborting(At(b, c).key))
      else Put(b, c, Ready(At(b, c).key))
    case FailBeforeSend(c) =>
      if At(b, c).Claimed? || At(b, c).Ready? then Put(b, c, Aborting(At(b, c).key)) else b
    case Abandon(c) =>
      if At(b, c).Aborting? then Put(b, c, Refused).(rows := AbandonedRows(b.rows, At(b, c).key)) else b
    case AttemptSend(c, reached) =>
      if !At(b, c).Ready? || (reached.Some? && !IsFreshHash(b, reached.value)) then b
      else
        var key := At(b, c).key;
        Put(b, c, InFlight(key, reached))
        .(sends := if reached.Some? then b.sends + [Broadcast(key, reached.value)] else b.sends)
    case SendReturns(c) =>
      if At(b, c).InFlight? && At(b, c).reached.Some? then Put(b, c, Returned(At(b, c).key, At(b, c).reached.value))
      else b
    case SendErrors(c) =>
      if At(b, c).InFlight? || At(b, c).Returned? then Put(b, c, Stuck(At(b, c).key)) else b
    case MarkSubmitted(c) =>
      if At(b, c).Returned? && At(b, c).key in b.rows
      then Put(b, c, Succeeded(At(b, c).key, At(b, c).hash)).(rows := MarkedRows(b.rows, At(b, c).key, At(b, c).hash))
      else b
  }

  function Execute(b: Bridge, actions: seq<Action>): Bridge {
    if actions == [] then b
    else Step(Execute(b, actions[..|actions| - 1]), actions[|actions| - 1])
  }

  // ---------------------------------------------------------------- the invariant

  /** The key whose claim a call is responsible for. */
  function Holding(call: Call): Option<string> {
    match call
    case Claimed(key) => Some(key)
    case Ready(key) => Some(key)
    case Aborting(key) => Some(key)
    case InFlight(key, _) => Some(key)
    case Returned(key, _) => Some(key)
    case Stuck(key) => Some(key)
    case _ => None
  }

  predicate BeforeSend(call: Call) { call.Claimed? || call.Ready? || call.Aborting? }

  /** The send a call knows it made. */
  function Knows(call: Call): Option<Broadcast> {
    match call
    case InFlight(key, Some(hash)) => Some(Broadcast(key, hash))
    case Returned(key, hash) => Some(Broadcast(key, hash))
    case _ => None
  }

  ghost predicate CallHolds(b: Bridge, call: Call) {
    && (Holding(call).Some? ==> Holding(call).value in b.rows && b.rows[Holding(call).value].sent.None?)
    && (BeforeSend(call) ==> forall k :: 0 <= k < |b.sends| ==> b.sends[k].key != call.key)
    && (Knows(call).Some? ==> Knows(call).value in b.sends)
    && (call.Succeeded? ==> call.key in b.rows && b.rows[call.key].sent == Some(call.hash))
  }

  ghost predicate SendsHold(b: Bridge) {
    && (forall k :: 0 <= k < |b.sends| ==> b.sends[k].key in b.rows)
    && (forall k, l :: 0 <= k < l < |b.sends| ==> b.sends[k].key != b.sends[l].key && b.sends[k].hash != b.sends[l].hash)
    && (forall key :: key in b.rows && b.rows[key].sent.Some? ==> Broadcast(key, b.rows[key].sent.value) in b.sends)
  }

  ghost predicate Holds(b: Bridge) {
    && SendsHold(b)
    && (forall c :: c in b.calls ==> CallHolds(b, b.calls[c]))
    && (forall c, d :: c in b.calls && d in b.calls && c != d && Holding(b.calls[c]).Some?
                       ==> Holding(b.calls[c]) != Holding(b.calls[d]))
  }

  lemma StepHolds(b: Bridge, a: Action)
    requires Holds(b)
    ensures Holds(Step(b, a))
  {
    match a
    case Claim(c, record) => ClaimHolds(b, c, record);
    case Requote(c, _, _, _) => LocalStepHolds(b, a);
    case FailBeforeSend(_) => LocalStepHolds(b, a);
    case Abandon(c) => AbandonHolds(b, c);
    case AttemptSend(c, reached) => SendHolds(b, c, reached);
    case SendReturns(_) => LocalStepHolds(b, a);
    case SendErrors(_) => LocalStepHolds(b, a);
    case MarkSubmitted(c) => MarkHolds(b, c);
  }

  /** A call that moves along keeps its key and what it knows. */
  lemma LocalStepMoves(b: Bridge, a: Action)
    requires a.Requote? || a.FailBeforeSend? || a.SendReturns? || a.SendErrors?
    requires a.c in b.calls && CallHolds(b, b.calls[a.c])
    ensures var after := Step(b, a);
            && a.c in after.calls && after == Put(b, a.c, after.calls[a.c])
            && Holding(after.calls[a.c]) == Holding(b.calls[a.c]) && CallHolds(after, after.calls[a.c])
  {
    assert b.calls[a.c := b.calls[a.c]] == b.calls;
  }

  /** Steps that move one call along without touching rows or sends. */
  lemma LocalStepHolds(b: Bridge, a: Action)
    requires Holds(b) && (a.Requote? || a.FailBeforeSend? || a.SendReturns? || a.SendErrors?)
    ensures Holds(Step(b, a))
  {
    if a.c in b.calls {
      LocalStepMoves(b, a);
      hide Step, Holding, Knows;
      var after := Step(b, a);
      forall c | c in after.calls ensures CallHolds(after, after.calls[c]) {
        if c != a.c { SameRowsSameCall(b, after, b.calls[c]); }
      }
      assert SendsHold(after);
    } else {
      assert Step(b, a) == b;
    }
  }

  lemma SameRowsSameCall(before: Bridge, after: Bridge, call: Call)
    requires CallHolds(before, call) && after == before.(calls := after.calls)
    ensures CallHolds(after, call)
  {
  }

  lemma ClaimHolds(b: Bridge, c: nat, record: Record)
    requires Holds(b)
    ensures Holds(Step(b, Claim(c, record)))
  {
    var after := Step(b, Claim(c, record));
    assert SendsHold(after);
    forall d | d in after.calls ensures CallHolds(after, after.calls[d]) {
      if d in b.calls { assert CallHolds(b, b.calls[d]); }
    }
    forall d, e | d in after.calls && e in after.calls && d != e && Holding(after.calls[d]).Some?
      ensures Holding(after.calls[d]) != Holding(after.calls[e])
    {
      if d in b.calls { assert CallHolds(b, b.calls[d]); }
      if e in b.calls { assert CallHolds(b, b.calls[e]); }
    }
  }

  lemma AbandonHolds(b: Bridge, c: nat)
    requires Holds(b)
    ensures Holds(Step(b, Abandon(c)))
  {
  }

  lemma SendHolds(b: Bridge, c: nat, reached: Option<string>)
    requires Holds(b)
    ensures Holds(Step(b, AttemptSend(c, reached)))
  {
  }

  lemma MarkHolds(b: Bridge, c: nat)
    requires Holds(b)
    ensures Holds(Step(b, MarkSubmitted(c)))
  {
  }

  lemma {:induction false} EveryScheduleHolds(b: Bridge, actions: seq<Action>)
    requires Holds(b)
    ensures Holds(Execute(b, actions))
  {
    if actions != [] {
      EveryScheduleHolds(b, actions[..|actions| - 1]);
      StepHolds(Execute(b, actions[..|actions| - 1]), actions[|actions| - 1]);
    }
  }

  // ---------------------------------------------------------------- what every schedule guarantees

  /** However submissions overlap, fail or crash, at most one transfer per
      idempotency key is ever broadcast, and its row is there to stop the next. */
  lemma BroadcastsAtMostOnce(actions: seq<Action>, k: nat, l: nat)
    requires k < |Execute(Initial, actions).sends| && l < |Execute(Initial, actions).sends|
    requires Execute(Initial, actions).sends[k].key == Execute(Initial, actions).sends[l].key
    ensures k == l
    ensures Execute(Initial, actions).sends[k].key in Execute(Initial, actions).rows
  {
    EveryScheduleHolds(Initial, actions);
  }

  /** A submitted row carries the hash of the one send made for its key, and the
      transfer id names that row alone. */
  lemma SubmittedRowNamesItsSend(actions: seq<Action>, key: string)
    requires key in Execute(Initial, actions).rows && Execute(Initial, actions).rows[key].sent.Some?
    ensures var b := Execute(Initial, actions);
            && Broadcast(key, b.rows[key].sent.value) in b.sends
            && (forall k :: 0 <= k < |b.sends| && b.sends[k].key == key ==> b.sends[k].hash == b.rows[key].sent.value)
            && (forall other :: other in b.rows && b.rows[other].sent == b.rows[key].sent ==> other == key)
  {
    EveryScheduleHolds(Initial, actions);
    var b := Execute(Initial, actions);
    var k :| 0 <= k < |b.sends| && b.sends[k] == Broadcast(key, b.rows[key].sent.value);
    forall other | other in b.rows && b.rows[other].sent == b.rows[key].sent ensures other == key {
      var l :| 0 <= l < |b.sends| && b.sends[l] == Broadcast(other, b.rows[other].sent.value);
      assert k == l;
    }
  }

  /** Once a send was attempted, whether or not it reached a node, the claim row is
      never removed again. */
  lemma {:induction false} AttemptedRowIsNeverRemoved(b: Bridge, actions: seq<Action>, key: string)
    requires Holds(b) && IsPinned(b, key)
    ensures IsPinned(Execute(b, actions), key) && key in Execute(b, actions).rows
  {
    if actions != [] {
      var init, last := actions[..|actions| - 1], actions[|actions| - 1];
      AttemptedRowIsNeverRemoved(b, init, key);
      EveryScheduleHolds(b, init);
      PinnedStaysPinned(Execute(b, init), last, key);
      EveryScheduleHolds(b, actions);
    }
    if c :| c in Execute(b, actions).calls && Pins(Execute(b, actions).calls[c], key) {
      EveryScheduleHolds(b, actions);
      assert CallHolds(Execute(b, actions), Execute(b, actions).calls[c]);
    }
  }

  /** A call that attempted its send and has not heard back, or a submitted row. */
  predicate Pins(call: Call, key: string) {
    !BeforeSend(call) && Holding(call) == Some(key)
  }

  ghost predicate IsPinned(b: Bridge, key: string) {
    || (key in b.rows && b.rows[key].sent.Some?)
    || (exists c :: c in b.calls && Pins(b.calls[c], key))
  }

  lemma SubmittedStaysSubmitted(b: Bridge, a: Action, key: string)
    requires Holds(b) && key in b.rows && b.rows[key].sent.Some?
    ensures key in Step(b, a).rows && Step(b, a).rows[key].sent.Some?
  {
    if a.Abandon? && At(b, a.c).Aborting? {
      assert CallHolds(b, b.calls[a.c]);
    }
    hide Holds;
  }

  lemma PinningCallStays(b: Bridge, a: Action, c: nat, key: string)
    requires c in b.calls && Pins(b.calls[c], key) && CallHolds(b, b.calls[c])
    ensures var after := Step(b, a);
            (c in after.calls && Pins(after.calls[c], key)) || (key in after.rows && after.rows[key].sent.Some?)
  {
  }

  lemma PinnedStaysPinned(b: Bridge, a: Action, key: string)
    requires Holds(b) && IsPinned(b, key)
    ensures IsPinned(Step(b, a), key)
  {
    hide Step, Pins;
    if key in b.rows && b.rows[key].sent.Some? {
      SubmittedStaysSubmitted(b, a, key);
    } else {
      var c :| c in b.calls && Pins(b.calls[c], key);
      assert CallHolds(b, b.calls[c]);
      PinningCallStays(b, a, c, key);
    }
  }

  /** All calls that succeed for a key report the same transfer. */
  lemma SuccessesAgree(actions: seq<Action>, c: nat, d: nat)
    requires c in Execute(Initial, actions).calls && d in Execute(Initial, actions).calls
    requires Execute(Initial, actions).calls[c].Succeeded? && Execute(Initial, actions).calls[d].Succeeded?
    requires Execute(Initial, actions).calls[c].key == Execute(Initial, actions).calls[d].key
    ensures Execute(Initial, actions).calls[c].hash == Execute(Initial, actions).calls[d].hash
  {
    EveryScheduleHolds(Initial, actions);
    var b := Execute(Initial, actions);
    assert CallHolds(b, b.calls[c]) && CallHolds(b, b.calls[d]);
  }

  // ---------------------------------------------------------------- keys that stay blocked

  /** Some call answers for the key. */
  ghost predicate IsHeld(b: Bridge, key: string) {
    exists c :: c in b.calls && Holding(b.calls[c]) == Some(key)
  }

  predicate IsBlocked(b: Bridge, key: string) {
    key in b.rows && b.rows[key].sent.None?
  }

  /** Every claimed row has a call that answers for it. */
  ghost predicate RowsAreHeld(b: Bridge) {
    forall key :: IsBlocked(b, key) ==> IsHeld(b, key)
  }

  lemma StepKeepsRowsHeld(b: Bridge, a: Action)
    requires Holds(b) && RowsAreHeld(b)
    ensures RowsAreHeld(Step(b, a))
  {
    var after := Step(b, a);
    if a.c in b.calls { assert CallHolds(b, b.calls[a.c]); }
    forall key | IsBlocked(after, key) ensures IsHeld(after, key) {
      if IsBlocked(b, key) {
        var c :| c in b.calls && Holding(b.calls[c]) == Some(key);
        assert Holding(after.calls[c]) == Some(key);
      } else {
        assert a.Claim? && Holding(after.calls[a.c]) == Some(key);
      }
    }
  }

  lemma {:induction false} EveryRowIsHeld(b: Bridge, actions: seq<Action>)
    requires Holds(b) && RowsAreHeld(b)
    ensures Holds(Execute(b, actions)) && RowsAreHeld(Execute(b, actions))
  {
    EveryScheduleHolds(b, actions);
    if actions != [] {
      var init := actions[..|actions| - 1];
      EveryRowIsHeld(b, init);
      StepKeepsRowsHeld(Execute(b, init), actions[|actions| - 1]);
    }
  }

  /** A new call on a key is refused exactly while another call answers for it. */
  lemma ClaimIsRefusedExactlyWhileHeld(b: Bridge, d: nat, record: Record)
    requires Holds(b) && RowsAreHeld(b) && d !in b.calls && record.sent.None?
    ensures Step(b, Claim(d, record)).calls[d] == Refused <==> IsHeld(b, record.key)
  {
    if IsHeld(b, record.key) {
      var c :| c in b.calls && Holding(b.calls[c]) == Some(record.key);
      assert CallHolds(b, b.calls[c]);
    }
  }

  /** The send went wrong, or its answer can only be an error. */
  predicate IsDoomed(call: Call) {
    call.Stuck? || (call.InFlight? && call.reached.None?)
  }

  predicate LeavesOut(actions: seq<Action>, stopped: set<nat>) {
    forall k :: 0 <= k < |actions| ==> actions[k].c !in stopped
  }

  /** The call holds the key and will never let go of it. */
  predicate KeepsBlocked(b: Bridge, c: nat, key: string, stopped: set<nat>) {
    c in b.calls && Holding(b.calls[c]) == Some(key) && (c in stopped || IsDoomed(b.calls[c]))
  }

  /** Which keys stay blocked whatever the living calls do: exactly those held by a
      call that stopped anywhere between its claim and its mark, or by one whose
      send failed or lost its answer. Every other claim can still be given up or
      submitted. */
  lemma BlockedForGoodExactlyWhen(b: Bridge, key: string, stopped: set<nat>)
    requires Holds(b) && RowsAreHeld(b)
    ensures (forall actions :: LeavesOut(actions, stopped) ==> IsBlocked(Execute(b, actions), key))
            <==> exists c :: KeepsBlocked(b, c, key, stopped)
  {
    if c :| KeepsBlocked(b, c, key, stopped) {
      forall actions | LeavesOut(actions, stopped) ensures IsBlocked(Execute(b, actions), key) {
        BlockingCallBlocks(b, actions, c, key, stopped);
      }
    } else if IsBlocked(b, key) {
      var c :| c in b.calls && Holding(b.calls[c]) == Some(key);
      assert !KeepsBlocked(b, c, key, stopped);
      LivingCallLetsGo(b, c, key);
      assert LeavesOut(LettingGo(c, b.calls[c]), stopped);
    } else {
      assert LeavesOut([], stopped) && Execute(b, []) == b;
    }
  }

  lemma BlockingCallStays(b: Bridge, a: Action, c: nat, key: string, stopped: set<nat>)
    requires Holds(b) && KeepsBlocked(b, c, key, stopped) && a.c !in stopped
    ensures KeepsBlocked(Step(b, a), c, key, stopped)
    ensures b.calls[c].Stuck? ==> Step(b, a).calls[c] == b.calls[c]
  {
    hide Holds;
  }

  lemma {:induction false} BlockingCallBlocks(b: Bridge, actions: seq<Action>, c: nat, key: string, stopped: set<nat>)
    requires Holds(b) && KeepsBlocked(b, c, key, stopped) && LeavesOut(actions, stopped)
    ensures KeepsBlocked(Execute(b, actions), c, key, stopped)
    ensures IsBlocked(Execute(b, actions), key)
    ensures b.calls[c].Stuck? ==> Execute(b, actions).calls[c] == b.calls[c]
  {
    EveryScheduleHolds(b, actions);
    if actions != [] {
      var init := actions[..|actions| - 1];
      assert LeavesOut(init, stopped);
      BlockingCallBlocks(b, init, c, key, stopped);
      EveryScheduleHolds(b, init);
      hide Step;
      BlockingCallStays(Execute(b, init), actions[|actions| - 1], c, key, stopped);
    }
    assert CallHolds(Execute(b, actions), Execute(b, actions).calls[c]);
  }

  /** How a call that is neither stopped nor doomed ends its claim. */
  function LettingGo(c: nat, call: Call): seq<Action> {
    match call
    case Aborting(_) => [Abandon(c)]
    case InFlight(_, _) => [SendReturns(c), MarkSubmitted(c)]
    case Returned(_, _) => [MarkSubmitted(c)]
    case _ => [FailBeforeSend(c), Abandon(c)]
  }

  lemma ExecuteOne(b: Bridge, x: Action)
    ensures Execute(b, [x]) == Step(b, x)
  {
    assert [x][..0] == [] && Execute(b, []) == b;
  }

  lemma ExecuteTwo(b: Bridge, x: Action, y: Action)
    ensures Execute(b, [x, y]) == Step(Step(b, x), y)
  {
    hide Step;
    assert [x, y][..1] == [x];
    ExecuteOne(b, x);
  }

  /** The call answers for the key, which is still only claimed. */
  predicate IsHeldBy(b: Bridge, c: nat, key: string) {
    c in b.calls && Holding(b.calls[c]) == Some(key) && IsBlocked(b, key)
  }

  /** A call that gives up, or marks what its send returned, ends the block. */
  lemma LastStepLetsGo(b: Bridge, c: nat, key: string)
    requires IsHeldBy(b, c, key)
    ensures b.calls[c].Aborting? ==> !IsBlocked(Step(b, Abandon(c)), key)
    ensures b.calls[c].Returned? ==> !IsBlocked(Step(b, MarkSubmitted(c)), key)
  {
  }

  lemma ReturnedCallLetsGo(b: Bridge, c: nat, key: string)
    requires IsHeldBy(b, c, key) && b.calls[c].InFlight? && b.calls[c].reached.Some?
    ensures !IsBlocked(Step(Step(b, SendReturns(c)), MarkSubmitted(c)), key)
  {
    LastStepLetsGo(Put(b, c, Returned(key, b.calls[c].reached.value)), c, key);
  }

  lemma UnsentCallLetsGo(b: Bridge, c: nat, key: string)
    requires IsHeldBy(b, c, key) && (b.calls[c].Claimed? || b.calls[c].Ready?)
    ensures !IsBlocked(Step(Step(b, FailBeforeSend(c)), Abandon(c)), key)
  {
    LastStepLetsGo(Put(b, c, Aborting(key)), c, key);
  }

  lemma LivingCallLetsGo(b: Bridge, c: nat, key: string)
    requires Holds(b) && c in b.calls && Holding(b.calls[c]) == Some(key) && !IsDoomed(b.calls[c])
    ensures !IsBlocked(Execute(b, LettingGo(c, b.calls[c])), key)
  {
    assert CallHolds(b, b.calls[c]);
    assert IsHeldBy(b, c, key);
    hide Step, Holds, Execute, CallHolds, IsBlocked;
    match b.calls[c]
    case Aborting(_) =>
      ExecuteOne(b, Abandon(c));
      LastStepLetsGo(b, c, key);
    case Returned(_, _) =>
      ExecuteOne(b, MarkSubmitted(c));
      LastStepLetsGo(b, c, key);
    case InFlight(_, _) =>
      ExecuteTwo(b, SendReturns(c), MarkSubmitted(c));
      ReturnedCallLetsGo(b, c, key);
    case _ =>
      ExecuteTwo(b, FailBeforeSend(c), Abandon(c));
      UnsentCallLetsGo(b, c, key);
  }

  lemma {:induction false} RefusedStaysRefused(b: Bridge, actions: seq<Action>, d: nat)
    requires d in b.calls && b.calls[d] == Refused
    ensures d in Execute(b, actions).calls && Execute(b, actions).calls[d] == Refused
  {
    if actions != [] {
      RefusedStaysRefused(b, actions[..|actions| - 1], d);
    }
  }

  lemma {:induction false} ExecuteJoins(b: Bridge, before: seq<Action>, actions: seq<Action>)
    ensures Execute(b, before + actions) == Execute(Execute(b, before), actions)
  {
    if actions == [] {
      assert before + actions == before;
    } else {
      var init := actions[..|actions| - 1];
      ExecuteJoins(b, before, init);
      assert (before + actions)[..|before + actions| - 1] == before + init;
    }
  }

  /** The price of safety: a send whose answer was lost blocks its key for good. In
      every continuation of every schedule its call stays stuck, its row stays
      claimed, and every later call on the key ends refused. */
  lemma LostAnswerBlocksKey(before: seq<Action>, c: nat, key: string, actions: seq<Action>)
    requires At(Execute(Initial, before), c) == Stuck(key)
    ensures var after := Execute(Initial, before + actions);
            && At(after, c) == Stuck(key) && IsBlocked(after, key)
            && forall k :: 0 <= k < |actions| && IsNewClaim(Execute(Initial, before + actions[..k]), actions[k], key)
                           ==> At(after, actions[k].c) == Refused
  {
    var b := Execute(Initial, before);
    EveryScheduleHolds(Initial, before);
    ExecuteJoins(Initial, before, actions);
    assert KeepsBlocked(b, c, key, {});
    BlockingCallBlocks(b, actions, c, key, {});
    forall k | 0 <= k < |actions| && IsNewClaim(Execute(Initial, before + actions[..k]), actions[k], key)
      ensures At(Execute(Initial, before + actions), actions[k].c) == Refused
    {
      ExecuteJoins(Initial, before, actions[..k]);
      BlockingCallBlocks(b, actions[..k], c, key, {});
      LateClaimIsRefused(b, actions, k, key);
    }
  }

  predicate IsNewClaim(b: Bridge, a: Action, key: string) {
    a.Claim? && a.record.key == key && a.record.sent.None? && a.c !in b.calls
  }

  lemma LateClaimIsRefused(b: Bridge, actions: seq<Action>, k: nat, key: string)
    requires k < |actions| && IsNewClaim(Execute(b, actions[..k]), actions[k], key)
    requires IsBlocked(Execute(b, actions[..k]), key)
    ensures At(Execute(b, actions), actions[k].c) == Refused
  {
    var claimed := actions[..k + 1];
    assert claimed[..k] == actions[..k];
    assert Execute(b, claimed) == Step(Execute(b, actions[..k]), actions[k]);
    ExecuteJoins(b, claimed, actions[k + 1..]);
    assert claimed + actions[k + 1..] == actions;
    RefusedStaysRefused(Execute(b, claimed), actions[k + 1..], actions[k].c);
  }

  /** It does happen: the transfer went out, its answer did not come back, and the
      next call on the key is refused. */
  lemma AnswerCanBeLost(record: Record, hash: string)
    requires record.sent.None?
    ensures var actions := [Claim(0, record), Requote(0, Ok(record.minimumOut), 0, 0), AttemptSend(0, Some(hash)), SendErrors(0)];
            var after := Execute(Initial, actions);
            && after.sends == [Broadcast(record.key, hash)] && At(after, 0) == Stuck(record.key)
            && At(Step(after, Claim(1, record)), 1) == Refused
  {
    var actions := [Claim(0, record), Requote(0, Ok(record.minimumOut), 0, 0), AttemptSend(0, Some(hash)), SendErrors(0)];
    assert actions[..3] == [Claim(0, record), Requote(0, Ok(record.minimumOut), 0, 0), AttemptSend(0, Some(hash))];
    assert actions[..3][..2] == [Claim(0, record), Requote(0, Ok(record.minimumOut), 0, 0)];
    assert actions[..3][..2][..1] == [Claim(0, record)];
    assert actions[..3][..2][..1][..0] == [];
    assert Execute(Initial, actions[..3][..2][..1]) == Step(Initial, actions[0]);
    assert Execute(Initial, actions[..3][..2]) == Step(Step(Initial, actions[0]), actions[1]);
    assert Execute(Initial, actions[..3]) == Step(Step(Step(Initial, actions[0]), actions[1]), actions[2]);
  }
}
