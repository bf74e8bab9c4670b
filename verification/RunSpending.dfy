/** Procurement and the target together: what one run can cost its customer. */
module RunSpending {
  import opened Wrappers
  import opened Decimal
  import opened ExactEvm
  import Buyer = Procurement
  import Target = DemoTarget

  // ---------------------------------------------------------------- one header, one settlement

  /** The transfer at position `k` of the token's log was made for a request that
      presented `header`. */
  predicate Settles(t: Target.World, k: nat, header: Header) {
    && k < |t.log| && t.log[k].maker.Some?
    && t.log[k].maker.value in t.requests
    && t.requests[t.log[k].maker.value].presented == Some(header)
  }

  /** One header moves money at most once, whichever version the target runs, and
      then exactly what it authorizes. */
  lemma HeaderSettlesOnce(t: Target.World, actions: seq<Target.Action>, header: Header, k: nat, l: nat)
    requires Target.IsInitial(t)
    requires Settles(Target.Execute(t, actions), k, header) && Settles(Target.Execute(t, actions), l, header)
    ensures k == l
    ensures IsDecoded(header) && Target.Execute(t, actions).log[k].value == ValueOf(header.authorization.value)
  {
    Target.EveryScheduleHolds(t, actions);
    SettlesOnce(Target.Execute(t, actions), header, k, l);
  }

  lemma SettlesOnce(t: Target.World, header: Header, k: nat, l: nat)
    requires Target.Holds(t) && Settles(t, k, header) && Settles(t, l, header)
    ensures k == l && IsDecoded(header) && t.log[k].value == ValueOf(header.authorization.value)
  {
  }

  // ---------------------------------------------------------------- one run, one header

  /** After `n` steps some attempt of the run goes by this header: what it presents,
      then or later, crashed or not. */
  ghost predicate IsPresented(w: Buyer.World, steps: seq<Buyer.Action>, n: nat, header: Header) {
    && n <= |steps|
    && exists i :: i in Buyer.Execute(w, steps[..n]).attempts && GoesBy(Buyer.Execute(w, steps[..n]).attempts[i], header)
  }

  predicate GoesBy(attempt: Buyer.Attempt, header: Header) {
    var payment := Buyer.PaymentOf(attempt);
    payment.Some? && payment.value == header
  }

  /** Any header that any attempt of the run ever presents is the one the row keeps
      for good. */
  lemma PresentedIsTheRows(w: Buyer.World, steps: seq<Buyer.Action>, n: nat, header: Header)
    requires Buyer.IsInitial(w) && IsPresented(w, steps, n, header)
    ensures var row := Buyer.Execute(w, steps).row;
            && row.purchaseReceipt.Some? && row.purchaseReceipt.value == header
            && Buyer.AmountOf(row.purchaseReceipt.value) <= w.budget
  {
    var i :| i in Buyer.Execute(w, steps[..n]).attempts && GoesBy(Buyer.Execute(w, steps[..n]).attempts[i], header);
    Buyer.AttemptsAgreeOnPayment(w, steps[..n], i, i);
    Buyer.RowOnlyGrows(w, steps, n);
  }

  // ---------------------------------------------------------------- the run's money

  /** The transfer was made for a header that the run presented at some time. */
  ghost predicate IsRunsSettlement(w: Buyer.World, steps: seq<Buyer.Action>, t: Target.World, k: nat) {
    exists n, header :: IsPresented(w, steps, n, header) && Settles(t, k, header)
  }

  ghost predicate HasSettled(w: Buyer.World, steps: seq<Buyer.Action>, t: Target.World, k: nat) {
    exists l: nat :: l < k && IsRunsSettlement(w, steps, t, l)
  }

  predicate IsRefund(w: Buyer.World, i: nat) {
    i < |w.mined| && !Buyer.IsUnrelated(w, w.mined[i])
  }

  ghost predicate HasRefunded(w: Buyer.World, j: nat) {
    exists i: nat :: i < j && IsRefund(w, i)
  }

  ghost function TotalSettled(w: Buyer.World, steps: seq<Buyer.Action>, t: Target.World, k: nat): nat
    requires k <= |t.log|
  {
    if k == 0 then 0
    else TotalSettled(w, steps, t, k - 1) + if IsRunsSettlement(w, steps, t, k - 1) then t.log[k - 1].value else 0
  }

  /** What the run's refunds among the wallet's first `j` transactions come to. */
  function TotalRefunded(w: Buyer.World, j: nat): int
    requires j <= |w.mined|
  {
    if j == 0 then 0
    else TotalRefunded(w, j - 1) + if Buyer.IsUnrelated(w, w.mined[j - 1]) then 0 else w.mined[j - 1].body.value
  }

  /** The run's settlements: all of them are one, of the row's payment. */
  lemma RunSettlesOnce(w: Buyer.World, steps: seq<Buyer.Action>, t: Target.World, actions: seq<Target.Action>, k: nat, l: nat)
    requires Buyer.IsInitial(w) && Target.IsInitial(t)
    requires IsRunsSettlement(w, steps, Target.Execute(t, actions), k)
    requires IsRunsSettlement(w, steps, Target.Execute(t, actions), l)
    ensures k == l < |Target.Execute(t, actions).log| && Buyer.Execute(w, steps).row.purchaseReceipt.Some?
    ensures Target.Execute(t, actions).log[k].value == Buyer.AmountOf(Buyer.Execute(w, steps).row.purchaseReceipt.value)
    ensures Target.Execute(t, actions).log[k].value <= w.budget
  {
    var after := Target.Execute(t, actions);
    var n, header :| IsPresented(w, steps, n, header) && Settles(after, k, header);
    var m, other :| IsPresented(w, steps, m, other) && Settles(after, l, other);
    hide Buyer.Execute, Target.Execute;
    PresentedIsTheRows(w, steps, n, header);
    PresentedIsTheRows(w, steps, m, other);
    HeaderSettlesOnce(t, actions, header, k, l);
  }

  lemma {:induction false} SettledIsOnePayment(
      w: Buyer.World, steps: seq<Buyer.Action>, t: Target.World, actions: seq<Target.Action>, k: nat)
    requires Buyer.IsInitial(w) && Target.IsInitial(t) && k <= |Target.Execute(t, actions).log|
    ensures var after, total := Target.Execute(t, actions), TotalSettled(w, steps, Target.Execute(t, actions), k);
            if HasSettled(w, steps, after, k)
            then
              var row := Buyer.Execute(w, steps).row;
              row.purchaseReceipt.Some? && total == Buyer.AmountOf(row.purchaseReceipt.value)
            else total == 0
  {
    var after := Target.Execute(t, actions);
    hide Buyer.Execute, Target.Execute, IsRunsSettlement;
    assert HasSettled(w, steps, after, k) <==>
           k > 0 && (HasSettled(w, steps, after, k - 1) || IsRunsSettlement(w, steps, after, k - 1));
    if k > 0 {
      SettledIsOnePayment(w, steps, t, actions, k - 1);
      var last: nat := k - 1;
      if HasSettled(w, steps, after, last) {
        var l: nat :| l < last && IsRunsSettlement(w, steps, after, l);
        if IsRunsSettlement(w, steps, after, last) { RunSettlesOnce(w, steps, t, actions, l, last); }
      } else if IsRunsSettlement(w, steps, after, last) {
        RunSettlesOnce(w, steps, t, actions, last, last);
      }
    }
  }

  lemma {:induction false} RefundedIsOneRemainder(w: Buyer.World, steps: seq<Buyer.Action>, j: nat)
    requires Buyer.IsInitial(w) && j <= |Buyer.Execute(w, steps).mined|
    ensures var after, total := Buyer.Execute(w, steps), TotalRefunded(Buyer.Execute(w, steps), j);
            if HasRefunded(after, j)
            then after.row.purchaseReceipt.Some? && total == w.budget - Buyer.AmountOf(after.row.purchaseReceipt.value)
            else total == 0
  {
    var after := Buyer.Execute(w, steps);
    Buyer.EveryScheduleHolds(w, steps);
    hide Buyer.Execute, Buyer.Holds;
    assert HasRefunded(after, j) <==> j > 0 && (HasRefunded(after, j - 1) || IsRefund(after, j - 1));
    if j > 0 {
      RefundedIsOneRemainder(w, steps, j - 1);
      var last: nat := j - 1;
      if HasRefunded(after, last) {
        var i: nat :| i < last && IsRefund(after, i);
        if IsRefund(after, last) { Buyer.AtMostOneRefundLands(w, steps, i, last); }
      } else if IsRefund(after, last) {
        Buyer.AtMostOneRefundLands(w, steps, last, last);
      }
    }
  }

  /** However many attempts a run takes, whatever they race with and wherever they
      crash: everything ever settled for any header that any of them presented, and
      everything ever refunded, never comes to more than the budget, and to exactly
      the budget once a settlement and a refund landed. */
  lemma RunSpendsItsBudgetOnce(w: Buyer.World, steps: seq<Buyer.Action>, t: Target.World, actions: seq<Target.Action>)
    requires Buyer.IsInitial(w) && Target.IsInitial(t)
    ensures var bought, sold := Buyer.Execute(w, steps), Target.Execute(t, actions);
            var spent := TotalSettled(w, steps, sold, |sold.log|) + TotalRefunded(bought, |bought.mined|);
            && 0 <= spent <= w.budget
            && (HasSettled(w, steps, sold, |sold.log|) && HasRefunded(bought, |bought.mined|) ==> spent == w.budget)
  {
    var bought, sold := Buyer.Execute(w, steps), Target.Execute(t, actions);
    SettledIsOnePayment(w, steps, t, actions, |sold.log|);
    RefundedIsOneRemainder(w, steps, |bought.mined|);
    Buyer.EveryScheduleHolds(w, steps);
    assert bought.row.purchaseReceipt.Some? ==> Buyer.AmountOf(bought.row.purchaseReceipt.value) <= w.budget;
    hide Buyer.Execute, Target.Execute, HasSettled, HasRefunded, Buyer.Holds;
  }
}
