/** The payment controller of the Node backend (server/controllers/paymentController.js): a
    simulated charge, the rider's payment history and a refund. The gateway is not called; the
    transaction id it would mint from the clock and a random number is a parameter. */
module PaymentController {
  import opened Wrappers
  import opened RideSchema
  import opened DriverSchema
  import opened DispatchState
  import RideController

  // ---------------------------------------------------------------------------------------------
  // processPayment

  /** The method a request stores: absent when the request gave none, and `None` inside `Some`
      when the name is not one the schema admits (saving then fails). */
  function RequestedMethod(paymentMethod: Option<string>): Option<Option<PaymentMethod>>
  {
    if paymentMethod.None? then Some(None)
    else
      var parsed := ParsePaymentMethod(paymentMethod.value);
      if parsed.None? then None else Some(parsed)
  }

  /** `processPayment`: any party but the ride's rider is refused, and a ride whose payment is
      already completed is refused whatever its status. */
  function ProcessPayment(s: State, caller: Caller, rideId: Id, paymentMethod: Option<string>, transactionId: string): (o: Step)
    ensures o.reply.code in {200, 400, 403, 404, 500}
    ensures o.reply.code != 200 ==> o.next == s
    ensures rideId !in s.rides <==> o.reply.code == 404
    ensures rideId in s.rides && s.rides[rideId].rider != caller.id <==> o.reply.code == 403
    ensures o.reply.code == 400 <==>
      rideId in s.rides && s.rides[rideId].rider == caller.id && s.rides[rideId].payment.status == PaymentCompleted
    ensures o.reply.code == 400 ==> o.reply.body == Message("Payment already completed")
    ensures o.reply.code == 500 <==>
      && rideId in s.rides && s.rides[rideId].rider == caller.id
      && s.rides[rideId].payment.status != PaymentCompleted
      && paymentMethod.Some? && paymentMethod.value !in {"cash", "card", "wallet"}
    ensures o.reply.code == 200 <==>
      && rideId in s.rides && s.rides[rideId].rider == caller.id
      && s.rides[rideId].payment.status != PaymentCompleted
      && (paymentMethod.None? || paymentMethod.value in {"cash", "card", "wallet"})
    ensures o.reply.code == 200 ==>
      && o.reply.body == PaymentReceipt(transactionId, s.rides[rideId].fare.total)
      && rideId in o.next.rides
      && o.next.rides == s.rides[rideId := o.next.rides[rideId]]
      && o.next.rides[rideId].payment.status == PaymentCompleted
      && o.next.rides[rideId].payment.transactionId == Some(transactionId)
      && o.next.rides[rideId].(payment := s.rides[rideId].payment) == s.rides[rideId]
      && o.next.(rides := s.rides) == s
  {
    if rideId !in s.rides then
      Step(Reply(404, Message("Ride not found")), s)
    else
      var ride := s.rides[rideId];
      if ride.rider != caller.id then
        Step(Reply(403, Message("Not authorized")), s)
      else if ride.payment.status == PaymentCompleted then
        Step(Reply(400, Message("Payment already completed")), s)
      else
        var chosen := RequestedMethod(paymentMethod);
        if chosen.None? then
          Step(Reply(500, Message("Error processing payment")), s)
        else
          var paid := ride.(payment := ride.payment.(paymentMethod := chosen.value, status := PaymentCompleted,
                                                       transactionId := Some(transactionId)));
          Step(Reply(200, PaymentReceipt(transactionId, ride.fare.total)), s.(rides := s.rides[rideId := paid]))
  }

  method HandleProcessPayment(db: Database, caller: Caller, rideId: Id, paymentMethod: Option<string>, transactionId: string)
    returns (reply: Reply)
    modifies db
    ensures Step(reply, db.Snapshot()) == ProcessPayment(old(db.Snapshot()), caller, rideId, paymentMethod, transactionId)
  {
    if rideId !in db.rides {
      return Reply(404, Message("Ride not found"));
    }
    var ride := db.rides[rideId];
    if ride.rider != caller.id {
      return Reply(403, Message("Not authorized"));
    }
    if ride.payment.status == PaymentCompleted {
      return Reply(400, Message("Payment already completed"));
    }
    var chosen := RequestedMethod(paymentMethod);
    if chosen.None? {
      // the enum validator rejects the save
      return Reply(500, Message("Error processing payment"));
    }
    ride := ride.(payment := ride.payment.(paymentMethod := chosen.value));
    ride := ride.(payment := ride.payment.(status := PaymentCompleted));
    ride := ride.(payment := ride.payment.(transactionId := Some(transactionId)));
    db.rides := db.rides[rideId := ride];
    reply := Reply(200, PaymentReceipt(transactionId, ride.fare.total));
  }

  /** A second charge of the same ride is refused. */
  lemma SecondPaymentRefused(s: State, caller: Caller, rideId: Id, m1: Option<string>, t1: string, m2: Option<string>, t2: string)
    requires ProcessPayment(s, caller, rideId, m1, t1).reply.code == 200
    ensures var s1 := ProcessPayment(s, caller, rideId, m1, t1).next;
      ProcessPayment(s1, caller, rideId, m2, t2) == Step(Reply(400, Message("Payment already completed")), s1)
  {
  }

  /** Completing a ride already marks its payment completed, so the rider can no longer pay for it. */
  lemma CompletedRideRejectsPayment(s: State, who: Caller, rideId: Id, payer: Caller, m: Option<string>, t: string)
    requires RideController.UpdateRideStatus(s, who, rideId, "completed").reply.code == 200
    requires rideId in s.rides && payer.id == s.rides[rideId].rider
    ensures var s1 := RideController.UpdateRideStatus(s, who, rideId, "completed").next;
      ProcessPayment(s1, payer, rideId, m, t) == Step(Reply(400, Message("Payment already completed")), s1)
  {
  }

  lemma PaymentKeepsInvariants(s: State, caller: Caller, rideId: Id, m: Option<string>, t: string)
    requires FreshIds(s) && EngagedUnavailable(s)
    ensures FreshIds(ProcessPayment(s, caller, rideId, m, t).next)
    ensures EngagedUnavailable(ProcessPayment(s, caller, rideId, m, t).next)
  {
  }

  // ---------------------------------------------------------------------------------------------
  // getPaymentHistory

  const HistoryLimit: nat := 50

  predicate Paid(rides: map<Id, Ride>, rider: Id, id: Id)
  {
    id in rides && rides[id].rider == rider && rides[id].payment.status == PaymentCompleted
  }

  /** The rider's paid rides among the ids below `n`, newest (highest id) first. Ride ids are
      handed out in creation order, so this is the `createdAt` descending sort. */
  function PaidBelow(rides: map<Id, Ride>, rider: Id, n: nat): (r: seq<Id>)
    ensures forall i :: 0 <= i < |r| ==> r[i] < n && Paid(rides, rider, r[i])
    ensures forall i, j :: 0 <= i < j < |r| ==> r[i] > r[j]
    ensures forall id: Id :: id < n && Paid(rides, rider, id) ==> id in r
  {
    if n == 0 then []
    else
      var rest := PaidBelow(rides, rider, n - 1);
      if Paid(rides, rider, n - 1) then [n - 1] + rest else rest
  }

  /** The sum the response reports, folded from the first listed ride. */
  function SumFares(rides: map<Id, Ride>, ids: seq<Id>): int
    requires forall i :: 0 <= i < |ids| ==> ids[i] in rides
  {
    if |ids| == 0 then 0 else SumFares(rides, ids[..|ids| - 1]) + rides[ids[|ids| - 1]].fare.total
  }

  /** The fares of all the rider's paid rides below `n`, independent of any listing order. */
  function PaidTotal(rides: map<Id, Ride>, rider: Id, n: nat): int
  {
    if n == 0 then 0
    else PaidTotal(rides, rider, n - 1) + (if Paid(rides, rider, n - 1) then rides[n - 1].fare.total else 0)
  }

  /** Folding a listing that starts with `x` adds `x`'s fare to the fold of the rest. */
  lemma {:induction false} SumFaresPrepend(rides: map<Id, Ride>, x: Id, ids: seq<Id>)
    requires x in rides && forall i :: 0 <= i < |ids| ==> ids[i] in rides
    ensures SumFares(rides, [x] + ids) == rides[x].fare.total + SumFares(rides, ids)
  {
    if |ids| > 0 {
      var last := |ids| - 1;
      assert ([x] + ids)[..|ids|] == [x] + ids[..last];
      SumFaresPrepend(rides, x, ids[..last]);
    }
  }

  /** The total over the full newest-first listing is the total of every paid ride. */
  lemma {:induction false} SumOfPaidBelow(rides: map<Id, Ride>, rider: Id, n: nat)
    ensures SumFares(rides, PaidBelow(rides, rider, n)) == PaidTotal(rides, rider, n)
  {
    if n > 0 {
      SumOfPaidBelow(rides, rider, n - 1);
      if Paid(rides, rider, n - 1) {
        SumFaresPrepend(rides, n - 1, PaidBelow(rides, rider, n - 1));
      }
    }
  }

  /** Two ride maps that agree on the fares of the listed rides give the same total. */
  lemma {:induction false} SumFaresSameFares(r0: map<Id, Ride>, r1: map<Id, Ride>, ids: seq<Id>)
    requires forall i :: 0 <= i < |ids| ==> ids[i] in r0 && ids[i] in r1 && r1[ids[i]].fare == r0[ids[i]].fare
    ensures SumFares(r1, ids) == SumFares(r0, ids)
  {
    if |ids| > 0 {
      SumFaresSameFares(r0, r1, ids[..|ids| - 1]);
    }
  }

  /** When only ride `k` becomes paid, the listing gains one entry and the total gains `k`'s fare. */
  lemma {:induction false} PaidBelowAfterCharge(r0: map<Id, Ride>, r1: map<Id, Ride>, rider: Id, k: Id, n: nat)
    requires !Paid(r0, rider, k) && Paid(r1, rider, k)
    requires forall id: Id :: id != k ==> (Paid(r1, rider, id) <==> Paid(r0, rider, id))
    requires forall id: Id :: id != k && Paid(r0, rider, id) && Paid(r1, rider, id) ==> r1[id].fare == r0[id].fare
    ensures |PaidBelow(r1, rider, n)| == |PaidBelow(r0, rider, n)| + (if k < n then 1 else 0)
    ensures PaidTotal(r1, rider, n) == PaidTotal(r0, rider, n) + (if k < n then r1[k].fare.total else 0)
  {
    if n > 0 {
      PaidBelowAfterCharge(r0, r1, rider, k, n - 1);
    }
  }

  /** When the paid rides are the same, so is the listing. */
  lemma {:induction false} PaidBelowSame(r0: map<Id, Ride>, r1: map<Id, Ride>, rider: Id, n: nat)
    requires forall id: Id :: Paid(r1, rider, id) <==> Paid(r0, rider, id)
    ensures PaidBelow(r1, rider, n) == PaidBelow(r0, rider, n)
  {
    if n > 0 {
      PaidBelowSame(r0, r1, rider, n - 1);
    }
  }

  /** `getPaymentHistory`: the caller's rides with a completed payment, newest first, at most 50,
      with the sum of their fares and their count. */
  function GetPaymentHistory(s: State, caller: Caller): (r: Reply)
    requires FreshIds(s)
    ensures r.code == 200 && r.body.PaymentHistory?
    ensures |r.body.payments| <= HistoryLimit && r.body.count == |r.body.payments|
    ensures forall i :: 0 <= i < |r.body.payments| ==>
      r.body.payments[i] in s.rides && Paid(s.rides, caller.id, r.body.payments[i])
    ensures forall i, j :: 0 <= i < j < |r.body.payments| ==> r.body.payments[i] > r.body.payments[j]
    ensures |r.body.payments| < HistoryLimit ==>
      forall id :: Paid(s.rides, caller.id, id) ==> id in r.body.payments
    ensures r.body.totalSpent == SumFares(s.rides, r.body.payments)
    ensures |PaidBelow(s.rides, caller.id, s.nextRideId)| <= HistoryLimit ==>
      r.body.totalSpent == PaidTotal(s.rides, caller.id, s.nextRideId)
  {
    var all := PaidBelow(s.rides, caller.id, s.nextRideId);
    var shown := if |all| <= HistoryLimit then all else all[..HistoryLimit];
    SumOfPaidBelow(s.rides, caller.id, s.nextRideId);
    Reply(200, PaymentHistory(shown, SumFares(s.rides, shown), |shown|))
  }

  /** With more than 50 paid rides the history shows the 50 newest: every ride it leaves out is
      older than every ride it shows. */
  lemma HistoryKeepsNewest(s: State, caller: Caller, id: Id)
    requires FreshIds(s)
    requires Paid(s.rides, caller.id, id)
    requires id !in GetPaymentHistory(s, caller).body.payments
    ensures var p := GetPaymentHistory(s, caller).body.payments;
      |p| == HistoryLimit && forall i :: 0 <= i < |p| ==> id < p[i]
  {
    var all := PaidBelow(s.rides, caller.id, s.nextRideId);
    assert id < s.nextRideId;
    assert id in all;
    var k :| 0 <= k < |all| && all[k] == id;
    assert k >= HistoryLimit;
  }

  /** A rider who has just paid for a ride sees it at the head of the history: rides are only
      ever created with fresh, higher ids. */
  lemma PaidRideHeadsHistory(s: State, caller: Caller, rideId: Id, m: Option<string>, t: string)
    requires FreshIds(s)
    requires ProcessPayment(s, caller, rideId, m, t).reply.code == 200
    requires forall id :: rideId < id && id in s.rides ==> !Paid(s.rides, caller.id, id)
    ensures var p := GetPaymentHistory(ProcessPayment(s, caller, rideId, m, t).next, caller).body.payments;
      |p| > 0 && p[0] == rideId
  {
    var s1 := ProcessPayment(s, caller, rideId, m, t).next;
    assert FreshIds(s1);
    var all := PaidBelow(s1.rides, caller.id, s1.nextRideId);
    assert Paid(s1.rides, caller.id, rideId);
    assert rideId in all;
    var k :| 0 <= k < |all| && all[k] == rideId;
    assert k == 0;
  }

  /** With fewer than 50 paid rides, a successful charge adds the ride to the history, one to the
      count and its fare to the total. */
  lemma PaymentRaisesTotal(s: State, caller: Caller, rideId: Id, m: Option<string>, t: string)
    requires FreshIds(s)
    requires ProcessPayment(s, caller, rideId, m, t).reply.code == 200
    requires GetPaymentHistory(s, caller).body.count < HistoryLimit
    ensures var before := GetPaymentHistory(s, caller).body;
      var after := GetPaymentHistory(ProcessPayment(s, caller, rideId, m, t).next, caller).body;
      && rideId in after.payments
      && after.count == before.count + 1
      && after.totalSpent == before.totalSpent + s.rides[rideId].fare.total
  {
    var s1 := ProcessPayment(s, caller, rideId, m, t).next;
    assert FreshIds(s1);
    assert rideId < s.nextRideId;
    PaidBelowAfterCharge(s.rides, s1.rides, caller.id, rideId, s.nextRideId);
  }

  // ---------------------------------------------------------------------------------------------
  // initiateRefund

  /** `initiateRefund` as written: no check of who asks; it sets the payment status to
      "refunded", which the ride schema's payment enum does not list, so saving the ride fails
      validation. (`refundReason` and `refundedAt` are not schema paths either and would be
      dropped.) */
  function InitiateRefundAsWritten(s: State, rideId: Id, reason: Option<string>): (o: Step)
    ensures o.reply.code in {200, 400, 404, 500}
    ensures o.reply.code != 200 ==> o.next == s
    ensures rideId !in s.rides <==> o.reply.code == 404
  {
    if rideId !in s.rides then
      Step(Reply(404, Message("Ride not found")), s)
    else
      var ride := s.rides[rideId];
      if ride.payment.status != PaymentCompleted then
        Step(Reply(400, Message("No payment to refund")), s)
      else
        var refunded := ride.(payment := ride.payment.(status := PaymentRefunded));
        if !PaymentStatusAdmitted(refunded.payment.status) then
          Step(Reply(500, Message("Error processing refund")), s)
        else
          Step(Reply(200, RefundData(refunded.payment)), s.(rides := s.rides[rideId := refunded]))
  }

  /** No refund can ever succeed as written: a paid ride gets 500 and stays paid. */
  lemma RefundAsWrittenNeverSucceeds(s: State, rideId: Id, reason: Option<string>)
    requires rideId in s.rides && s.rides[rideId].payment.status == PaymentCompleted
    ensures InitiateRefundAsWritten(s, rideId, reason) == Step(Reply(500, Message("Error processing refund")), s)
  {
  }

  /** `initiateRefund` as intended: the schema admits "refunded" and records the reason. */
  function InitiateRefund(s: State, rideId: Id, reason: Option<string>): (o: Step)
    ensures o.reply.code in {200, 400, 404}
    ensures o.reply.code != 200 ==> o.next == s
    ensures rideId !in s.rides <==> o.reply.code == 404
    ensures o.reply.code == 400 <==> rideId in s.rides && s.rides[rideId].payment.status != PaymentCompleted
    ensures o.reply.code == 400 ==> o.reply.body == Message("No payment to refund")
    ensures o.reply.code == 200 <==> rideId in s.rides && s.rides[rideId].payment.status == PaymentCompleted
    ensures o.reply.code == 200 ==>
      && rideId in o.next.rides
      && o.next.rides == s.rides[rideId := o.next.rides[rideId]]
      && o.next.rides[rideId].payment
         == s.rides[rideId].payment.(status := PaymentRefunded, refundReason := reason)
      && o.next.rides[rideId].(payment := s.rides[rideId].payment) == s.rides[rideId]
      && o.reply.body == RefundData(o.next.rides[rideId].payment)
      && o.next.(rides := s.rides) == s
  {
    if rideId !in s.rides then
      Step(Reply(404, Message("Ride not found")), s)
    else
      var ride := s.rides[rideId];
      if ride.payment.status != PaymentCompleted then
        Step(Reply(400, Message("No payment to refund")), s)
      else
        var refunded := ride.(payment := ride.payment.(status := PaymentRefunded, refundReason := reason));
        Step(Reply(200, RefundData(refunded.payment)), s.(rides := s.rides[rideId := refunded]))
  }

  method HandleInitiateRefund(db: Database, rideId: Id, reason: Option<string>) returns (reply: Reply)
    modifies db
    ensures Step(reply, db.Snapshot()) == InitiateRefund(old(db.Snapshot()), rideId, reason)
  {
    if rideId !in db.rides {
      return Reply(404, Message("Ride not found"));
    }
    var ride := db.rides[rideId];
    if ride.payment.status != PaymentCompleted {
      return Reply(400, Message("No payment to refund"));
    }
    ride := ride.(payment := ride.payment.(status := PaymentRefunded));
    ride := ride.(payment := ride.payment.(refundReason := reason));
    db.rides := db.rides[rideId := ride];
    reply := Reply(200, RefundData(ride.payment));
  }

  /** A charge followed by a refund leaves the ride refunded with the charge's transaction id
      and the reason given, drops it from the rider's history, and leaves the history (list,
      total and count) as it was before the charge. */
  lemma PaymentThenRefund(s: State, caller: Caller, rideId: Id, m: Option<string>, t: string, reason: Option<string>)
    requires FreshIds(s)
    requires ProcessPayment(s, caller, rideId, m, t).reply.code == 200
    ensures var s1 := ProcessPayment(s, caller, rideId, m, t).next;
      var o := InitiateRefund(s1, rideId, reason);
      && o.reply.code == 200
      && o.next.rides[rideId].payment.status == PaymentRefunded
      && o.next.rides[rideId].payment.transactionId == Some(t)
      && o.next.rides[rideId].payment.refundReason == reason
      && rideId !in GetPaymentHistory(o.next, caller).body.payments
      && GetPaymentHistory(o.next, caller) == GetPaymentHistory(s, caller)
  {
    var s1 := ProcessPayment(s, caller, rideId, m, t).next;
    var s2 := InitiateRefund(s1, rideId, reason).next;
    assert FreshIds(s2);
    assert !Paid(s2.rides, caller.id, rideId);
    PaidBelowSame(s.rides, s2.rides, caller.id, s.nextRideId);
    var shown := GetPaymentHistory(s, caller).body.payments;
    SumFaresSameFares(s.rides, s2.rides, shown);
  }

  /** A refund needs a completed payment: a ride never paid (or already refunded) is refused. */
  lemma RefundTwiceRefused(s: State, rideId: Id, r1: Option<string>, r2: Option<string>)
    requires InitiateRefund(s, rideId, r1).reply.code == 200
    ensures var s1 := InitiateRefund(s, rideId, r1).next;
      InitiateRefund(s1, rideId, r2) == Step(Reply(400, Message("No payment to refund")), s1)
  {
  }

  lemma RefundKeepsInvariants(s: State, rideId: Id, reason: Option<string>)
    requires FreshIds(s) && EngagedUnavailable(s)
    ensures FreshIds(InitiateRefund(s, rideId, reason).next)
    ensures EngagedUnavailable(InitiateRefund(s, rideId, reason).next)
  {
  }
}
