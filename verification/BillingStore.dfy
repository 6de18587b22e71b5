/**
 * The billing tables and the services that update them row by row. Every method leaves exactly the
 * ledger that the step functions of `Billing` describe.
 */
module BillingStore {
  import opened Wrappers
  import opened Calendar
  import opened Billing

  class Store {
    const corpers: set<nat>
    var subs: seq<Subscription>
    var txs: seq<Transaction>
    var records: map<nat, Record>
    var processedEvents: set<string>
    var successNotices: multiset<nat>
    var failureNotices: multiset<nat>
    ghost var activations: multiset<nat>

    ghost function State(): Ledger
      reads this
    {
      Ledger(corpers, subs, txs, records, processedEvents, activations, successNotices, failureNotices)
    }

    ghost predicate Valid()
      reads this
    {
      Linked(State())
    }

    constructor (corpers: set<nat>)
      ensures Valid() && State() == EmptyLedger(corpers)
    {
      this.corpers := corpers;
      subs, txs, records, processedEvents := [], [], map[], {};
      successNotices, failureNotices, activations := multiset{}, multiset{}, multiset{};
    }

    // ---- One payment ----

    method SyncFlutterwaveRecord(i: nat, charge: Option<Reply>, verified: bool, now: Instant)
      requires i < |txs|
      modifies this
      ensures State() == SyncRecord(old(State()), i, charge, verified, now)
    {
      if txs[i].gateway != Flutterwave { return; }
      var record := Record(i, "", txs[i].status, None);
      if i in records { record := records[i]; }
      if charge.Some? && charge.value.providerId != "" {
        record := record.(providerId := charge.value.providerId);
      }
      record := record.(reference := i, status := txs[i].status);
      if verified { record := record.(verifiedAt := Some(now)); }
      records := records[i := record];
    }

    method TransitionSubscription(i: nat, status: AttemptStatus)
      requires Valid() && i < |txs|
      modifies this`subs
      ensures var k := txs[i].subscription;
              subs == old(subs)[k := SettleSub(old(subs)[k], status)]
    {
      var k := txs[i].subscription;
      if subs[k].status != AwaitingPayment { return; }
      var settled := if status == Cancelled then Stopped else PastDue;
      subs := subs[k := subs[k].(status := settled)];
    }

    method SetTerminalPaymentStatus(i: nat, status: AttemptStatus, charge: Option<Reply>, now: Instant)
      requires Valid() && i < |txs|
      modifies this
      ensures Valid() && State() == SetTerminal(old(State()), i, status, charge, now)
      ensures |txs| == |old(txs)|
    {
      hide SyncRecord, SettleSub;
      ghost var l := State();
      var merged := if charge.Some? then charge else txs[i].charge;
      var paidAt := if status != Successful then None else txs[i].paidAt;
      txs := txs[i := txs[i].(status := status, charge := merged, paidAt := paidAt)];
      ghost var l1 := WithTx(l, i, txs[i]);
      assert State() == l1;
      SyncFlutterwaveRecord(i, merged, true, now);
      TransitionSubscription(i, status);
      assert State() == SyncRecord(l1, i, merged, true, now).(subs := subs);
      if status == Successful {
        successNotices := successNotices + multiset{i};
      } else {
        failureNotices := failureNotices + multiset{i};
      }
    }

    /** Newest first, as the rows come back; returns how many attempts it expired. */
    method ExpireStalePendingTransactions(who: Option<nat>, now: Instant) returns (expired: nat)
      requires Valid()
      modifies this
      ensures Valid() && (State(), expired) == Sweep(old(State()), who, now)
    {
      hide SetTerminal;
      expired := 0;
      var n: nat := |txs|;
      while n > 0
        invariant Valid() && n <= |txs| == |old(txs)|
        invariant SweepFrom(old(State()), |old(txs)|, who, now) ==
                    (SweepFrom(State(), n, who, now).0, expired + SweepFrom(State(), n, who, now).1)
      {
        n := n - 1;
        if Stale(txs[n], who, now) {
          SetTerminalPaymentStatus(n, Expired, None, now);
          expired := expired + 1;
        }
      }
    }

    method CancelPaymentAttempt(i: nat, now: Instant)
      requires Valid() && i < |txs|
      modifies this
      ensures Valid() && State() == CancelAttempt(old(State()), i, now)
    {
      if txs[i].status !in {Pending, Processing} { return; }
      SetTerminalPaymentStatus(i, Cancelled, None, now);
    }

    // ---- Subscriptions ----

    method RefreshUserSubscriptions(user: nat, now: Instant)
      requires Valid()
      modifies this
      ensures Valid() && State() == Refresh(old(State()), user, now)
    {
      if user !in corpers { return; }
      subs := LapseUser(subs, user, now);
    }

    /** One bulk update of the user's other rows, then the chosen row. */
    method ActivatePaidSubscription(chosen: nat, startsAt: Instant)
      requires chosen < |subs|
      modifies this`subs
      ensures subs == ActivateSub(old(subs), chosen, startsAt)
    {
      var before := subs;
      var user := before[chosen].user;
      subs := seq(|before|, k requires 0 <= k < |before| =>
        if before[k].user == user && k != chosen && before[k].status in {Trial, Active, Stopped}
        then before[k].(status := Ended, nextBillingAt := None) else before[k]);
      var end := CalculateEnd(before[chosen].plan.interval, startsAt);
      subs := subs[chosen := subs[chosen].(status := Active, startsAt := startsAt)];
      subs := subs[chosen := subs[chosen].(endsAt := Some(end), nextBillingAt := Some(end))];
    }

    // ---- Outcomes ----

    method ApplyPaymentOutcome(i: nat, reply: Reply, outcome: Outcome, now: Instant)
      requires Valid() && i < |txs|
      modifies this
      ensures Valid() && State() == ApplyOutcome(old(State()), i, reply, outcome, now)
    {
      if txs[i].status == Successful {
        SyncFlutterwaveRecord(i, Some(reply), false, now);
        return;
      }
      if txs[i].status in {Failed, Cancelled, Expired, Abandoned} && outcome == Failure {
        SyncFlutterwaveRecord(i, Some(reply), false, now);
        return;
      }
      if outcome == Success {
        ConfirmPayment(i, reply, now);
        return;
      }
      if outcome == Failure {
        SetTerminalPaymentStatus(i, Failed, Some(reply), now);
        return;
      }
      var next := if txs[i].status == Pending then Processing else txs[i].status;
      txs := txs[i := txs[i].(status := next, charge := Some(reply))];
      SyncFlutterwaveRecord(i, Some(reply), true, now);
    }

    /** The success branch: the payment, its mirror, the subscription, the notice. */
    method ConfirmPayment(i: nat, reply: Reply, now: Instant)
      requires Valid() && i < |txs|
      modifies this
      ensures Valid() && State() == Succeed(old(State()), i, reply, now)
    {
      hide SyncRecord, CalculateEnd;
      var paidAt := if txs[i].paidAt.Some? then txs[i].paidAt.value else now;
      txs := txs[i := txs[i].(status := Successful, paidAt := Some(paidAt), charge := Some(reply))];
      SyncFlutterwaveRecord(i, Some(reply), true, now);
      var k := txs[i].subscription;
      var startsAt := if subs[k].effectiveStart.Some? then subs[k].effectiveStart.value else paidAt;
      ActivatePaidSubscription(k, startsAt);
      activations := activations + multiset{i};
      successNotices := successNotices + multiset{i};
    }

    method VerifyFlutterwaveTransaction(i: nat, providerId: string, redirect: string, first: Answer,
                                        second: Answer, now: Instant) returns (response: Response)
      requires Valid() && i < |txs|
      modifies this
      ensures Valid() && (State(), response) ==
                         VerifyFlutterwave(old(State()), i, providerId, redirect, first, second, now)
    {
      hide SyncRecord, SetTerminal, ApplyOutcome, ExtractStatus, ChargeMatches;
      response := Ok;
      var preferred := providerId;
      if preferred == "" && i in records { preferred := records[i].providerId; }
      if preferred == "" {
        if txs[i].status !in {Pending, Processing} {
          SyncFlutterwaveRecord(i, None, false, now);
          return;
        }
        var mapped := RedirectStatus(redirect);
        if mapped.Some? && mapped.value != Successful {
          SetTerminalPaymentStatus(i, mapped.value, None, now);
          return;
        }
      }
      var answer := first;
      if answer == Raised && preferred != "" { answer := second; }
      match answer
      case Raised => response := ProviderError;
      case NoCharge => SyncFlutterwaveRecord(i, None, false, now);
      case Charge(reply) =>
        var outcome := ExtractStatus(reply.status);
        if !ChargeMatches(txs[i], i, reply) { outcome := Failure; }
        ApplyPaymentOutcome(i, reply, outcome, now);
    }

    // ---- New attempts ----

    method CreatePendingPayment(user: nat, plan: Plan, gateway: Gateway, checkoutFails: bool, now: Instant)
      returns (response: Response)
      requires Valid()
      modifies this
      ensures Valid() && (State(), response) ==
                         CreatePending(old(State()), user, plan, gateway, checkoutFails, now)
    {
      hide SyncRecord, SweepFrom;
      var _ := ExpireStalePendingTransactions(Some(user), now);
      ghost var swept := State();
      var k, i := |subs|, |txs|;
      subs := subs + [Subscription(user, plan, AwaitingPayment, now, None, None, Some(now))];
      txs := txs + [Transaction(user, k, gateway, plan.price, plan.currency, now, Pending, None, None)];
      SyncFlutterwaveRecord(i, None, false, now);
      assert State() == AddPending(swept, user, plan, gateway, now);
      if gateway == Flutterwave && checkoutFails {
        txs := txs[i := txs[i].(status := Failed)];
        SyncFlutterwaveRecord(i, None, false, now);
        subs := subs[k := subs[k].(status := PastDue)];
        return ProviderError;
      }
      return Ok;
    }

    /** From the open-attempt guard on, where the billing page and the reactivation page do the same. */
    method StartNewPayment(user: nat, plan: Plan, gateway: Gateway, checkoutFails: bool, now: Instant)
      returns (response: Response)
      requires Valid()
      modifies this
      ensures Valid() && (State(), response) ==
                         StartPayment(old(State()), user, plan, gateway, checkoutFails, now)
    {
      var _ := ExpireStalePendingTransactions(Some(user), now);
      if exists i :: 0 <= i < |txs| && txs[i].user == user && Open(txs[i].status) { return Conflict; }
      RefreshUserSubscriptions(user, now);
      if plan.code !in RANKED_PLANS { return Forbidden; }
      response := CreatePendingPayment(user, plan, gateway, checkoutFails, now);
    }

    method InitiatePaymentPost(user: nat, onboarded: bool, plan: Plan, gateway: Gateway, checkoutFails: bool,
                               now: Instant) returns (response: Response)
      requires Valid()
      modifies this
      ensures Valid() && (State(), response) ==
                         InitiatePayment(old(State()), user, onboarded, plan, gateway, checkoutFails, now)
    {
      if user !in corpers { return Forbidden; }
      if !onboarded { return Forbidden; }
      if !plan.active { return NotFound; }
      if !plan.forCorpers { return Forbidden; }
      if plan.price == 0 {
        if exists k :: 0 <= k < |subs| && subs[k].user == user { return BadRequest; }
        var end := CalculateEnd(plan.interval, now);
        subs := subs + [Subscription(user, plan, Trial, now, Some(end), Some(end), None)];
        return Ok;
      }
      response := StartNewPayment(user, plan, gateway, checkoutFails, now);
    }

    method ReactivationPaymentPost(user: nat, plan: Plan, gateway: Gateway, checkoutFails: bool, now: Instant)
      returns (response: Response)
      requires Valid()
      modifies this
      ensures Valid() && (State(), response) ==
                         ReactivatePayment(old(State()), user, plan, gateway, checkoutFails, now)
    {
      if user !in corpers { return Forbidden; }
      if !plan.active { return NotFound; }
      if !plan.forCorpers { return Forbidden; }
      if plan.price == 0 { return BadRequest; }
      response := StartNewPayment(user, plan, gateway, checkoutFails, now);
    }

    // ---- Provider messages ----

    method VerifyTransactionByReference(reference: nat, providerId: string, redirect: string, first: Answer,
                                        second: Answer, now: Instant) returns (response: Response)
      requires Valid()
      modifies this
      ensures Valid() && (State(), response) ==
                         VerifyByReference(old(State()), reference, providerId, redirect, first, second, now)
    {
      var _ := ExpireStalePendingTransactions(None, now);
      if reference >= |txs| || txs[reference].gateway != Flutterwave { return NotFound; }
      response := VerifyFlutterwaveTransaction(reference, providerId, redirect, first, second, now);
    }

    method SyncTransactionStatus(reference: nat, first: Answer, second: Answer, now: Instant)
      returns (response: Response)
      requires Valid()
      modifies this
      ensures Valid() && (State(), response) == PollStatus(old(State()), reference, first, second, now)
    {
      if reference >= |txs| { return NotFound; }
      if txs[reference].status == Successful { return Ok; }
      SweepKeepsLinked(State(), |txs|, Some(txs[reference].user), now);
      var _ := ExpireStalePendingTransactions(Some(txs[reference].user), now);
      if txs[reference].gateway != Flutterwave { return Ok; }
      response := VerifyFlutterwaveTransaction(reference, "", "", first, second, now);
    }

    method ProcessRecordedWebhookEvent(event: string, gateway: Gateway, payload: Reply, first: Answer,
                                       second: Answer, now: Instant) returns (response: Response)
      requires Valid()
      modifies this
      ensures Valid() && (State(), response) ==
                         ProcessWebhook(old(State()), event, gateway, payload, first, second, now)
    {
      if event in processedEvents { return Ok; }
      if payload.reference.None? || payload.reference.value >= |txs| { return NotFound; }
      var i := payload.reference.value;
      if txs[i].gateway != gateway { return NotFound; }
      response := Ok;
      if gateway == Flutterwave {
        response := VerifyFlutterwaveTransaction(i, payload.providerId, "", first, second, now);
        if response != Ok { return; }
      } else {
        ApplyPaymentOutcome(i, payload, ExtractCardStatus(payload.status), now);
      }
      processedEvents := processedEvents + {event};
    }
  }
}
