/** Requests and runs: every request keeps the invariant and only moves payments forward. */
module BillingRuns {
  import opened Wrappers
  import opened Calendar
  import opened Billing
  import opened BillingSafety

  // ---- Forward motion ----

  function Rank(s: AttemptStatus): nat {
    match s
    case Pending => 0
    case Processing => 1
    case Successful => 3
    case _ => 2
  }

  /** The terms of a payment are fixed; its status stays or climbs; once confirmed it is frozen. */
  predicate PaymentAdvances(t: Transaction, u: Transaction) {
    && u == t.(status := u.status, paidAt := u.paidAt, charge := u.charge)
    && (u.status == t.status || Rank(t.status) < Rank(u.status))
    && (t.status == Successful ==> u == t)
  }

  predicate SubscriptionAdvances(s: Subscription, r: Subscription) {
    s.user == r.user && s.plan == r.plan && s.effectiveStart == r.effectiveStart
  }

  ghost predicate Advances(l: Ledger, m: Ledger) {
    && m.corpers == l.corpers && l.processedEvents <= m.processedEvents
    && |l.txs| <= |m.txs| && |l.subs| <= |m.subs|
    && (forall i :: 0 <= i < |l.txs| ==> PaymentAdvances(l.txs[i], m.txs[i]))
    && (forall k :: 0 <= k < |l.subs| ==> SubscriptionAdvances(l.subs[k], m.subs[k]))
    && l.activations <= m.activations && l.successNotices <= m.successNotices
    && l.failureNotices <= m.failureNotices
  }

  ghost predicate Good(l: Ledger, m: Ledger) { Inv(m) && Advances(l, m) }

  lemma GoodTransitive(l: Ledger, m: Ledger, n: Ledger)
    requires Good(l, m) && Good(m, n)
    ensures Good(l, n)
  {
    hide Inv;
    forall i | 0 <= i < |l.txs| ensures PaymentAdvances(l.txs[i], n.txs[i]) {
      assert PaymentAdvances(l.txs[i], m.txs[i]) && PaymentAdvances(m.txs[i], n.txs[i]);
    }
    forall k | 0 <= k < |l.subs| ensures SubscriptionAdvances(l.subs[k], n.subs[k]) {
      assert SubscriptionAdvances(l.subs[k], m.subs[k]) && SubscriptionAdvances(m.subs[k], n.subs[k]);
    }
  }

  lemma SyncGood(l: Ledger, i: nat, charge: Option<Reply>, verified: bool, now: Instant)
    requires Inv(l) && i < |l.txs|
    ensures Good(l, SyncRecord(l, i, charge, verified, now))
  {
    SyncKeeps(l, i, charge, verified, now);
  }

  lemma SetTerminalGood(l: Ledger, i: nat, status: AttemptStatus, charge: Option<Reply>, now: Instant)
    requires Inv(l) && i < |l.txs| && Open(l.txs[i].status) && Unsuccessful(status)
    ensures Good(l, SetTerminal(l, i, status, charge, now))
  {
    SetTerminalKeeps(l, i, status, charge, now);
    hide Inv;
  }

  lemma SucceedGood(l: Ledger, i: nat, r: Reply, now: Instant)
    requires Inv(l) && i < |l.txs| && l.txs[i].status != Successful
    requires l.txs[i].gateway.Flutterwave? ==> ChargeMatches(l.txs[i], i, r) && ExtractStatus(r.status) == Success
    ensures Good(l, Succeed(l, i, r, now))
  {
    hide CalculateEnd;
    SucceedKeeps(l, i, r, now);
    assert Advances(l, Succeed(l, i, r, now)) by { hide Inv; }
  }

  lemma KeepGoingGood(l: Ledger, i: nat, r: Reply, now: Instant)
    requires Inv(l) && i < |l.txs| && l.txs[i].status != Successful
    ensures Good(l, KeepGoing(l, i, r, now))
  {
    KeepGoingKeeps(l, i, r, now);
  }

  /** Outcomes may come in any order and more than once; the guards inside keep the invariant. */
  lemma ApplyOutcomeGood(l: Ledger, i: nat, r: Reply, outcome: Outcome, now: Instant)
    requires Inv(l) && i < |l.txs|
    requires outcome == Success && l.txs[i].gateway.Flutterwave? ==>
               ChargeMatches(l.txs[i], i, r) && ExtractStatus(r.status) == Success
    ensures Good(l, ApplyOutcome(l, i, r, outcome, now))
  {
    hide Inv, SetTerminal, SyncRecord, Succeed, KeepGoing;
    RowsOfInv(l);
    var status := l.txs[i].status;
    if status == Successful || (Unsuccessful(status) && outcome == Failure) {
      SyncGood(l, i, Some(r), false, now);
    } else if outcome == Success {
      SucceedGood(l, i, r, now);
    } else if outcome == Failure {
      SetTerminalGood(l, i, Failed, Some(r), now);
    } else {
      KeepGoingGood(l, i, r, now);
    }
  }

  lemma VerifyGood(l: Ledger, i: nat, providerId: string, redirect: string, first: Answer, second: Answer,
                   now: Instant)
    requires Inv(l) && i < |l.txs|
    ensures Good(l, VerifyFlutterwave(l, i, providerId, redirect, first, second, now).0)
  {
    hide Inv, SetTerminal, SyncRecord, ApplyOutcome;
    RowsOfInv(l);
    var preferred := PreferredId(l, i, providerId);
    var mapped := RedirectStatus(redirect);
    if preferred == "" && !Open(l.txs[i].status) {
      SyncGood(l, i, None, false, now);
    } else if preferred == "" && mapped.Some? && Unsuccessful(mapped.value) {
      SetTerminalGood(l, i, mapped.value, None, now);
    } else {
      var answer := if first.Raised? && preferred != "" then second else first;
      match answer
      case Raised =>
      case NoCharge => SyncGood(l, i, None, false, now);
      case Charge(r) =>
        var outcome := if ChargeMatches(l.txs[i], i, r) then ExtractStatus(r.status) else Failure;
        ApplyOutcomeGood(l, i, r, outcome, now);
    }
  }

  lemma RowsOfInv(l: Ledger)
    requires Inv(l)
    ensures Linked(l)
  {
  }

  // ---- The sweep ----

  lemma {:induction false} SweepGood(l: Ledger, n: nat, who: Option<nat>, now: Instant)
    requires Inv(l) && n <= |l.txs|
    ensures Good(l, SweepFrom(l, n, who, now).0)
    ensures |SweepFrom(l, n, who, now).0.txs| == |l.txs|
    decreases n
  {
    hide Inv, SetTerminal;
    RowsOfInv(l);
    if n > 0 {
      if Stale(l.txs[n - 1], who, now) {
        var m := SetTerminal(l, n - 1, Expired, None, now);
        SetTerminalGood(l, n - 1, Expired, None, now);
        SweepKeepsLinked(l, n, who, now);
        SweepGood(m, n - 1, who, now);
        GoodTransitive(l, m, SweepFrom(m, n - 1, who, now).0);
      } else {
        SweepGood(l, n - 1, who, now);
      }
    }
  }

  ghost function StaleSet(l: Ledger, n: nat, who: Option<nat>, now: Instant): set<nat>
    requires n <= |l.txs|
  {
    set i: nat | i < n && Stale(l.txs[i], who, now)
  }

  lemma ExpireOne(l: Ledger, i: nat, now: Instant)
    requires Linked(l) && i < |l.txs|
    ensures var m := SetTerminal(l, i, Expired, None, now);
      && Linked(m) && m.txs == l.txs[i := l.txs[i].(status := Expired, paidAt := None)]
      && m.failureNotices == l.failureNotices + multiset{i}
      && m.successNotices == l.successNotices && m.activations == l.activations
  {
  }

  function Swept(t: Transaction, who: Option<nat>, now: Instant): Transaction {
    if Stale(t, who, now) then t.(status := Expired, paidAt := None) else t
  }

  /** The sweep expires the stale payments among the first `n` and touches no other. */
  lemma {:induction false} SweepExact(l: Ledger, n: nat, who: Option<nat>, now: Instant)
    requires Linked(l) && n <= |l.txs|
    ensures |SweepFrom(l, n, who, now).0.txs| == |l.txs|
    ensures forall i :: 0 <= i < |l.txs| ==>
              SweepFrom(l, n, who, now).0.txs[i] == if i < n then Swept(l.txs[i], who, now) else l.txs[i]
    decreases n
  {
    hide SetTerminal, Stale;
    if n > 0 {
      if Stale(l.txs[n - 1], who, now) {
        ExpireOne(l, n - 1, now);
        SweepExact(SetTerminal(l, n - 1, Expired, None, now), n - 1, who, now);
      } else {
        SweepExact(l, n - 1, who, now);
      }
    }
  }

  lemma OneMore(rest: set<nat>, x: nat)
    requires x !in rest
    ensures |rest + {x}| == |rest| + 1 && multiset(rest + {x}) == multiset(rest) + multiset{x}
  {
  }

  lemma StaleSetStep(l: Ledger, m: Ledger, n: nat, who: Option<nat>, now: Instant)
    requires 0 < n <= |l.txs| == |m.txs|
    requires forall i :: 0 <= i < n - 1 ==> m.txs[i] == l.txs[i]
    ensures n - 1 !in StaleSet(m, n - 1, who, now)
    ensures StaleSet(l, n, who, now) ==
              if Stale(l.txs[n - 1], who, now) then StaleSet(m, n - 1, who, now) + {n - 1}
              else StaleSet(m, n - 1, who, now)
  {
    hide Stale;
  }

  /** It returns how many it expired and notifies each of them once. */
  lemma {:induction false} SweepCounts(l: Ledger, n: nat, who: Option<nat>, now: Instant)
    requires Linked(l) && n <= |l.txs|
    ensures var (m, count) := SweepFrom(l, n, who, now);
      && count == |StaleSet(l, n, who, now)|
      && m.failureNotices == l.failureNotices + multiset(StaleSet(l, n, who, now))
      && m.successNotices == l.successNotices && m.activations == l.activations
    decreases n
  {
    hide SetTerminal, Stale, StaleSet;
    if n == 0 {
      assert StaleSet(l, 0, who, now) == {} by { NoneStale(l, who, now); }
    } else if Stale(l.txs[n - 1], who, now) {
      ExpireOne(l, n - 1, now);
      var m := SetTerminal(l, n - 1, Expired, None, now);
      SweepCounts(m, n - 1, who, now);
      StaleSetStep(l, m, n, who, now);
      OneMore(StaleSet(m, n - 1, who, now), n - 1);
    } else {
      SweepCounts(l, n - 1, who, now);
      StaleSetStep(l, l, n, who, now);
    }
  }

  lemma NoneStale(l: Ledger, who: Option<nat>, now: Instant)
    ensures StaleSet(l, 0, who, now) == {}
  {
  }

  /** Once swept, a second sweep at the same instant finds nothing and changes nothing. */
  lemma SweepTwice(l: Ledger, who: Option<nat>, now: Instant)
    requires Linked(l)
    ensures Linked(Sweep(l, who, now).0)
    ensures Sweep(Sweep(l, who, now).0, who, now) == (Sweep(l, who, now).0, 0)
  {
    SweepKeepsLinked(l, |l.txs|, who, now);
    SweepExact(l, |l.txs|, who, now);
    NothingStale(Sweep(l, who, now).0, |l.txs|, who, now);
  }

  lemma {:induction false} NothingStale(l: Ledger, n: nat, who: Option<nat>, now: Instant)
    requires Linked(l) && n <= |l.txs|
    requires forall i :: 0 <= i < n ==> !Stale(l.txs[i], who, now)
    ensures SweepFrom(l, n, who, now) == (l, 0)
  {
    if n > 0 { NothingStale(l, n - 1, who, now); }
  }

  // ---- Requests ----

  lemma AddPendingGood(l: Ledger, user: nat, plan: Plan, gateway: Gateway, now: Instant)
    requires Inv(l) && user in l.corpers && plan.price > 0 && !HasOpenAttempt(l, user)
    ensures Good(l, AddPending(l, user, plan, gateway, now))
  {
    AddPendingKeeps(l, user, plan, gateway, now);
    assert Advances(l, AddPending(l, user, plan, gateway, now)) by { hide Inv; }
  }

  lemma FailCheckoutGood(l: Ledger, now: Instant)
    requires Inv(l) && |l.txs| > 0 && Open(l.txs[|l.txs| - 1].status)
    ensures Good(l, FailCheckout(l, now))
  {
    FailCheckoutKeeps(l, now);
    hide Inv;
  }

  lemma CreatePendingGood(l: Ledger, user: nat, plan: Plan, gateway: Gateway, fails: bool, now: Instant)
    requires Inv(l) && user in l.corpers && plan.price > 0 && !HasOpenAttempt(l, user)
    ensures Good(l, CreatePending(l, user, plan, gateway, fails, now).0)
  {
    hide Inv, AddPending, FailCheckout, SweepFrom;
    RowsOfInv(l);
    var swept := Sweep(l, Some(user), now).0;
    SweepGood(l, |l.txs|, Some(user), now);
    SweepExact(l, |l.txs|, Some(user), now);
    var m := AddPending(swept, user, plan, gateway, now);
    AddPendingGood(swept, user, plan, gateway, now);
    AddPendingKeeps(swept, user, plan, gateway, now);
    AddPendingLast(swept, user, plan, gateway, now);
    GoodTransitive(l, swept, m);
    if gateway.Flutterwave? && fails {
      RowsOfInv(m);
      FailCheckoutGood(m, now);
      GoodTransitive(l, m, FailCheckout(m, now));
    }
  }

  lemma AddPendingLast(l: Ledger, user: nat, plan: Plan, gateway: Gateway, now: Instant)
    ensures |AddPending(l, user, plan, gateway, now).txs| == |l.txs| + 1
  {
  }

  lemma RefreshGood(l: Ledger, user: nat, now: Instant)
    requires Inv(l)
    ensures Good(l, Refresh(l, user, now))
    ensures Refresh(l, user, now).txs == l.txs
  {
    RefreshKeeps(l, user, now);
    hide Inv;
  }

  lemma StartPaymentGood(l: Ledger, user: nat, plan: Plan, gateway: Gateway, fails: bool, now: Instant)
    requires Inv(l) && user in l.corpers && plan.price > 0
    ensures Good(l, StartPayment(l, user, plan, gateway, fails, now).0)
  {
    hide Inv, CreatePending, SweepFrom, Refresh;
    RowsOfInv(l);
    var swept := Sweep(l, Some(user), now).0;
    SweepGood(l, |l.txs|, Some(user), now);
    if !HasOpenAttempt(swept, user) {
      var refreshed := Refresh(swept, user, now);
      RefreshGood(swept, user, now);
      GoodTransitive(l, swept, refreshed);
      if plan.code in RANKED_PLANS {
        CreatePendingGood(refreshed, user, plan, gateway, fails, now);
        GoodTransitive(l, refreshed, CreatePending(refreshed, user, plan, gateway, fails, now).0);
      }
    }
  }

  lemma AddTrialGood(l: Ledger, user: nat, plan: Plan, now: Instant)
    requires Inv(l) && plan.price == 0 && !HasSubscription(l, user)
    ensures Good(l, AddTrial(l, user, plan, now))
  {
    AddTrialKeeps(l, user, plan, now);
  }

  lemma WebhookGood(l: Ledger, event: string, gateway: Gateway, payload: Reply, first: Answer, second: Answer,
                    now: Instant)
    requires Inv(l)
    ensures Good(l, ProcessWebhook(l, event, gateway, payload, first, second, now).0)
  {
    hide Inv, VerifyFlutterwave, ApplyOutcome;
    RowsOfInv(l);
    if event !in l.processedEvents && payload.reference.Some? && payload.reference.value < |l.txs|
       && l.txs[payload.reference.value].gateway == gateway {
      var i := payload.reference.value;
      var m := if gateway.Flutterwave? then VerifyFlutterwave(l, i, payload.providerId, "", first, second, now).0
               else ApplyOutcome(l, i, payload, ExtractCardStatus(payload.status), now);
      if gateway.Flutterwave? {
        VerifyGood(l, i, payload.providerId, "", first, second, now);
      } else {
        ApplyOutcomeGood(l, i, payload, ExtractCardStatus(payload.status), now);
      }
      MarkProcessedGood(l, m, event);
    }
  }

  lemma MarkProcessedGood(l: Ledger, m: Ledger, event: string)
    requires Good(l, m)
    ensures Good(l, m.(processedEvents := m.processedEvents + {event}))
  {
    var n := m.(processedEvents := m.processedEvents + {event});
    assert BooksOk(n) by {
      forall i | 0 <= i < |n.txs| ensures BookOk(n, i) { assert BookOk(m, i); }
      forall i: nat | Known(n, i) ensures i < |n.txs| { assert Known(m, i); }
    }
    SharingFrame(m, n);
  }

  lemma RedirectGood(l: Ledger, i: nat, id: string, status: string, first: Answer, second: Answer, now: Instant)
    requires Inv(l)
    ensures Good(l, VerifyByReference(l, i, id, status, first, second, now).0)
  {
    hide Inv, VerifyFlutterwave, SweepFrom;
    RowsOfInv(l);
    var swept := Sweep(l, None, now).0;
    SweepGood(l, |l.txs|, None, now);
    if i < |swept.txs| && swept.txs[i].gateway.Flutterwave? {
      RowsOfInv(swept);
      VerifyGood(swept, i, id, status, first, second, now);
      GoodTransitive(l, swept, VerifyFlutterwave(swept, i, id, status, first, second, now).0);
    }
  }

  lemma PollGood(l: Ledger, i: nat, first: Answer, second: Answer, now: Instant)
    requires Inv(l)
    ensures Good(l, PollStatus(l, i, first, second, now).0)
  {
    hide Inv, VerifyFlutterwave, SweepFrom;
    RowsOfInv(l);
    if i < |l.txs| && l.txs[i].status != Successful {
      var swept := Sweep(l, Some(l.txs[i].user), now).0;
      SweepGood(l, |l.txs|, Some(l.txs[i].user), now);
      if swept.txs[i].gateway.Flutterwave? {
        RowsOfInv(swept);
        VerifyGood(swept, i, "", "", first, second, now);
        GoodTransitive(l, swept, VerifyFlutterwave(swept, i, "", "", first, second, now).0);
      }
    }
  }

  /** Every request, with any arguments and any provider answer, keeps the books and moves them forward. */
  lemma HandleGood(l: Ledger, request: Request, now: Instant)
    requires Inv(l)
    ensures Linked(l) && Good(l, Handle(l, request, now).0)
  {
    hide Inv, StartPayment, SweepFrom, CancelAttempt, VerifyByReference, PollStatus, ProcessWebhook, Refresh,
         AddTrial;
    RowsOfInv(l);
    match request
    case Initiate(user, onboarded, plan, gateway, fails) =>
      if user in l.corpers && onboarded && plan.active && plan.forCorpers {
        if plan.price == 0 {
          if !HasSubscription(l, user) { AddTrialGood(l, user, plan, now); }
        } else {
          StartPaymentGood(l, user, plan, gateway, fails, now);
        }
      }
    case Reactivate(user, plan, gateway, fails) =>
      if user in l.corpers && plan.price > 0 { StartPaymentGood(l, user, plan, gateway, fails, now); }
    case ListAttempts(user) => SweepGood(l, |l.txs|, Some(user), now);
    case SweepAll => SweepGood(l, |l.txs|, None, now);
    case Cancel(user, i) =>
      if i < |l.txs| { CancelGood(l, i, now); }
    case Redirect(i, id, status, first, second) => RedirectGood(l, i, id, status, first, second, now);
    case Poll(i, first, second) => PollGood(l, i, first, second, now);
    case Webhook(event, gateway, payload, first, second) =>
      WebhookGood(l, event, gateway, payload, first, second, now);
    case Query(user) => RefreshGood(l, user, now);
  }

  lemma CancelGood(l: Ledger, i: nat, now: Instant)
    requires Inv(l) && i < |l.txs|
    ensures Linked(l) && Good(l, CancelAttempt(l, i, now))
  {
    if Open(l.txs[i].status) { SetTerminalGood(l, i, Cancelled, None, now); }
  }

  // ---- Runs ----

  datatype Timed = Timed(request: Request, now: Instant)

  /** The ledger after a run, in which anything may have been asked in any order. */
  ghost function Run(l: Ledger, run: seq<Timed>): (m: Ledger)
    requires Inv(l)
    ensures Inv(m)
    decreases run
  {
    if run == [] then l
    else
      HandleGood(l, run[0].request, run[0].now);
      Run(Handle(l, run[0].request, run[0].now).0, run[1..])
  }

  lemma EmptyInv(corpers: set<nat>)
    ensures Inv(EmptyLedger(corpers))
  {
  }

  lemma {:induction false} RunAdvances(l: Ledger, run: seq<Timed>)
    requires Inv(l)
    ensures Good(l, Run(l, run))
    decreases run
  {
    hide Inv, Handle;
    if run != [] {
      HandleGood(l, run[0].request, run[0].now);
      var m := Handle(l, run[0].request, run[0].now).0;
      RunAdvances(m, run[1..]);
      GoodTransitive(l, m, Run(m, run[1..]));
    }
  }

  /** How often the status of payment `i` changes along a run. */
  ghost function Changes(l: Ledger, run: seq<Timed>, i: nat): nat
    requires Inv(l) && i < |l.txs|
    decreases run
  {
    if run == [] then 0
    else
      HandleGood(l, run[0].request, run[0].now);
      var m := Handle(l, run[0].request, run[0].now).0;
      (if m.txs[i].status != l.txs[i].status then 1 else 0) + Changes(m, run[1..], i)
  }

  /** A status climbs at every change, so it changes at most three times. */
  lemma {:induction false} AtMostThreeChanges(l: Ledger, run: seq<Timed>, i: nat)
    requires Inv(l) && i < |l.txs|
    ensures i < |Run(l, run).txs|
    ensures Rank(l.txs[i].status) + Changes(l, run, i) <= Rank(Run(l, run).txs[i].status) <= 3
    decreases run
  {
    hide Inv, Handle;
    if run != [] {
      HandleGood(l, run[0].request, run[0].now);
      var m := Handle(l, run[0].request, run[0].now).0;
      assert PaymentAdvances(l.txs[i], m.txs[i]);
      AtMostThreeChanges(m, run[1..], i);
    }
  }

  /** What the invariant says of a finished run, in the terms of the rows. */
  lemma EveryRunIsSafe(corpers: set<nat>, run: seq<Timed>)
    ensures Inv(EmptyLedger(corpers))
    ensures var m := Run(EmptyLedger(corpers), run);
      && Linked(m)
      && (forall i :: 0 <= i < |m.txs| ==>
            var t, s := m.txs[i], m.subs[m.txs[i].subscription];
            && (Open(t.status) <==> s.status == AwaitingPayment)
            && (t.status == Cancelled ==> s.status in {Stopped, Ended})
            && (t.status in {Failed, Expired, Abandoned} ==> s.status == PastDue)
            && (t.status == Successful ==> s.status in {Active, Ended})
            && (t.paidAt.Some? <==> t.status == Successful)
            && m.activations[i] == m.successNotices[i] == (if t.status == Successful then 1 else 0)
            && m.failureNotices[i] <= 1)
  {
    EmptyInv(corpers);
    var m := Run(EmptyLedger(corpers), run);
    forall i | 0 <= i < |m.txs|
      ensures Belongs(m.txs[i], m.subs[m.txs[i].subscription], m.corpers) && BookOk(m, i)
    {
    }
  }

  /** And of the books as a whole, in every run: the provider-side records are exactly the Flutterwave
      payments and mirror them; a user has at most one open attempt and one running subscription; running
      rows carry the term of their plan from their own start, stopped rows none; and as many activations
      happened as payments succeeded. */
  lemma EveryRunIsConsistent(corpers: set<nat>, run: seq<Timed>)
    ensures Inv(EmptyLedger(corpers))
    ensures var m := Run(EmptyLedger(corpers), run);
      && (forall i: nat :: i in m.records <==> i < |m.txs| && m.txs[i].gateway.Flutterwave?)
      && (forall i :: i in m.records && i < |m.txs| ==>
            m.records[i].reference == i && m.records[i].status == m.txs[i].status)
      && (forall i, j :: 0 <= i < j < |m.txs| && m.txs[i].user == m.txs[j].user ==>
            !(Open(m.txs[i].status) && Open(m.txs[j].status)))
      && (forall j, k :: 0 <= j < k < |m.subs| && m.subs[j].user == m.subs[k].user ==>
            !(Running(m.subs[j].status) && Running(m.subs[k].status)))
      && (forall k :: 0 <= k < |m.subs| ==>
            (Running(m.subs[k].status) ==>
               m.subs[k].endsAt == Some(CalculateEnd(m.subs[k].plan.interval, m.subs[k].startsAt)))
            && (m.subs[k].status == Stopped ==> m.subs[k].endsAt.None?))
      && |m.activations| == Successes(m.txs)
  {
    hide CalculateEnd;
    EmptyInv(corpers);
    var m := Run(EmptyLedger(corpers), run);
    forall i: nat ensures i in m.records <==> i < |m.txs| && m.txs[i].gateway.Flutterwave? {
      if i < |m.txs| {
        assert BookOk(m, i);
      } else {
        NoBooksBeyond(m, i);
      }
    }
    forall i | i in m.records && i < |m.txs|
      ensures m.records[i].reference == i && m.records[i].status == m.txs[i].status
    {
      assert BookOk(m, i);
    }
    forall k | 0 <= k < |m.subs|
      ensures (Running(m.subs[k].status) ==>
                 m.subs[k].endsAt == Some(CalculateEnd(m.subs[k].plan.interval, m.subs[k].startsAt)))
              && (m.subs[k].status == Stopped ==> m.subs[k].endsAt.None?)
    {
      assert TermOk(m.subs[k]);
    }
    ActivationsCounted(m);
  }

  function Successes(txs: seq<Transaction>): nat {
    if txs == [] then 0
    else Successes(txs[..|txs| - 1]) + if txs[|txs| - 1].status == Successful then 1 else 0
  }

  lemma NoBooksBeyond(l: Ledger, i: nat)
    requires Inv(l) && i >= |l.txs|
    ensures i !in l.records && l.activations[i] == 0
  {
    if Known(l, i) {
      assert false;
    }
  }

  lemma ActivationsCounted(l: Ledger)
    requires Inv(l)
    ensures |l.activations| == Successes(l.txs)
  {
    forall i: nat | i >= |l.txs| ensures l.activations[i] == 0 { NoBooksBeyond(l, i); }
    forall i | 0 <= i < |l.txs|
      ensures l.activations[i] == if l.txs[i].status == Successful then 1 else 0
    {
      assert BookOk(l, i);
    }
    CountMatches(l.activations, l.txs);
  }

  lemma {:induction false} CountMatches(counts: multiset<nat>, txs: seq<Transaction>)
    requires forall i: nat :: counts[i] == if i < |txs| && txs[i].status == Successful then 1 else 0
    ensures |counts| == Successes(txs)
  {
    if txs == [] {
      assert counts == multiset{};
    } else {
      var n := |txs| - 1;
      var rest := counts[n := 0];
      assert forall i: nat :: i != n ==> rest[i] == counts[i];
      CountMatches(rest, txs[..n]);
      assert counts == rest + if txs[n].status == Successful then multiset{n} else multiset{};
    }
  }

  // ---- One trial a user ----

  /** Every row of a user after the first is for a priced plan. */
  ghost predicate LaterRowsPriced(l: Ledger) {
    forall j, k :: 0 <= j < k < |l.subs| && l.subs[j].user == l.subs[k].user ==> l.subs[k].plan.price > 0
  }

  /** At most one row is new, and a free one only for a user without any. */
  predicate FreeOnlyFirst(l: Ledger, m: Ledger) {
    && |l.subs| <= |m.subs| <= |l.subs| + 1
    && (|m.subs| == |l.subs| + 1 ==>
          var s := m.subs[|l.subs|]; s.plan.price > 0 || !HasSubscription(l, s.user))
  }

  lemma ApplyAddsNoRow(l: Ledger, i: nat, r: Reply, o: Outcome, now: Instant)
    requires Linked(l) && i < |l.txs|
    ensures |ApplyOutcome(l, i, r, o, now).subs| == |l.subs|
  {
    hide SettleSub, CalculateEnd;
  }

  lemma VerifyAddsNoRow(l: Ledger, i: nat, id: string, redirect: string, first: Answer, second: Answer, now: Instant)
    requires Linked(l) && i < |l.txs|
    ensures |VerifyFlutterwave(l, i, id, redirect, first, second, now).0.subs| == |l.subs|
  {
    hide ApplyOutcome, ChargeMatches, ExtractStatus, RedirectStatus, SettleSub;
    var answer := if first.Raised? && PreferredId(l, i, id) != "" then second else first;
    if answer.Charge? {
      ApplyAddsNoRow(l, i, answer.reply,
                     if ChargeMatches(l.txs[i], i, answer.reply) then ExtractStatus(answer.reply.status) else Failure,
                     now);
    }
  }

  lemma StartPaymentFreeOnlyFirst(l: Ledger, user: nat, plan: Plan, gateway: Gateway, fails: bool, now: Instant)
    requires Linked(l) && plan.price > 0
    ensures FreeOnlyFirst(l, StartPayment(l, user, plan, gateway, fails, now).0)
  {
    hide SweepFrom, HasSubscription;
    SweepKeepsLinked(l, |l.txs|, Some(user), now);
    var swept := Sweep(l, Some(user), now).0;
    var refreshed := Refresh(swept, user, now);
    SweepKeepsLinked(refreshed, |refreshed.txs|, Some(user), now);
  }

  lemma HandleFreeOnlyFirst(l: Ledger, request: Request, now: Instant)
    requires Linked(l)
    ensures FreeOnlyFirst(l, Handle(l, request, now).0)
  {
    hide SweepFrom, StartPayment, VerifyFlutterwave, ApplyOutcome, HasSubscription;
    match request
    case Initiate(user, onboarded, plan, gateway, fails) =>
      if plan.price > 0 { StartPaymentFreeOnlyFirst(l, user, plan, gateway, fails, now); }
    case Reactivate(user, plan, gateway, fails) =>
      if plan.price > 0 { StartPaymentFreeOnlyFirst(l, user, plan, gateway, fails, now); }
    case ListAttempts(user) => SweepKeepsLinked(l, |l.txs|, Some(user), now);
    case SweepAll => SweepKeepsLinked(l, |l.txs|, None, now);
    case Redirect(i, id, status, first, second) =>
      SweepKeepsLinked(l, |l.txs|, None, now);
      if i < |l.txs| { VerifyAddsNoRow(Sweep(l, None, now).0, i, id, status, first, second, now); }
    case Poll(i, first, second) =>
      if i < |l.txs| {
        SweepKeepsLinked(l, |l.txs|, Some(l.txs[i].user), now);
        VerifyAddsNoRow(Sweep(l, Some(l.txs[i].user), now).0, i, "", "", first, second, now);
      }
    case Webhook(event, gateway, payload, first, second) =>
      if payload.reference.Some? && payload.reference.value < |l.txs| {
        VerifyAddsNoRow(l, payload.reference.value, payload.providerId, "", first, second, now);
        ApplyAddsNoRow(l, payload.reference.value, payload, ExtractCardStatus(payload.status), now);
      }
    case _ =>
  }

  lemma PricedStep(l: Ledger, m: Ledger)
    requires LaterRowsPriced(l) && Advances(l, m) && FreeOnlyFirst(l, m)
    ensures LaterRowsPriced(m)
  {
    forall j, k | 0 <= j < k < |m.subs| && m.subs[j].user == m.subs[k].user ensures m.subs[k].plan.price > 0 {
      assert SubscriptionAdvances(l.subs[j], m.subs[j]);
      if k < |l.subs| { assert SubscriptionAdvances(l.subs[k], m.subs[k]); }
    }
  }

  lemma {:induction false} RunKeepsPriced(l: Ledger, run: seq<Timed>)
    requires Inv(l) && LaterRowsPriced(l)
    ensures LaterRowsPriced(Run(l, run))
    decreases run
  {
    hide Inv, Handle, LaterRowsPriced, FreeOnlyFirst, Advances;
    if run != [] {
      HandleGood(l, run[0].request, run[0].now);
      HandleFreeOnlyFirst(l, run[0].request, run[0].now);
      PricedStep(l, Handle(l, run[0].request, run[0].now).0);
      RunKeepsPriced(Handle(l, run[0].request, run[0].now).0, run[1..]);
    }
  }

  /** A user has at most one trial in any run, running or over, and nothing before it. */
  lemma TrialOnlyOnce(corpers: set<nat>, run: seq<Timed>)
    ensures Inv(EmptyLedger(corpers))
    ensures var m := Run(EmptyLedger(corpers), run);
      && LaterRowsPriced(m)
      && forall j, k :: 0 <= j < k < |m.subs| && m.subs[j].user == m.subs[k].user ==> m.subs[k].status != Trial
  {
    hide CalculateEnd;
    EmptyInv(corpers);
    RunKeepsPriced(EmptyLedger(corpers), run);
    var m := Run(EmptyLedger(corpers), run);
    forall k | 0 <= k < |m.subs| && m.subs[k].status == Trial ensures m.subs[k].plan.price == 0 {
      assert TermOk(m.subs[k]);
    }
  }
}
