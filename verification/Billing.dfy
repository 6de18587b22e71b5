/**
 * Billing: payment attempts, subscriptions and the requests that drive them.
 *
 * A `Ledger` holds every row. Rows are addressed by position, which is also their creation order and,
 * for a payment, its reference. Each request is one atomic step at one instant; what the payment
 * provider answers is an argument of the step.
 */
module Billing {
  import opened Wrappers
  import opened Calendar
  import opened Rounding

  // ---- Rows ----

  datatype Plan = Plan(code: string, price: nat, currency: string, interval: Interval,
                       forCorpers: bool, active: bool)

  datatype SubscriptionStatus = AwaitingPayment | Trial | Active | PastDue | Stopped | Ended

  datatype Subscription = Subscription(user: nat, plan: Plan, status: SubscriptionStatus,
                                       startsAt: Instant, endsAt: Option<Instant>,
                                       nextBillingAt: Option<Instant>, effectiveStart: Option<Instant>)

  datatype Gateway = Flutterwave | Card

  datatype AttemptStatus = Pending | Processing | Successful | Failed | Cancelled | Expired | Abandoned

  datatype Transaction = Transaction(user: nat, subscription: nat, gateway: Gateway, amountKobo: nat,
                                     currency: string, createdAt: Instant, status: AttemptStatus,
                                     paidAt: Option<Instant>, charge: Option<Reply>)

  /** The provider-side mirror kept for Flutterwave payments. */
  datatype Record = Record(reference: nat, providerId: string, status: AttemptStatus,
                           verifiedAt: Option<Instant>)

  /** The fields read out of a provider payload. */
  datatype Reply = Reply(reference: Option<nat>, providerId: string, amount: real, currency: string,
                         status: string)

  /** What a status query brings back: it may raise, find nothing, or find a charge. */
  datatype Answer = Raised | NoCharge | Charge(reply: Reply)

  datatype Outcome = Success | Failure | InProgress

  datatype Response = Ok | BadRequest | Forbidden | NotFound | Conflict | ProviderError

  datatype Ledger = Ledger(corpers: set<nat>, subs: seq<Subscription>, txs: seq<Transaction>,
                           records: map<nat, Record>, processedEvents: set<string>,
                           activations: multiset<nat>, successNotices: multiset<nat>,
                           failureNotices: multiset<nat>)

  function EmptyLedger(corpers: set<nat>): Ledger {
    Ledger(corpers, [], [], map[], {}, multiset{}, multiset{}, multiset{})
  }

  const ATTEMPT_EXPIRY: nat := 120 * MINUTE

  predicate Open(s: AttemptStatus) { s in {Pending, Processing} }

  predicate Unsuccessful(s: AttemptStatus) { s in {Failed, Cancelled, Expired, Abandoned} }

  predicate Lapsable(s: SubscriptionStatus) { s in {Trial, Active, Stopped} }

  /** Every payment row points at a subscription row. */
  predicate Linked(l: Ledger) {
    forall i :: 0 <= i < |l.txs| ==> l.txs[i].subscription < |l.subs|
  }

  // ---- Provider vocabulary ----

  function ExtractStatus(status: string): Outcome {
    if status in {"success", "successful", "succeeded", "completed"} then Success
    else if status in {"pending", "processing", "ongoing", "authorized", "active"} then InProgress
    else Failure
  }

  function ExtractCardStatus(status: string): Outcome {
    if status == "success" then Success else if status == "failed" then Failure else InProgress
  }

  function RedirectStatus(status: string): Option<AttemptStatus> {
    if status in {"successful", "success", "succeeded", "completed"} then Some(Successful)
    else if status in {"cancelled", "canceled"} then Some(Cancelled)
    else if status in {"session_expired", "expired"} then Some(Expired)
    else if status == "abandoned" then Some(Abandoned)
    else if status in {"failed", "failure"} then Some(Failed)
    else None
  }

  /** The charge names payment `i`, its currency, and an amount that rounds to the kobo charged. */
  predicate ChargeMatches(t: Transaction, i: nat, r: Reply) {
    r.reference == Some(i) && HalfEven(r.amount * 100.0) == t.amountKobo && r.currency == t.currency
  }

  // ---- Subscription rows ----

  function Lapse(s: Subscription, now: Instant): Subscription {
    if Lapsable(s.status) && s.endsAt.Some? && s.endsAt.value <= now
    then s.(status := Ended, nextBillingAt := None) else s
  }

  function LapseUser(subs: seq<Subscription>, user: nat, now: Instant): (r: seq<Subscription>)
    ensures |r| == |subs|
    ensures forall k :: 0 <= k < |r| ==> r[k] == if subs[k].user == user then Lapse(subs[k], now) else subs[k]
  {
    seq(|subs|, k requires 0 <= k < |subs| => if subs[k].user == user then Lapse(subs[k], now) else subs[k])
  }

  /** Activation ends every other running subscription of the user and starts the chosen one. */
  function Supersede(s: Subscription): Subscription {
    if Lapsable(s.status) then s.(status := Ended, nextBillingAt := None) else s
  }

  function StartPaid(s: Subscription, startsAt: Instant): Subscription {
    var end := CalculateEnd(s.plan.interval, startsAt);
    s.(status := Active, startsAt := startsAt, endsAt := Some(end), nextBillingAt := Some(end))
  }

  function ActivateSub(subs: seq<Subscription>, chosen: nat, startsAt: Instant): (r: seq<Subscription>)
    requires chosen < |subs|
    ensures |r| == |subs|
    ensures forall k :: 0 <= k < |r| ==>
              r[k] == if k == chosen then StartPaid(subs[k], startsAt)
                      else if subs[k].user == subs[chosen].user then Supersede(subs[k]) else subs[k]
  {
    seq(|subs|, k requires 0 <= k < |subs| =>
      if k == chosen then StartPaid(subs[k], startsAt)
      else if subs[k].user == subs[chosen].user then Supersede(subs[k]) else subs[k])
  }

  // ---- Steps on one payment ----

  function SyncRecord(l: Ledger, i: nat, charge: Option<Reply>, verified: bool, now: Instant): (m: Ledger)
    requires i < |l.txs|
    ensures m == l.(records := m.records)
  {
    if !l.txs[i].gateway.Flutterwave? then l
    else
      var mirror := if i in l.records then l.records[i] else Record(i, "", l.txs[i].status, None);
      var providerId := if charge.Some? && charge.value.providerId != "" then charge.value.providerId
                        else mirror.providerId;
      l.(records := l.records[i := Record(i, providerId, l.txs[i].status,
                                          if verified then Some(now) else mirror.verifiedAt)])
  }

  function WithTx(l: Ledger, i: nat, t: Transaction): Ledger
    requires i < |l.txs|
  {
    l.(txs := l.txs[i := t])
  }

  function SettleSub(s: Subscription, status: AttemptStatus): Subscription {
    if s.status != AwaitingPayment then s
    else s.(status := if status == Cancelled then Stopped else PastDue)
  }

  /** Ends an attempt unsuccessfully. It checks nothing: its callers must. */
  function SetTerminal(l: Ledger, i: nat, status: AttemptStatus, charge: Option<Reply>, now: Instant): Ledger
    requires i < |l.txs| && l.txs[i].subscription < |l.subs|
  {
    var t := l.txs[i];
    var merged := if charge.Some? then charge else t.charge;
    var t' := t.(status := status, charge := merged,
                 paidAt := if status != Successful then None else t.paidAt);
    var l1 := SyncRecord(WithTx(l, i, t'), i, merged, true, now);
    var l2 := l1.(subs := l1.subs[t.subscription := SettleSub(l1.subs[t.subscription], status)]);
    if status == Successful then l2.(successNotices := l2.successNotices + multiset{i})
    else l2.(failureNotices := l2.failureNotices + multiset{i})
  }

  function Succeed(l: Ledger, i: nat, r: Reply, now: Instant): Ledger
    requires i < |l.txs| && l.txs[i].subscription < |l.subs|
  {
    var t := l.txs[i];
    var paidAt := if t.paidAt.Some? then t.paidAt.value else now;
    var l1 := SyncRecord(WithTx(l, i, t.(status := Successful, paidAt := Some(paidAt), charge := Some(r))),
                         i, Some(r), true, now);
    var sub := l.subs[t.subscription];
    var startsAt := if sub.effectiveStart.Some? then sub.effectiveStart.value else paidAt;
    l1.(subs := ActivateSub(l1.subs, t.subscription, startsAt),
        activations := l1.activations + multiset{i},
        successNotices := l1.successNotices + multiset{i})
  }

  function KeepGoing(l: Ledger, i: nat, r: Reply, now: Instant): Ledger
    requires i < |l.txs|
  {
    var t := l.txs[i];
    var t' := t.(status := if t.status == Pending then Processing else t.status, charge := Some(r));
    SyncRecord(WithTx(l, i, t'), i, Some(r), true, now)
  }

  function ApplyOutcome(l: Ledger, i: nat, r: Reply, outcome: Outcome, now: Instant): Ledger
    requires i < |l.txs| && l.txs[i].subscription < |l.subs|
  {
    var status := l.txs[i].status;
    if status == Successful then SyncRecord(l, i, Some(r), false, now)
    else if Unsuccessful(status) && outcome == Failure then SyncRecord(l, i, Some(r), false, now)
    else match outcome
      case Success => Succeed(l, i, r, now)
      case Failure => SetTerminal(l, i, Failed, Some(r), now)
      case InProgress => KeepGoing(l, i, r, now)
  }

  /** The id to ask the provider about, empty when none is known. */
  function PreferredId(l: Ledger, i: nat, providerId: string): string {
    if providerId != "" then providerId else if i in l.records then l.records[i].providerId else ""
  }

  function VerifyFlutterwave(l: Ledger, i: nat, providerId: string, redirect: string,
                             first: Answer, second: Answer, now: Instant): (Ledger, Response)
    requires i < |l.txs| && l.txs[i].subscription < |l.subs|
  {
    var preferred := PreferredId(l, i, providerId);
    var mapped := RedirectStatus(redirect);
    if preferred == "" && !Open(l.txs[i].status) then (SyncRecord(l, i, None, false, now), Ok)
    else if preferred == "" && mapped.Some? && Unsuccessful(mapped.value) then
      (SetTerminal(l, i, mapped.value, None, now), Ok)
    else
      var answer := if first.Raised? && preferred != "" then second else first;
      match answer
      case Raised => (l, ProviderError)
      case NoCharge => (SyncRecord(l, i, None, false, now), Ok)
      case Charge(r) =>
        var outcome := if ChargeMatches(l.txs[i], i, r) then ExtractStatus(r.status) else Failure;
        (ApplyOutcome(l, i, r, outcome, now), Ok)
  }

  // ---- The timeout sweep ----

  predicate Stale(t: Transaction, who: Option<nat>, now: Instant) {
    t.status == Pending && t.createdAt + ATTEMPT_EXPIRY <= now && (who.Some? ==> t.user == who.value)
  }

  /** Expires the stale payments among the first `n`, the newest first, counting them. */
  function SweepFrom(l: Ledger, n: nat, who: Option<nat>, now: Instant): (Ledger, nat)
    requires n <= |l.txs| && Linked(l)
    decreases n
  {
    if n == 0 then (l, 0)
    else if Stale(l.txs[n - 1], who, now) then
      var (rest, count) := SweepFrom(SetTerminal(l, n - 1, Expired, None, now), n - 1, who, now);
      (rest, count + 1)
    else SweepFrom(l, n - 1, who, now)
  }

  function Sweep(l: Ledger, who: Option<nat>, now: Instant): (Ledger, nat)
    requires Linked(l)
  {
    SweepFrom(l, |l.txs|, who, now)
  }

  // ---- Subscription requests ----

  function Refresh(l: Ledger, user: nat, now: Instant): Ledger {
    if user !in l.corpers then l else l.(subs := LapseUser(l.subs, user, now))
  }

  predicate HasSubscription(l: Ledger, user: nat) {
    exists k :: 0 <= k < |l.subs| && l.subs[k].user == user
  }

  predicate HasOpenAttempt(l: Ledger, user: nat) {
    exists i :: 0 <= i < |l.txs| && l.txs[i].user == user && Open(l.txs[i].status)
  }

  const RANKED_PLANS := {"free", "three-months", "six-months", "twelve-months"}

  function AddTrial(l: Ledger, user: nat, plan: Plan, now: Instant): Ledger {
    var end := CalculateEnd(plan.interval, now);
    l.(subs := l.subs + [Subscription(user, plan, Trial, now, Some(end), Some(end), None)])
  }

  function AddPending(l: Ledger, user: nat, plan: Plan, gateway: Gateway, now: Instant): Ledger {
    var sub := Subscription(user, plan, AwaitingPayment, now, None, None, Some(now));
    var t := Transaction(user, |l.subs|, gateway, plan.price, plan.currency, now, Pending, None, None);
    SyncRecord(l.(subs := l.subs + [sub], txs := l.txs + [t]), |l.txs|, None, false, now)
  }

  /** The checkout could not be opened: the newest attempt fails on the spot, with no notice. */
  function FailCheckout(l: Ledger, now: Instant): Ledger
    requires |l.txs| > 0 && l.txs[|l.txs| - 1].subscription < |l.subs|
  {
    var i := |l.txs| - 1;
    var k := l.txs[i].subscription;
    var l1 := SyncRecord(WithTx(l, i, l.txs[i].(status := Failed)), i, None, false, now);
    l1.(subs := l1.subs[k := l1.subs[k].(status := PastDue)])
  }

  function CreatePending(l: Ledger, user: nat, plan: Plan, gateway: Gateway, checkoutFails: bool, now: Instant):
    (Ledger, Response)
    requires Linked(l)
  {
    SweepKeepsLinked(l, |l.txs|, Some(user), now);
    var l1 := AddPending(Sweep(l, Some(user), now).0, user, plan, gateway, now);
    if gateway.Flutterwave? && checkoutFails then (FailCheckout(l1, now), ProviderError) else (l1, Ok)
  }

  function StartPayment(l: Ledger, user: nat, plan: Plan, gateway: Gateway, checkoutFails: bool, now: Instant):
    (Ledger, Response)
    requires Linked(l)
  {
    SweepKeepsLinked(l, |l.txs|, Some(user), now);
    var swept := Sweep(l, Some(user), now).0;
    if HasOpenAttempt(swept, user) then (swept, Conflict)
    else
      var refreshed := Refresh(swept, user, now);
      if plan.code !in RANKED_PLANS then (refreshed, Forbidden)
      else CreatePending(refreshed, user, plan, gateway, checkoutFails, now)
  }

  lemma {:induction false} SweepKeepsLinked(l: Ledger, n: nat, who: Option<nat>, now: Instant)
    requires n <= |l.txs| && Linked(l)
    ensures Linked(SweepFrom(l, n, who, now).0)
    ensures |SweepFrom(l, n, who, now).0.txs| == |l.txs|
    ensures |SweepFrom(l, n, who, now).0.subs| == |l.subs|
    ensures SweepFrom(l, n, who, now).0.corpers == l.corpers
    decreases n
  {
    if n > 0 {
      if Stale(l.txs[n - 1], who, now) {
        SweepKeepsLinked(SetTerminal(l, n - 1, Expired, None, now), n - 1, who, now);
      } else {
        SweepKeepsLinked(l, n - 1, who, now);
      }
    }
  }

  // ---- Requests ----

  datatype Request =
    | Initiate(user: nat, onboarded: bool, plan: Plan, gateway: Gateway, checkoutFails: bool)
    | Reactivate(user: nat, plan: Plan, gateway: Gateway, checkoutFails: bool)
    | ListAttempts(user: nat)
    | SweepAll
    | Cancel(user: nat, payment: nat)
    | Redirect(reference: nat, providerId: string, status: string, first: Answer, second: Answer)
    | Poll(reference: nat, first: Answer, second: Answer)
    | Webhook(event: string, gateway: Gateway, payload: Reply, first: Answer, second: Answer)
    | Query(user: nat)

  function CancelAttempt(l: Ledger, i: nat, now: Instant): Ledger
    requires i < |l.txs| && l.txs[i].subscription < |l.subs|
  {
    if !Open(l.txs[i].status) then l else SetTerminal(l, i, Cancelled, None, now)
  }

  function InitiatePayment(l: Ledger, user: nat, onboarded: bool, plan: Plan, gateway: Gateway,
                           checkoutFails: bool, now: Instant): (Ledger, Response)
    requires Linked(l)
  {
    if user !in l.corpers || !onboarded then (l, Forbidden)
    else if !plan.active then (l, NotFound)
    else if !plan.forCorpers then (l, Forbidden)
    else if plan.price == 0 then
      if HasSubscription(l, user) then (l, BadRequest) else (AddTrial(l, user, plan, now), Ok)
    else StartPayment(l, user, plan, gateway, checkoutFails, now)
  }

  function ReactivatePayment(l: Ledger, user: nat, plan: Plan, gateway: Gateway, checkoutFails: bool,
                             now: Instant): (Ledger, Response)
    requires Linked(l)
  {
    if user !in l.corpers then (l, Forbidden)
    else if !plan.active then (l, NotFound)
    else if !plan.forCorpers then (l, Forbidden)
    else if plan.price == 0 then (l, BadRequest)
    else StartPayment(l, user, plan, gateway, checkoutFails, now)
  }

  function VerifyByReference(l: Ledger, reference: nat, providerId: string, redirect: string,
                             first: Answer, second: Answer, now: Instant): (Ledger, Response)
    requires Linked(l)
  {
    SweepKeepsLinked(l, |l.txs|, None, now);
    var swept := Sweep(l, None, now).0;
    if reference < |swept.txs| && swept.txs[reference].gateway.Flutterwave?
    then VerifyFlutterwave(swept, reference, providerId, redirect, first, second, now)
    else (swept, NotFound)
  }

  function PollStatus(l: Ledger, reference: nat, first: Answer, second: Answer, now: Instant): (Ledger, Response)
    requires Linked(l)
  {
    if reference >= |l.txs| then (l, NotFound)
    else if l.txs[reference].status == Successful then (l, Ok)
    else
      SweepKeepsLinked(l, |l.txs|, Some(l.txs[reference].user), now);
      var swept := Sweep(l, Some(l.txs[reference].user), now).0;
      if swept.txs[reference].gateway.Flutterwave?
      then VerifyFlutterwave(swept, reference, "", "", first, second, now)
      else (swept, Ok)
  }

  function ProcessWebhook(l: Ledger, event: string, gateway: Gateway, payload: Reply,
                          first: Answer, second: Answer, now: Instant): (Ledger, Response)
    requires Linked(l)
  {
    if event in l.processedEvents then (l, Ok)
    else if payload.reference.None? || payload.reference.value >= |l.txs|
            || l.txs[payload.reference.value].gateway != gateway then (l, NotFound)
    else
      var i := payload.reference.value;
      var (l1, response) :=
        if gateway.Flutterwave? then VerifyFlutterwave(l, i, payload.providerId, "", first, second, now)
        else (ApplyOutcome(l, i, payload, ExtractCardStatus(payload.status), now), Ok);
      (if response == Ok then l1.(processedEvents := l1.processedEvents + {event}) else l1, response)
  }

  function Handle(l: Ledger, request: Request, now: Instant): (Ledger, Response)
    requires Linked(l)
  {
    match request
    case Initiate(user, onboarded, plan, gateway, fails) =>
      InitiatePayment(l, user, onboarded, plan, gateway, fails, now)
    case Reactivate(user, plan, gateway, fails) => ReactivatePayment(l, user, plan, gateway, fails, now)
    case ListAttempts(user) => (Sweep(l, Some(user), now).0, Ok)
    case SweepAll => (Sweep(l, None, now).0, Ok)
    case Cancel(user, i) =>
      if i < |l.txs| && l.txs[i].user == user then (CancelAttempt(l, i, now), Ok) else (l, NotFound)
    case Redirect(i, id, status, first, second) => VerifyByReference(l, i, id, status, first, second, now)
    case Poll(i, first, second) => PollStatus(l, i, first, second, now)
    case Webhook(event, gateway, payload, first, second) =>
      ProcessWebhook(l, event, gateway, payload, first, second, now)
    case Query(user) => (Refresh(l, user, now), Ok)
  }
}
