/**
 * Laws over sequences: provider outcomes fold to a join, whatever their order; and expiring lapsed
 * subscriptions early or late makes no difference to any later answer.
 */
module BillingLaws {
  import opened Wrappers
  import opened Calendar
  import opened Billing
  import opened BillingSafety
  import opened BillingRuns
  import opened BillingAccess

  // ---- Outcomes fold to a join ----

  datatype Report = Report(reply: Reply, outcome: Outcome, now: Instant)

  lemma ApplyLinked(l: Ledger, i: nat, r: Reply, outcome: Outcome, now: Instant)
    requires Linked(l) && i < |l.txs|
    ensures var m := ApplyOutcome(l, i, r, outcome, now);
            Linked(m) && |m.txs| == |l.txs| && |m.subs| == |l.subs|
  {
  }

  /** The reports applied to one payment, in order. */
  function Fold(l: Ledger, i: nat, reports: seq<Report>): (m: Ledger)
    requires Linked(l) && i < |l.txs|
    ensures Linked(m) && |m.txs| == |l.txs| && |m.subs| == |l.subs|
  {
    hide ApplyOutcome;
    if reports == [] then l
    else
      var last := reports[|reports| - 1];
      ApplyLinked(Fold(l, i, reports[..|reports| - 1]), i, last.reply, last.outcome, last.now);
      ApplyOutcome(Fold(l, i, reports[..|reports| - 1]), i, last.reply, last.outcome, last.now)
  }

  predicate Reports(reports: seq<Report>, o: Outcome) {
    exists k :: 0 <= k < |reports| && reports[k].outcome == o
  }

  /** The join in the order pending, processing, failed, successful. */
  function Join(reports: seq<Report>): AttemptStatus {
    if Reports(reports, Success) then Successful
    else if Reports(reports, Failure) then Failed
    else if reports != [] then Processing
    else Pending
  }

  lemma ReportsLast(reports: seq<Report>, o: Outcome)
    requires reports != []
    ensures Reports(reports, o) <==>
              Reports(reports[..|reports| - 1], o) || reports[|reports| - 1].outcome == o
  {
    var n := |reports| - 1;
    if Reports(reports, o) {
      var k :| 0 <= k < |reports| && reports[k].outcome == o;
      assert k < n ==> reports[..n][k].outcome == o;
    }
    if Reports(reports[..n], o) {
      var k :| 0 <= k < n && reports[..n][k].outcome == o;
      assert reports[k].outcome == o;
    }
  }

  /** From a fresh payment, any finite sequence of reports ends in their join, whatever charges they carry,
      and the subscription is activated once if a success is among them and never otherwise. */
  lemma {:induction false} FoldIsJoin(l: Ledger, i: nat, reports: seq<Report>)
    requires Linked(l) && i < |l.txs| && l.txs[i].status == Pending
    ensures var m := Fold(l, i, reports);
      && m.txs[i].status == Join(reports)
      && m.activations[i] == l.activations[i] + (if Reports(reports, Success) then 1 else 0)
    decreases |reports|
  {
    hide ApplyOutcome, Reports;
    if reports == [] {
      NothingReported();
    } else {
      var n := |reports| - 1;
      FoldIsJoin(l, i, reports[..n]);
      ReportsLast(reports, Success);
      ReportsLast(reports, Failure);
      NextStatus(Fold(l, i, reports[..n]), i, reports[n]);
    }
  }

  predicate Trustworthy(t: Transaction, i: nat, reports: seq<Report>) {
    t.gateway.Flutterwave? ==>
      forall k :: 0 <= k < |reports| && reports[k].outcome == Success ==>
        ChargeMatches(t, i, reports[k].reply) && ExtractStatus(reports[k].reply.status) == Success
  }

  /** When each Flutterwave success carries a matching charge, as its callers see to, the books are kept. */
  lemma {:induction false} FoldKeepsBooks(l: Ledger, i: nat, reports: seq<Report>)
    requires Inv(l) && i < |l.txs| && Trustworthy(l.txs[i], i, reports)
    ensures Linked(l) && Good(l, Fold(l, i, reports))
    decreases |reports|
  {
    hide ApplyOutcome, ChargeMatches, Inv;
    RowsOfInv(l);
    if reports != [] {
      var n := |reports| - 1;
      var last := reports[n];
      assert Trustworthy(l.txs[i], i, reports[..n]);
      FoldKeepsBooks(l, i, reports[..n]);
      var before := Fold(l, i, reports[..n]);
      assert PaymentAdvances(l.txs[i], before.txs[i]);
      SameTermsMatch(l.txs[i], before.txs[i], i, last.reply);
      ApplyOutcomeGood(before, i, last.reply, last.outcome, last.now);
      GoodTransitive(l, before, Fold(l, i, reports));
    }
  }

  lemma NothingReported()
    ensures !Reports([], Success) && !Reports([], Failure)
  {
  }

  lemma SameTermsMatch(t: Transaction, u: Transaction, i: nat, r: Reply)
    requires PaymentAdvances(t, u)
    ensures ChargeMatches(t, i, r) <==> ChargeMatches(u, i, r)
    ensures t.gateway == u.gateway
  {
  }

  lemma NextStatus(l: Ledger, i: nat, last: Report)
    requires Linked(l) && i < |l.txs|
    ensures var s, m := l.txs[i].status, ApplyOutcome(l, i, last.reply, last.outcome, last.now);
      && |m.txs| == |l.txs|
      && m.txs[i].status == (if last.outcome == Success then Successful
                            else if s == Successful || Unsuccessful(s) then s
                            else if last.outcome == Failure then Failed else Processing)
      && m.activations[i] == l.activations[i] + (if last.outcome == Success && s != Successful then 1 else 0)
  {
  }

  /** So neither order nor repetition matters: the same set of outcomes gives the same status. */
  lemma OrderNeverMatters(l: Ledger, i: nat, a: seq<Report>, b: seq<Report>)
    requires Linked(l) && i < |l.txs| && l.txs[i].status == Pending
    requires forall o: Outcome :: Reports(a, o) <==> Reports(b, o)
    ensures Fold(l, i, a).txs[i].status == Fold(l, i, b).txs[i].status
    ensures Fold(l, i, a).activations[i] == Fold(l, i, b).activations[i]
  {
    FoldIsJoin(l, i, a);
    FoldIsJoin(l, i, b);
    assert a != [] ==> Reports(a, a[0].outcome);
    assert b != [] ==> Reports(b, b[0].outcome);
  }

  // ---- Lazy expiry is eager expiry ----

  /** Two ledgers that differ at most in rows one of which has already been marked as lapsed by `t`. */
  ghost predicate Alike(a: Ledger, b: Ledger, t: Instant) {
    && a.(subs := b.subs) == b && |a.subs| == |b.subs|
    && forall k :: 0 <= k < |a.subs| ==> Lapse(a.subs[k], t) == Lapse(b.subs[k], t)
  }

  lemma AlikeLater(a: Ledger, b: Ledger, t: Instant, u: Instant)
    requires Alike(a, b, t) && t <= u
    ensures Alike(a, b, u)
  {
    forall k | 0 <= k < |a.subs| ensures Lapse(a.subs[k], u) == Lapse(b.subs[k], u) {
      assert Lapse(Lapse(a.subs[k], t), u) == Lapse(a.subs[k], u);
      assert Lapse(Lapse(b.subs[k], t), u) == Lapse(b.subs[k], u);
    }
  }

  lemma RefreshAlike(a: Ledger, user: nat, t: Instant)
    ensures Alike(a, Refresh(a, user, t), t)
  {
  }

  lemma AlikeAnswers(a: Ledger, b: Ledger, user: nat, t: Instant)
    requires Alike(a, b, t)
    ensures CurrentBrowse(a, user, t) == CurrentBrowse(b, user, t)
    ensures CurrentPaid(a, user, t) == CurrentPaid(b, user, t)
  {
    if user in a.corpers {
      var x, y := Refresh(a, user, t).subs, Refresh(b, user, t).subs;
      assert forall k :: 0 <= k < |x| && x[k].user == user ==> x[k] == y[k];
      assert forall k :: 0 <= k < |x| ==> x[k].user == y[k].user;
      NewestAlike(x, y, |x|, user, Browsable);
      NewestAlike(x, y, |x|, user, PaidRow);
    }
  }

  lemma {:induction false} NewestAlike(x: seq<Subscription>, y: seq<Subscription>, n: nat, user: nat,
                                       test: Subscription -> bool)
    requires n <= |x| == |y|
    requires forall k :: 0 <= k < |x| ==> x[k].user == y[k].user
    requires forall k :: 0 <= k < |x| && x[k].user == user ==> x[k] == y[k]
    ensures Newest(x, n, user, test) == Newest(y, n, user, test)
  {
    if n > 0 { NewestAlike(x, y, n - 1, user, test); }
  }

  lemma SyncIgnoresSubs(l: Ledger, subs: seq<Subscription>, i: nat, charge: Option<Reply>, verified: bool, t: Instant)
    requires i < |l.txs|
    ensures SyncRecord(l.(subs := subs), i, charge, verified, t) == SyncRecord(l, i, charge, verified, t).(subs := subs)
    ensures SyncRecord(l, i, charge, verified, t).subs == l.subs
  {
  }

  lemma SetTerminalAlike(a: Ledger, b: Ledger, i: nat, status: AttemptStatus, charge: Option<Reply>, t: Instant)
    requires Alike(a, b, t) && i < |a.txs| && a.txs[i].subscription < |a.subs|
    ensures Alike(SetTerminal(a, i, status, charge, t), SetTerminal(b, i, status, charge, t), t)
  {
    hide SyncRecord;
    var k := a.txs[i].subscription;
    assert Lapse(SettleSub(a.subs[k], status), t) == Lapse(SettleSub(b.subs[k], status), t);
    var merged := if charge.Some? then charge else a.txs[i].charge;
    var u := a.txs[i].(status := status, charge := merged,
                       paidAt := if status != Successful then None else a.txs[i].paidAt);
    SyncIgnoresSubs(WithTx(a, i, u), b.subs, i, merged, true, t);
    assert WithTx(b, i, u) == WithTx(a, i, u).(subs := b.subs);
  }

  lemma SucceedAlike(a: Ledger, b: Ledger, i: nat, r: Reply, t: Instant)
    requires Alike(a, b, t) && i < |a.txs| && a.txs[i].subscription < |a.subs|
    ensures Alike(Succeed(a, i, r, t), Succeed(b, i, r, t), t)
  {
    hide CalculateEnd;
    var k := a.txs[i].subscription;
    assert Lapse(a.subs[k], t) == Lapse(b.subs[k], t);
    forall j | 0 <= j < |a.subs|
      ensures a.subs[j].user == b.subs[j].user
      ensures Lapse(Supersede(a.subs[j]), t) == Lapse(Supersede(b.subs[j]), t)
    {
      assert Lapse(a.subs[j], t) == Lapse(b.subs[j], t);
    }
  }

  lemma ApplyAlike(a: Ledger, b: Ledger, i: nat, r: Reply, outcome: Outcome, t: Instant)
    requires Alike(a, b, t) && i < |a.txs| && a.txs[i].subscription < |a.subs|
    ensures Alike(ApplyOutcome(a, i, r, outcome, t), ApplyOutcome(b, i, r, outcome, t), t)
  {
    hide SetTerminal, Succeed;
    SetTerminalAlike(a, b, i, Failed, Some(r), t);
    SucceedAlike(a, b, i, r, t);
  }

  lemma VerifyAlike(a: Ledger, b: Ledger, i: nat, id: string, redirect: string, first: Answer, second: Answer,
                    t: Instant)
    requires Alike(a, b, t) && i < |a.txs| && a.txs[i].subscription < |a.subs|
    ensures var (m, x) := VerifyFlutterwave(a, i, id, redirect, first, second, t);
            var (n, y) := VerifyFlutterwave(b, i, id, redirect, first, second, t);
            Alike(m, n, t) && x == y
  {
    hide SetTerminal, ApplyOutcome;
    var mapped := RedirectStatus(redirect);
    if mapped.Some? { SetTerminalAlike(a, b, i, mapped.value, None, t); }
    var answer := if first.Raised? && PreferredId(a, i, id) != "" then second else first;
    if answer.Charge? {
      var r := answer.reply;
      ApplyAlike(a, b, i, r, if ChargeMatches(a.txs[i], i, r) then ExtractStatus(r.status) else Failure, t);
    }
  }

  lemma {:induction false} SweepAlike(a: Ledger, b: Ledger, n: nat, who: Option<nat>, t: Instant)
    requires Alike(a, b, t) && Linked(a) && n <= |a.txs|
    ensures Linked(b)
    ensures Alike(SweepFrom(a, n, who, t).0, SweepFrom(b, n, who, t).0, t)
    decreases n
  {
    hide SetTerminal;
    if n > 0 {
      if Stale(a.txs[n - 1], who, t) {
        ExpireOne(a, n - 1, t);
        SetTerminalAlike(a, b, n - 1, Expired, None, t);
        SweepAlike(SetTerminal(a, n - 1, Expired, None, t), SetTerminal(b, n - 1, Expired, None, t), n - 1, who, t);
      } else {
        SweepAlike(a, b, n - 1, who, t);
      }
    }
  }

  lemma UsersAlike(a: Ledger, b: Ledger, user: nat, t: Instant)
    requires Alike(a, b, t)
    ensures HasSubscription(a, user) <==> HasSubscription(b, user)
    ensures Alike(Refresh(a, user, t), Refresh(b, user, t), t)
  {
    forall k | 0 <= k < |a.subs| ensures a.subs[k].user == b.subs[k].user {
      assert Lapse(a.subs[k], t) == Lapse(b.subs[k], t);
    }
  }

  lemma CreateAlike(a: Ledger, b: Ledger, user: nat, plan: Plan, gateway: Gateway, fails: bool, t: Instant)
    requires Alike(a, b, t) && Linked(a)
    ensures Linked(b)
    ensures var (m, x) := CreatePending(a, user, plan, gateway, fails, t);
            var (n, y) := CreatePending(b, user, plan, gateway, fails, t);
            Alike(m, n, t) && x == y
  {
    hide SweepFrom, SyncRecord;
    SweepAlike(a, b, |a.txs|, Some(user), t);
    var c, d := Sweep(a, Some(user), t).0, Sweep(b, Some(user), t).0;
    AddPendingAlike(c, d, user, plan, gateway, t);
  }

  lemma AddPendingAlike(a: Ledger, b: Ledger, user: nat, plan: Plan, gateway: Gateway, t: Instant)
    requires Alike(a, b, t)
    ensures Alike(AddPending(a, user, plan, gateway, t), AddPending(b, user, plan, gateway, t), t)
    ensures Alike(FailCheckout(AddPending(a, user, plan, gateway, t), t),
                  FailCheckout(AddPending(b, user, plan, gateway, t), t), t)
  {
  }

  lemma StartAlike(a: Ledger, b: Ledger, user: nat, plan: Plan, gateway: Gateway, fails: bool, t: Instant)
    requires Alike(a, b, t) && Linked(a)
    ensures Linked(b)
    ensures var (m, x) := StartPayment(a, user, plan, gateway, fails, t);
            var (n, y) := StartPayment(b, user, plan, gateway, fails, t);
            Alike(m, n, t) && x == y
  {
    hide SweepFrom, CreatePending, Refresh;
    SweepAlike(a, b, |a.txs|, Some(user), t);
    SweepKeepsLinked(a, |a.txs|, Some(user), t);
    var c, d := Sweep(a, Some(user), t).0, Sweep(b, Some(user), t).0;
    UsersAlike(c, d, user, t);
    RefreshLinked(c, user, t);
    CreateAlike(Refresh(c, user, t), Refresh(d, user, t), user, plan, gateway, fails, t);
  }

  lemma RefreshLinked(l: Ledger, user: nat, t: Instant)
    requires Linked(l)
    ensures Linked(Refresh(l, user, t))
  {
  }

  lemma RedirectAlike(a: Ledger, b: Ledger, i: nat, id: string, status: string, first: Answer, second: Answer,
                      t: Instant)
    requires Alike(a, b, t) && Linked(a)
    ensures Linked(b)
    ensures var (m, x) := VerifyByReference(a, i, id, status, first, second, t);
            var (n, y) := VerifyByReference(b, i, id, status, first, second, t);
            Alike(m, n, t) && x == y
  {
    hide SweepFrom, VerifyFlutterwave;
    SweepAlike(a, b, |a.txs|, None, t);
    SweepKeepsLinked(a, |a.txs|, None, t);
    if i < |a.txs| {
      VerifyAlike(Sweep(a, None, t).0, Sweep(b, None, t).0, i, id, status, first, second, t);
    }
  }

  lemma PollAlike(a: Ledger, b: Ledger, i: nat, first: Answer, second: Answer, t: Instant)
    requires Alike(a, b, t) && Linked(a)
    ensures Linked(b)
    ensures var (m, x) := PollStatus(a, i, first, second, t);
            var (n, y) := PollStatus(b, i, first, second, t);
            Alike(m, n, t) && x == y
  {
    hide SweepFrom, VerifyFlutterwave;
    if i < |a.txs| {
      var who := Some(a.txs[i].user);
      SweepAlike(a, b, |a.txs|, who, t);
      SweepKeepsLinked(a, |a.txs|, who, t);
      VerifyAlike(Sweep(a, who, t).0, Sweep(b, who, t).0, i, "", "", first, second, t);
    }
  }

  lemma WebhookAlike(a: Ledger, b: Ledger, event: string, gateway: Gateway, payload: Reply, first: Answer,
                     second: Answer, t: Instant)
    requires Alike(a, b, t) && Linked(a)
    ensures Linked(b)
    ensures var (m, x) := ProcessWebhook(a, event, gateway, payload, first, second, t);
            var (n, y) := ProcessWebhook(b, event, gateway, payload, first, second, t);
            Alike(m, n, t) && x == y
  {
    hide VerifyFlutterwave, ApplyOutcome;
    if payload.reference.Some? && payload.reference.value < |a.txs| {
      var i := payload.reference.value;
      VerifyAlike(a, b, i, payload.providerId, "", first, second, t);
      ApplyAlike(a, b, i, payload, ExtractCardStatus(payload.status), t);
    }
  }

  lemma InitiateAlike(a: Ledger, b: Ledger, user: nat, onboarded: bool, plan: Plan, gateway: Gateway, fails: bool,
                      t: Instant)
    requires Alike(a, b, t) && Linked(a)
    ensures Linked(b)
    ensures var (m, x) := InitiatePayment(a, user, onboarded, plan, gateway, fails, t);
            var (n, y) := InitiatePayment(b, user, onboarded, plan, gateway, fails, t);
            Alike(m, n, t) && x == y
  {
    hide StartPayment, Refresh, CalculateEnd;
    UsersAlike(a, b, user, t);
    StartAlike(a, b, user, plan, gateway, fails, t);
  }

  /** No request can tell alike ledgers apart, and each leaves them alike. */
  lemma HandleAlike(a: Ledger, b: Ledger, q: Request, t: Instant)
    requires Alike(a, b, t) && Linked(a)
    ensures Linked(b)
    ensures Alike(Handle(a, q, t).0, Handle(b, q, t).0, t) && Handle(a, q, t).1 == Handle(b, q, t).1
  {
    hide SweepFrom, StartPayment, InitiatePayment, VerifyByReference, PollStatus, ProcessWebhook, SetTerminal, Refresh;
    match q
    case Initiate(user, onboarded, plan, gateway, fails) =>
      InitiateAlike(a, b, user, onboarded, plan, gateway, fails, t);
    case Reactivate(user, plan, gateway, fails) => StartAlike(a, b, user, plan, gateway, fails, t);
    case ListAttempts(user) => SweepAlike(a, b, |a.txs|, Some(user), t);
    case SweepAll => SweepAlike(a, b, |a.txs|, None, t);
    case Cancel(user, i) =>
      if i < |a.txs| { SetTerminalAlike(a, b, i, Cancelled, None, t); }
    case Redirect(i, id, status, first, second) => RedirectAlike(a, b, i, id, status, first, second, t);
    case Poll(i, first, second) => PollAlike(a, b, i, first, second, t);
    case Webhook(event, gateway, payload, first, second) =>
      WebhookAlike(a, b, event, gateway, payload, first, second, t);
    case Query(user) => UsersAlike(a, b, user, t);
  }

  // ---- Runs with and without refreshes ----

  predicate InOrder(run: seq<Timed>, from: Instant, to: Instant) {
    if run == [] then from <= to
    else from <= run[0].now && InOrder(run[1..], run[0].now, to)
  }

  function WithoutQueries(run: seq<Timed>): seq<Timed> {
    if run == [] then []
    else if run[0].request.Query? then WithoutQueries(run[1..])
    else [run[0]] + WithoutQueries(run[1..])
  }

  /** Dropping every refresh from a run leaves a ledger that can only differ in lapsed rows. */
  lemma {:induction false} QueriesLeaveNoTrace(a: Ledger, b: Ledger, run: seq<Timed>, from: Instant, to: Instant)
    requires Inv(a) && Inv(b) && Alike(a, b, from) && InOrder(run, from, to)
    ensures Alike(Run(a, run), Run(b, WithoutQueries(run)), to)
    decreases run
  {
    hide Inv, Handle, Alike, Lapse;
    if run == [] {
      AlikeLater(a, b, from, to);
    } else {
      var q, t := run[0].request, run[0].now;
      AlikeLater(a, b, from, t);
      HandleGood(a, q, t);
      var a' := Handle(a, q, t).0;
      if q.Query? {
        QueryAlike(a, b, q, t);
        QueriesLeaveNoTrace(a', b, run[1..], t, to);
      } else {
        HandleGood(b, q, t);
        HandleAlike(a, b, q, t);
        QueriesLeaveNoTrace(a', Handle(b, q, t).0, run[1..], t, to);
        var rest := WithoutQueries(run);
        assert rest[0] == run[0] && rest[1..] == WithoutQueries(run[1..]);
      }
    }
  }

  lemma QueryAlike(a: Ledger, b: Ledger, q: Request, t: Instant)
    requires Linked(a) && Alike(a, b, t) && q.Query?
    ensures Alike(Handle(a, q, t).0, b, t)
  {
    RefreshAlike(a, q.user, t);
  }

  /** Two runs that differ only in when, and how often, lapsed rows were refreshed give every later
      question the same answer. */
  lemma LazyExpiryIsEager(l: Ledger, a: seq<Timed>, b: seq<Timed>, from: Instant, to: Instant, user: nat)
    requires Inv(l) && InOrder(a, from, to) && InOrder(b, from, to)
    requires WithoutQueries(a) == WithoutQueries(b)
    ensures CurrentBrowse(Run(l, a), user, to) == CurrentBrowse(Run(l, b), user, to)
    ensures CurrentPaid(Run(l, a), user, to) == CurrentPaid(Run(l, b), user, to)
    ensures HasPaidAccess(Run(l, a), user, to) == HasPaidAccess(Run(l, b), user, to)
  {
    hide Inv, Run;
    QueriesLeaveNoTrace(l, l, a, from, to);
    QueriesLeaveNoTrace(l, l, b, from, to);
    AlikeAnswers(Run(l, a), Run(l, WithoutQueries(a)), user, to);
    AlikeAnswers(Run(l, b), Run(l, WithoutQueries(b)), user, to);
  }
}
