/** A run that shows a late confirmation ending the access another payment was giving. */
module BillingWitness {
  import opened Wrappers
  import opened Calendar
  import opened Billing
  import opened BillingSafety
  import opened BillingRuns
  import opened BillingAccess

  const QUARTER: Plan := Plan("three-months", 300, "NGN", Quarterly, true, true)
  const YEAR: Plan := Plan("twelve-months", 900, "NGN", Yearly, true, true)
  const USER: nat := 7

  function CardPaid(payment: nat): Reply { Reply(Some(payment), "", 0.0, "", "success") }

  function Order(plan: Plan): Request { Initiate(USER, true, plan, Card, false) }

  function Confirm(event: string, payment: nat): Request {
    Webhook(event, Card, CardPaid(payment), NoCharge, NoCharge)
  }

  /** A quarter is ordered and cancelled; when that quarter would be over, a year is ordered and paid. */
  function Before(start: Instant): seq<Timed> {
    var later := CalculateEnd(Quarterly, start);
    [Timed(Order(QUARTER), start)] + ([Timed(Cancel(USER, 0), start)] +
      ([Timed(Order(YEAR), later)] + ([Timed(Confirm("paid-1", 1), later)] + [])))
  }

  /** Then the provider confirms the first order after all. */
  function Late(start: Instant): Timed { Timed(Confirm("paid-0", 0), CalculateEnd(Quarterly, start)) }

  // ---- The ledgers along the run ----

  function QuarterRow(start: Instant): Subscription {
    Subscription(USER, QUARTER, AwaitingPayment, start, None, None, Some(start))
  }

  function YearRow(later: Instant): Subscription {
    Subscription(USER, YEAR, AwaitingPayment, later, None, None, Some(later))
  }

  function Attempt(k: nat, plan: Plan, now: Instant): Transaction {
    Transaction(USER, k, Card, plan.price, "NGN", now, Pending, None, None)
  }

  function Ordered(start: Instant): Ledger {
    EmptyLedger({USER}).(subs := [QuarterRow(start)], txs := [Attempt(0, QUARTER, start)])
  }

  function CancelledQuarter(start: Instant): Ledger {
    Ordered(start).(subs := [QuarterRow(start).(status := Stopped)],
                    txs := [Attempt(0, QUARTER, start).(status := Cancelled)], failureNotices := multiset{0})
  }

  function OrderedYear(start: Instant, later: Instant): Ledger {
    var l := CancelledQuarter(start);
    l.(subs := l.subs + [YearRow(later)], txs := l.txs + [Attempt(1, YEAR, later)])
  }

  lemma OrderQuarter(start: Instant)
    ensures Handle(EmptyLedger({USER}), Order(QUARTER), start).0 == Ordered(start)
  {
    var l := EmptyLedger({USER});
    assert Sweep(l, Some(USER), start) == (l, 0);
    assert Refresh(l, USER, start) == l;
  }

  lemma CancelQuarter(start: Instant)
    ensures Handle(Ordered(start), Cancel(USER, 0), start).0 == CancelledQuarter(start)
  {
  }

  lemma OrderYear(start: Instant, later: Instant)
    ensures Handle(CancelledQuarter(start), Order(YEAR), later).0 == OrderedYear(start, later)
  {
    var l := CancelledQuarter(start);
    NothingStale(l, 1, Some(USER), later);
    assert Sweep(l, Some(USER), later) == (l, 0);
    assert Refresh(l, USER, later) == l;
    assert !HasOpenAttempt(l, USER);
  }

  function Mark(l: Ledger, event: string): Ledger { l.(processedEvents := l.processedEvents + {event}) }

  lemma ConfirmCard(l: Ledger, event: string, i: nat, now: Instant)
    requires Linked(l) && i < |l.txs| && l.txs[i].gateway.Card? && l.txs[i].status != Successful
    requires event !in l.processedEvents
    ensures Handle(l, Confirm(event, i), now).0 == Mark(Succeed(l, i, CardPaid(i), now), event)
  {
    hide Succeed;
  }

  lemma RunStep(l: Ledger, q: Timed, rest: seq<Timed>)
    requires Inv(l)
    ensures Linked(l) && Inv(Handle(l, q.request, q.now).0)
    ensures Run(l, [q] + rest) == Run(Handle(l, q.request, q.now).0, rest)
  {
    hide Inv, Handle;
    HandleGood(l, q.request, q.now);
    assert ([q] + rest)[1..] == rest;
  }

  lemma {:induction false} RunAppend(l: Ledger, run: seq<Timed>, q: Timed)
    requires Inv(l)
    ensures Linked(Run(l, run)) && Run(l, run + [q]) == Handle(Run(l, run), q.request, q.now).0
    decreases run
  {
    hide Inv, Handle;
    RowsOfInv(Run(l, run));
    if run == [] {
      RunStep(l, q, []);
      assert run + [q] == [q] + [];
    } else {
      HandleGood(l, run[0].request, run[0].now);
      RunAppend(Handle(l, run[0].request, run[0].now).0, run[1..], q);
      assert run + [q] == [run[0]] + (run[1..] + [q]);
      RunStep(l, run[0], run[1..] + [q]);
    }
  }

  lemma RunBefore(start: Instant)
    ensures Inv(EmptyLedger({USER}))
    ensures var later := CalculateEnd(Quarterly, start);
            var l := OrderedYear(start, later);
            Inv(l) && Linked(l) &&
            Run(EmptyLedger({USER}), Before(start)) == Mark(Succeed(l, 1, CardPaid(1), later), "paid-1")
  {
    hide Inv, Handle, Succeed, CalculateEnd;
    var later := CalculateEnd(Quarterly, start);
    EmptyInv({USER});
    OrderQuarter(start);
    CancelQuarter(start);
    OrderYear(start, later);
    var last := [Timed(Confirm("paid-1", 1), later)] + [];
    var third := [Timed(Order(YEAR), later)] + last;
    RunStep(EmptyLedger({USER}), Timed(Order(QUARTER), start), [Timed(Cancel(USER, 0), start)] + third);
    RunStep(Ordered(start), Timed(Cancel(USER, 0), start), third);
    RunStep(CancelledQuarter(start), Timed(Order(YEAR), later), last);
    RunStep(OrderedYear(start, later), Timed(Confirm("paid-1", 1), later), []);
    ConfirmCard(OrderedYear(start, later), "paid-1", 1, later);
  }

  /** "A confirmed payment never costs access" is false: here is the run. */
  lemma LateSuccessCanEndAccess(start: Instant)
    ensures Inv(EmptyLedger({USER}))
    ensures var later := CalculateEnd(Quarterly, start);
      && HasPaidAccess(Run(EmptyLedger({USER}), Before(start)), USER, later)
      && !HasPaidAccess(Run(EmptyLedger({USER}), Before(start) + [Late(start)]), USER, later)
  {
    hide Inv, Handle, CalculateEnd, Run, Newest;
    var later := CalculateEnd(Quarterly, start);
    RunBefore(start);
    RunAppend(EmptyLedger({USER}), Before(start), Late(start));
    var l := OrderedYear(start, later);
    var m := Mark(Succeed(l, 1, CardPaid(1), later), "paid-1");
    SuccessGivesAccess(l, 1, CardPaid(1), later);
    PlanEndsOrdered(later);
    MarkKeepsAnswers(Succeed(l, 1, CardPaid(1), later), "paid-1", later);
    ConfirmCard(m, "paid-0", 0, later);
    SuccessGivesAccess(m, 0, CardPaid(0), later);
    MarkKeepsAnswers(Succeed(m, 0, CardPaid(0), later), "paid-0", later);
  }

  /** "The flag is paid access" is false: a quarter is ordered and cancelled, nothing was ever paid, and the
      flag is raised, at any time after. */
  lemma FlagWithoutAccess(start: Instant, now: Instant)
    ensures Inv(EmptyLedger({USER}))
    ensures var m := Run(EmptyLedger({USER}), [Timed(Order(QUARTER), start), Timed(Cancel(USER, 0), start)]);
      Annotated(m, USER) && !HasPaidAccess(m, USER, now)
  {
    hide Inv, Handle, Run;
    EmptyInv({USER});
    OrderQuarter(start);
    CancelQuarter(start);
    var order, cancel := Timed(Order(QUARTER), start), Timed(Cancel(USER, 0), start);
    RunStep(EmptyLedger({USER}), order, [cancel]);
    RunStep(Ordered(start), cancel, []);
    assert [order, cancel] == [order] + [cancel] && [cancel] == [cancel] + [];
    RunNothing(CancelledQuarter(start));
    assert FlagRow(CancelledQuarter(start).subs[0]);
  }

  lemma RunNothing(l: Ledger)
    requires Inv(l)
    ensures Run(l, []) == l
  {
  }

  lemma MarkKeepsAnswers(l: Ledger, event: string, now: Instant)
    ensures HasPaidAccess(Mark(l, event), USER, now) <==> HasPaidAccess(l, USER, now)
  {
    assert Refresh(Mark(l, event), USER, now).subs == Refresh(l, USER, now).subs;
  }
}
