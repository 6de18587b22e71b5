/**
 * What each billing request does, in the words of providers and the fields of rows: which answer confirms a
 * payment, which ends it, what a new attempt or trial adds, and what stays as it was.
 */
module BillingEffects {
  import opened Wrappers
  import opened Calendar
  import opened Rounding
  import opened Billing
  import opened BillingSafety
  import opened BillingRuns

  // ---- Words and amounts ----

  const SUCCESS_WORDS: set<string> := {"success", "successful", "succeeded", "completed"}

  const PROGRESS_WORDS: set<string> := {"pending", "processing", "ongoing", "authorized", "active"}

  /** `n` is the nearest whole number, the even one of two. */
  predicate RoundsTo(x: real, n: int) {
    n as real - 0.5 <= x <= n as real + 0.5 && (x == n as real - 0.5 || x == n as real + 0.5 ==> n % 2 == 0)
  }

  /** A charge for this very payment, in its currency, of its amount to the kobo. */
  predicate IsFor(r: Reply, t: Transaction, i: nat) {
    r.reference == Some(i) && r.currency == t.currency && RoundsTo(r.amount * 100.0, t.amountKobo)
  }

  lemma IsForExactly(r: Reply, t: Transaction, i: nat)
    ensures IsFor(r, t, i) <==> ChargeMatches(t, i, r)
  {
    if RoundsTo(r.amount * 100.0, t.amountKobo) { HalfEvenUnique(r.amount * 100.0, t.amountKobo); }
  }

  /** The unsuccessful status a redirect word stands for. */
  predicate EndsAs(word: string, status: AttemptStatus) {
    match status
    case Cancelled => word in {"cancelled", "canceled"}
    case Expired => word in {"expired", "session_expired"}
    case Abandoned => word == "abandoned"
    case Failed => word in {"failed", "failure"}
    case _ => false
  }

  // ---- Changes to one payment ----

  /** Nothing but payment `i`, its record, its counts and some subscriptions may differ. */
  ghost predicate OnlyPayment(l: Ledger, m: Ledger, i: nat) {
    && m.corpers == l.corpers && m.processedEvents == l.processedEvents && |m.txs| == |l.txs| && |m.subs| == |l.subs|
    && (forall j :: 0 <= j < |l.txs| && j != i ==> m.txs[j] == l.txs[j])
    && (forall j: nat :: j != i ==> (j in m.records <==> j in l.records))
    && (forall j: nat :: j != i && j in l.records ==> m.records[j] == l.records[j])
    && (forall j: nat :: j != i ==> m.activations[j] == l.activations[j]
                                    && m.successNotices[j] == l.successNotices[j]
                                    && m.failureNotices[j] == l.failureNotices[j])
  }

  /** The record of a Flutterwave payment follows it; another payment has none. */
  predicate Recorded(l: Ledger, m: Ledger, i: nat, providerId: string, verifiedAt: Option<Instant>)
    requires i < |l.txs| == |m.txs|
  {
    if l.txs[i].gateway.Flutterwave? then
      && i in m.records && i in l.records
      && m.records[i].reference == i && m.records[i].status == m.txs[i].status
      && m.records[i].providerId == (if providerId != "" then providerId else l.records[i].providerId)
      && m.records[i].verifiedAt == (if verifiedAt.Some? then verifiedAt else l.records[i].verifiedAt)
    else i !in m.records
  }

  /** Confirmed: paid now, counted and announced once more; its subscription runs the plan's term from the
      start of the attempt, and every other running subscription of the user ends. */
  ghost predicate IsConfirmed(l: Ledger, m: Ledger, i: nat, r: Reply, now: Instant)
    requires Linked(l) && i < |l.txs|
  {
    var t := l.txs[i];
    var s := l.subs[t.subscription];
    var end := CalculateEnd(s.plan.interval, t.createdAt);
    && OnlyPayment(l, m, i)
    && m.txs[i] == t.(status := Successful, paidAt := Some(now), charge := Some(r))
    && m.subs[t.subscription] == 
         s.(status := Active, startsAt := t.createdAt, endsAt := Some(end), nextBillingAt := Some(end))
    && (forall k :: 0 <= k < |l.subs| && k != t.subscription ==>
          m.subs[k] == if l.subs[k].user == t.user && (Running(l.subs[k].status) || l.subs[k].status == Stopped)
                       then l.subs[k].(status := Ended, nextBillingAt := None) else l.subs[k])
    && m.activations[i] == l.activations[i] + 1 && m.successNotices[i] == l.successNotices[i] + 1
    && m.failureNotices[i] == l.failureNotices[i]
    && Recorded(l, m, i, r.providerId, Some(now))
  }

  /** Ended without success: announced once more; its waiting subscription is stopped or past due. */
  ghost predicate IsEnded(l: Ledger, m: Ledger, i: nat, status: AttemptStatus, charge: Option<Reply>, now: Instant)
    requires Linked(l) && i < |l.txs|
  {
    var t := l.txs[i];
    var s := l.subs[t.subscription];
    && OnlyPayment(l, m, i)
    && m.txs[i] == t.(status := status, paidAt := None, charge := if charge.Some? then charge else t.charge)
    && m.subs[t.subscription] == s.(status := if status == Cancelled then Stopped else PastDue)
    && (forall k :: 0 <= k < |l.subs| && k != t.subscription ==> m.subs[k] == l.subs[k])
    && m.activations[i] == l.activations[i] && m.successNotices[i] == l.successNotices[i]
    && m.failureNotices[i] == l.failureNotices[i] + 1
    && var known := if charge.Some? then charge else t.charge;
    Recorded(l, m, i, if known.Some? then known.value.providerId else "", Some(now))
  }

  /** In progress: an open attempt is processing, an ended one stays as it ended. */
  ghost predicate IsInProgress(l: Ledger, m: Ledger, i: nat, r: Reply, now: Instant)
    requires i < |l.txs|
  {
    var t := l.txs[i];
    && OnlyPayment(l, m, i) && m.subs == l.subs
    && m.txs[i] == t.(status := if Open(t.status) then Processing else t.status, charge := Some(r))
    && m.activations == l.activations && m.successNotices == l.successNotices && m.failureNotices == l.failureNotices
    && Recorded(l, m, i, r.providerId, Some(now))
  }

  /** Nothing but the record of the payment differs, and it only learns the provider's id. */
  ghost predicate IsNoted(l: Ledger, m: Ledger, i: nat, providerId: string)
    requires i < |l.txs|
  {
    m == l.(records := m.records) && OnlyPayment(l, m, i) && Recorded(l, m, i, providerId, None)
  }

  // ---- One outcome on one payment ----

  lemma PaymentFacts(l: Ledger, i: nat)
    requires Inv(l) && i < |l.txs|
    ensures Linked(l)
    ensures l.subs[l.txs[i].subscription].effectiveStart == Some(l.txs[i].createdAt)
    ensures l.subs[l.txs[i].subscription].user == l.txs[i].user
    ensures Open(l.txs[i].status) ==> l.subs[l.txs[i].subscription].status == AwaitingPayment
    ensures l.txs[i].status != Successful ==> l.txs[i].paidAt.None?
    ensures l.txs[i].gateway.Flutterwave? <==> i in l.records
    ensures l.txs[i].gateway.Flutterwave? ==> l.records[i].reference == i && l.records[i].status == l.txs[i].status
    ensures l.activations[i] == if l.txs[i].status == Successful then 1 else 0
  {
    assert Belongs(l.txs[i], l.subs[l.txs[i].subscription], l.corpers);
    assert BookOk(l, i);
  }

  lemma SucceedConfirms(l: Ledger, i: nat, r: Reply, now: Instant)
    requires Inv(l) && i < |l.txs| && l.txs[i].status != Successful
    ensures Linked(l) && IsConfirmed(l, Succeed(l, i, r, now), i, r, now)
  {
    hide Inv, CalculateEnd;
    PaymentFacts(l, i);
  }

  lemma SetTerminalEnds(l: Ledger, i: nat, status: AttemptStatus, charge: Option<Reply>, now: Instant)
    requires Inv(l) && i < |l.txs| && Open(l.txs[i].status) && Unsuccessful(status)
    ensures Linked(l) && IsEnded(l, SetTerminal(l, i, status, charge, now), i, status, charge, now)
  {
    hide Inv;
    PaymentFacts(l, i);
  }

  /** The same step would announce a success, keeping the time of payment, if it were asked to end as one. */
  lemma SetTerminalAnnounces(l: Ledger, i: nat, charge: Option<Reply>, now: Instant)
    requires i < |l.txs| && l.txs[i].subscription < |l.subs|
    ensures var m := SetTerminal(l, i, Successful, charge, now);
      && m.successNotices == l.successNotices + multiset{i} && m.failureNotices == l.failureNotices
      && m.txs[i].paidAt == l.txs[i].paidAt && m.activations == l.activations
  {
  }

  /** The whole table of an outcome on a payment, for either gateway. */
  lemma OutcomeDoes(l: Ledger, i: nat, r: Reply, outcome: Outcome, now: Instant)
    requires Inv(l) && i < |l.txs|
    ensures Linked(l)
    ensures var t, m := l.txs[i], ApplyOutcome(l, i, r, outcome, now);
      && (t.status == Successful ==> IsNoted(l, m, i, r.providerId))
      && (t.status != Successful && outcome == Success ==> IsConfirmed(l, m, i, r, now))
      && (t.status != Successful && outcome == InProgress ==> IsInProgress(l, m, i, r, now))
      && (Open(t.status) && outcome == Failure ==> IsEnded(l, m, i, Failed, Some(r), now))
      && (Unsuccessful(t.status) && outcome == Failure ==> IsNoted(l, m, i, r.providerId))
  {
    hide Inv, Succeed, SetTerminal;
    PaymentFacts(l, i);
    if l.txs[i].status != Successful { SucceedConfirms(l, i, r, now); }
    if Open(l.txs[i].status) { SetTerminalEnds(l, i, Failed, Some(r), now); }
  }

  // ---- What a verification decides ----

  /** The provider can be asked about a payment whose id came with the request or is on record. */
  predicate HasId(l: Ledger, i: nat, id: string) { id != "" || (i in l.records && l.records[i].providerId != "") }

  function Answered(l: Ledger, i: nat, id: string, first: Answer, second: Answer): Answer {
    if first.Raised? && HasId(l, i, id) then second else first
  }

  /** The provider is asked: with an id, or about an open attempt whose redirect says nothing final. */
  predicate Asks(l: Ledger, i: nat, id: string, redirect: string)
    requires i < |l.txs|
  {
    HasId(l, i, id) || (Open(l.txs[i].status) && !Final(redirect))
  }

  predicate Final(word: string) {
    EndsAs(word, Cancelled) || EndsAs(word, Expired) || EndsAs(word, Abandoned) || EndsAs(word, Failed)
  }

  /** What an answer does to a payment: a charge for it that succeeded confirms it, one in progress keeps it
      going, any other charge fails an open attempt; no charge, or no answer, changes nothing. */
  ghost predicate AnswerDecides(l: Ledger, m: Ledger, response: Response, i: nat, answer: Answer, now: Instant)
    requires Linked(l) && i < |l.txs|
  {
    var t := l.txs[i];
    match answer
    case Raised => m == l && response == ProviderError
    case NoCharge => IsNoted(l, m, i, "") && response == Ok
    case Charge(r) =>
      && response == Ok
      && (t.status == Successful ==> IsNoted(l, m, i, r.providerId))
      && (t.status != Successful && IsFor(r, t, i) && r.status in SUCCESS_WORDS ==> IsConfirmed(l, m, i, r, now))
      && (t.status != Successful && IsFor(r, t, i) && r.status in PROGRESS_WORDS ==> IsInProgress(l, m, i, r, now))
      && (!(IsFor(r, t, i) && (r.status in SUCCESS_WORDS || r.status in PROGRESS_WORDS)) ==>
            (Open(t.status) ==> IsEnded(l, m, i, Failed, Some(r), now))
            && (Unsuccessful(t.status) ==> IsNoted(l, m, i, r.providerId)))
  }

  /** The whole table of a verification. When nobody is asked, an attempt already over is left, and an open one
      ends as the redirect says. */
  ghost predicate Decides(l: Ledger, m: Ledger, response: Response, i: nat, id: string, redirect: string,
                          first: Answer, second: Answer, now: Instant)
    requires Linked(l) && i < |l.txs|
  {
    if Asks(l, i, id, redirect) then AnswerDecides(l, m, response, i, Answered(l, i, id, first, second), now)
    else
      && response == Ok
      && (!Open(l.txs[i].status) ==> IsNoted(l, m, i, ""))
      && (Open(l.txs[i].status) ==>
            forall status: AttemptStatus :: EndsAs(redirect, status) ==> IsEnded(l, m, i, status, None, now))
  }

  lemma IdleSyncNotes(l: Ledger, i: nat, now: Instant)
    requires Inv(l) && i < |l.txs|
    ensures IsNoted(l, SyncRecord(l, i, None, false, now), i, "")
  {
    hide Inv;
    PaymentFacts(l, i);
  }

  lemma RedirectWords(redirect: string)
    ensures RedirectStatus(redirect).Some? && Unsuccessful(RedirectStatus(redirect).value) <==> Final(redirect)
    ensures forall status: AttemptStatus :: EndsAs(redirect, status) ==> RedirectStatus(redirect) == Some(status)
    ensures forall status: AttemptStatus :: EndsAs(redirect, status) ==> Unsuccessful(status)
    ensures RedirectStatus(redirect) == Some(Successful) <==> redirect in SUCCESS_WORDS
    ensures RedirectStatus(redirect) == None <==> !Final(redirect) && redirect !in SUCCESS_WORDS
  {
  }

  lemma VerificationDecides(l: Ledger, i: nat, id: string, redirect: string, first: Answer, second: Answer,
                            now: Instant)
    requires Inv(l) && i < |l.txs|
    ensures Linked(l)
    ensures var (m, response) := VerifyFlutterwave(l, i, id, redirect, first, second, now);
      Decides(l, m, response, i, id, redirect, first, second, now)
  {
    hide Inv, RedirectStatus, EndsAs, Final;
    hide SetTerminal, ApplyOutcome, SyncRecord, ChargeMatches, IsEnded, IsConfirmed, IsInProgress, IsNoted, IsFor;
    PaymentFacts(l, i);
    RedirectWords(redirect);
    IdleSyncNotes(l, i, now);
    assert HasId(l, i, id) <==> PreferredId(l, i, id) != "";
    if Asks(l, i, id, redirect) {
      var answer := Answered(l, i, id, first, second);
      if answer.Charge? {
        IsForExactly(answer.reply, l.txs[i], i);
        OutcomeDoes(l, i, answer.reply,
                    if ChargeMatches(l.txs[i], i, answer.reply) then ExtractStatus(answer.reply.status) else Failure,
                    now);
      }
    } else if Open(l.txs[i].status) {
      SetTerminalEnds(l, i, RedirectStatus(redirect).value, None, now);
    }
  }

  // ---- The sweep ----

  /** Pending for two hours, in microseconds, and of the user if one is named. */
  predicate Overdue(t: Transaction, who: Option<nat>, now: Instant) {
    t.status == Pending && t.createdAt + 7_200_000_000 <= now && (who.None? || t.user == who.value)
  }

  predicate OverdueAt(l: Ledger, n: nat, who: Option<nat>, now: Instant, i: nat) {
    i < n <= |l.txs| && Overdue(l.txs[i], who, now)
  }

  /** The subscriptions of overdue payments are past due, all others as they were. */
  ghost predicate SubsSwept(l: Ledger, m: Ledger, n: nat, who: Option<nat>, now: Instant)
    requires Linked(l) && n <= |l.txs|
  {
    && |m.subs| == |l.subs| && m.corpers == l.corpers && m.processedEvents == l.processedEvents
    && (forall i: nat :: OverdueAt(l, n, who, now, i) ==>
          m.subs[l.txs[i].subscription] == l.subs[l.txs[i].subscription].(status := PastDue))
    && (forall k :: 0 <= k < |l.subs| && m.subs[k] != l.subs[k] ==>
          exists i: nat :: OverdueAt(l, n, who, now, i) && l.txs[i].subscription == k)
  }

  /** The records of other payments are as they were, and none forgets the provider's id. */
  ghost predicate RecordsSwept(l: Ledger, m: Ledger, n: nat, who: Option<nat>, now: Instant) {
    && (forall i: nat :: !OverdueAt(l, n, who, now, i) ==>
          (i in m.records <==> i in l.records) && (i in l.records ==> m.records[i] == l.records[i]))
    && (forall i: nat :: i in l.records ==> i in m.records && KeepsId(l.records[i], m.records[i]))
  }

  ghost predicate RowsSwept(l: Ledger, m: Ledger, n: nat, who: Option<nat>, now: Instant)
    requires Linked(l) && n <= |l.txs|
  {
    SubsSwept(l, m, n, who, now) && RecordsSwept(l, m, n, who, now)
  }

  predicate KeepsId(before: Record, after: Record) { before.providerId != "" ==> after.providerId != "" }

  /** Among the first `n` payments exactly the overdue ones have expired, with one more failure notice each; no
      other payment, subscription or record differs. */
  ghost predicate IsSwept(l: Ledger, m: Ledger, n: nat, who: Option<nat>, now: Instant)
    requires Linked(l) && n <= |l.txs|
  {
    && RowsSwept(l, m, n, who, now) && |m.txs| == |l.txs|
    && m.activations == l.activations && m.successNotices == l.successNotices
    && (forall i :: 0 <= i < |l.txs| ==>
          m.txs[i] == if OverdueAt(l, n, who, now, i) then l.txs[i].(status := Expired) else l.txs[i])
    && (forall i: nat ::
          m.failureNotices[i] == l.failureNotices[i] + if OverdueAt(l, n, who, now, i) then 1 else 0)
  }

  lemma OverdueStep(l: Ledger, l1: Ledger, n: nat, who: Option<nat>, now: Instant)
    requires n < |l.txs| == |l1.txs| && Overdue(l.txs[n], who, now)
    requires forall i :: 0 <= i < n ==> l1.txs[i] == l.txs[i]
    ensures forall i: nat :: OverdueAt(l, n + 1, who, now, i) <==> i == n || OverdueAt(l1, n, who, now, i)
  {
    hide Overdue;
    forall i: nat ensures OverdueAt(l, n + 1, who, now, i) <==> i == n || OverdueAt(l1, n, who, now, i) {
      if i < n { assert l1.txs[i] == l.txs[i]; }
    }
  }

  lemma SubsSweptStep(l: Ledger, l1: Ledger, m: Ledger, n: nat, who: Option<nat>, now: Instant)
    requires Linked(l) && Linked(l1) && n < |l.txs| == |l1.txs|
    requires Overdue(l.txs[n], who, now) && SubsSwept(l1, m, n, who, now)
    requires forall i :: 0 <= i < n ==> l1.txs[i] == l.txs[i] && l.txs[i].subscription != l.txs[n].subscription
    requires l1.subs == l.subs[l.txs[n].subscription := l.subs[l.txs[n].subscription].(status := PastDue)]
    requires l1.corpers == l.corpers && l1.processedEvents == l.processedEvents
    ensures SubsSwept(l, m, n + 1, who, now)
  {
    OverdueStep(l, l1, n, who, now);
    hide Overdue;
    forall k | 0 <= k < |l.subs| && m.subs[k] != l.subs[k]
      ensures exists i: nat :: OverdueAt(l, n + 1, who, now, i) && l.txs[i].subscription == k
    {
      if k == l.txs[n].subscription {
        assert OverdueAt(l, n + 1, who, now, n);
      } else {
        var i: nat :| OverdueAt(l1, n, who, now, i) && l1.txs[i].subscription == k;
        assert OverdueAt(l, n + 1, who, now, i);
      }
    }
    forall i: nat | OverdueAt(l1, n, who, now, i) ensures l1.txs[i].subscription != l.txs[n].subscription {
      assert l1.txs[i] == l.txs[i];
    }
  }

  lemma RecordsSweptStep(l: Ledger, l1: Ledger, m: Ledger, n: nat, who: Option<nat>, now: Instant)
    requires n < |l.txs| == |l1.txs| && Overdue(l.txs[n], who, now) && RecordsSwept(l1, m, n, who, now)
    requires forall i :: 0 <= i < n ==> l1.txs[i] == l.txs[i]
    requires forall i: nat :: i != n ==>
               (i in l1.records <==> i in l.records) && (i in l.records ==> l1.records[i] == l.records[i])
    requires n in l.records ==> n in l1.records && KeepsId(l.records[n], l1.records[n])
    ensures RecordsSwept(l, m, n + 1, who, now)
  {
    OverdueStep(l, l1, n, who, now);
    hide Overdue, OverdueAt;
    forall i: nat | i in l.records ensures i in m.records && KeepsId(l.records[i], m.records[i]) {
      assert i in l1.records && KeepsId(l.records[i], l1.records[i]);
      assert KeepsId(l1.records[i], m.records[i]);
    }
  }

  lemma RowsSweptSkip(l: Ledger, m: Ledger, n: nat, who: Option<nat>, now: Instant)
    requires Linked(l) && n < |l.txs| && !Overdue(l.txs[n], who, now) && RowsSwept(l, m, n, who, now)
    ensures RowsSwept(l, m, n + 1, who, now)
  {
    hide Overdue;
    assert forall i: nat :: OverdueAt(l, n + 1, who, now, i) <==> OverdueAt(l, n, who, now, i);
  }

  lemma Unshared(l: Ledger, n: nat)
    requires Inv(l) && n < |l.txs|
    ensures forall i :: 0 <= i < n ==> l.txs[i].subscription != l.txs[n].subscription
  {
  }

  lemma {:induction false} SweepRows(l: Ledger, n: nat, who: Option<nat>, now: Instant)
    requires Inv(l) && n <= |l.txs|
    ensures Linked(l) && RowsSwept(l, SweepFrom(l, n, who, now).0, n, who, now)
    decreases n
  {
    hide SetTerminal, Inv, SubsSwept, RecordsSwept;
    RowsOfInv(l);
    if n == 0 {
      NothingSwept(l, who, now);
    } else {
      assert Stale(l.txs[n - 1], who, now) <==> Overdue(l.txs[n - 1], who, now);
      if Stale(l.txs[n - 1], who, now) {
        var l1 := SetTerminal(l, n - 1, Expired, None, now);
        SetTerminalEnds(l, n - 1, Expired, None, now);
        SetTerminalGood(l, n - 1, Expired, None, now);
        SetTerminalEvents(l, n - 1, now);
        PaymentFacts(l, n - 1);
        RowsOfInv(l1);
        Unshared(l, n - 1);
        SweepRows(l1, n - 1, who, now);
        SubsSweptStep(l, l1, SweepFrom(l1, n - 1, who, now).0, n - 1, who, now);
        RecordsSweptStep(l, l1, SweepFrom(l1, n - 1, who, now).0, n - 1, who, now);
      } else {
        SweepRows(l, n - 1, who, now);
        RowsSweptSkip(l, SweepFrom(l, n - 1, who, now).0, n - 1, who, now);
      }
    }
  }

  lemma NothingSwept(l: Ledger, who: Option<nat>, now: Instant)
    requires Linked(l)
    ensures RowsSwept(l, l, 0, who, now)
  {
  }

  lemma SetTerminalEvents(l: Ledger, i: nat, now: Instant)
    requires Linked(l) && i < |l.txs|
    ensures SetTerminal(l, i, Expired, None, now).processedEvents == l.processedEvents
  {
  }

  /** A sweep, for one user or all. */
  lemma SweepDoes(l: Ledger, who: Option<nat>, now: Instant)
    requires Inv(l)
    ensures Linked(l) && IsSwept(l, Sweep(l, who, now).0, |l.txs|, who, now)
    ensures Sweep(l, who, now).1 == |set i: nat | i < |l.txs| && OverdueAt(l, |l.txs|, who, now, i)|
  {
    hide Inv, RecordsSwept, SweepFrom;
    RowsOfInv(l);
    SweepRows(l, |l.txs|, who, now);
    SweepExact(l, |l.txs|, who, now);
    SweepCounts(l, |l.txs|, who, now);
    var n := |l.txs|;
    assert forall i: nat :: i < n ==> (Stale(l.txs[i], who, now) <==> OverdueAt(l, n, who, now, i));
    assert StaleSet(l, n, who, now) == set i: nat | i < n && OverdueAt(l, n, who, now, i);
    forall i | 0 <= i < n ensures Open(l.txs[i].status) ==> l.txs[i].paidAt.None? { PaymentFacts(l, i); }
  }

  ghost function AfterSweep(l: Ledger, who: Option<nat>, now: Instant): (m: Ledger)
    requires Linked(l)
    ensures Linked(m) && |m.txs| == |l.txs| && |m.subs| == |l.subs|
  {
    SweepKeepsLinked(l, |l.txs|, who, now);
    Sweep(l, who, now).0
  }

  // ---- Starting to pay ----

  /** A user's row that runs, or was stopped with an end, and whose end has come. */
  predicate HasLapsed(s: Subscription, now: Instant) {
    (Running(s.status) || s.status == Stopped) && s.endsAt.Some? && s.endsAt.value <= now
  }

  function Refreshed(s: Subscription, user: nat, now: Instant): Subscription {
    if s.user == user && HasLapsed(s, now) then s.(status := Ended, nextBillingAt := None) else s
  }

  /** A refresh ends exactly the user's lapsed rows. */
  lemma RefreshDoes(l: Ledger, user: nat, now: Instant)
    requires user in l.corpers
    requires Linked(l)
    ensures var (m, response) := Handle(l, Query(user), now);
      && response == Ok && m == l.(subs := m.subs) && |m.subs| == |l.subs|
      && forall k :: 0 <= k < |l.subs| ==> m.subs[k] == Refreshed(l.subs[k], user, now)
  {
  }

  /** Somebody else than a corper has nothing to refresh. */
  lemma RefreshOfOthers(l: Ledger, user: nat, now: Instant)
    requires Linked(l) && user !in l.corpers
    ensures Handle(l, Query(user), now) == (l, Ok)
  {
  }

  /** The user has an attempt still open after a sweep at this instant. */
  ghost predicate StillPaying(l: Ledger, user: nat, now: Instant) {
    exists i :: 0 <= i < |l.txs| && l.txs[i].user == user && Open(l.txs[i].status)
                && !Overdue(l.txs[i], Some(user), now)
  }

  /** One attempt and its waiting subscription are new; with a checkout that could not be opened both fail at
      once. Before them come the rows as swept and refreshed. */
  ghost predicate IsStarted(l: Ledger, swept: Ledger, m: Ledger, user: nat, plan: Plan, gateway: Gateway, failed: bool,
                            now: Instant)
    requires |swept.subs| == |l.subs| && |swept.txs| == |l.txs|
  {
    var n, k := |l.txs|, |l.subs|;
    && |m.txs| == n + 1 && |m.subs| == k + 1
    && m.txs[n] == Transaction(user, k, gateway, plan.price, plan.currency, now, if failed then Failed else Pending,
                               None, None)
    && m.subs[k] == Subscription(user, plan, if failed then PastDue else AwaitingPayment, now, None, None, Some(now))
    && (forall i :: 0 <= i < n ==> m.txs[i] == swept.txs[i])
    && (forall j :: 0 <= j < k ==> m.subs[j] == Refreshed(swept.subs[j], user, now))
    && (if gateway.Flutterwave? then n in m.records && m.records[n] == Record(n, "", m.txs[n].status, None)
        else n !in m.records)
    && (forall i: nat :: i < n ==> (i in m.records <==> i in swept.records)
                                   && (i in swept.records ==> m.records[i] == swept.records[i]))
    && m.(subs := l.subs, txs := l.txs, records := l.records)
         == swept.(subs := l.subs, txs := l.txs, records := l.records)
  }

  /** Paying for a priced plan: refused while another attempt is open, and for a plan without a rank; otherwise
      one attempt starts. */
  ghost predicate PaymentStarts(l: Ledger, m: Ledger, response: Response, user: nat, plan: Plan, gateway: Gateway,
                                checkoutFails: bool, now: Instant)
    requires Linked(l)
  {
    var swept := AfterSweep(l, Some(user), now);
    if StillPaying(l, user, now) then m == swept && response == Conflict
    else if plan.code !in {"free", "three-months", "six-months", "twelve-months"} then
      && response == Forbidden && m == swept.(subs := m.subs) && |m.subs| == |swept.subs|
      && forall k :: 0 <= k < |swept.subs| ==> m.subs[k] == Refreshed(swept.subs[k], user, now)
    else
      var failed := gateway.Flutterwave? && checkoutFails;
      IsStarted(l, swept, m, user, plan, gateway, failed, now) && response == if failed then ProviderError else Ok
  }

  lemma StillPayingExactly(l: Ledger, user: nat, now: Instant)
    requires Inv(l)
    ensures Linked(l) && (StillPaying(l, user, now) <==> HasOpenAttempt(Sweep(l, Some(user), now).0, user))
  {
    hide Inv, SweepFrom;
    SweepDoes(l, Some(user), now);
    var swept := Sweep(l, Some(user), now).0;
    if StillPaying(l, user, now) {
      var i :| 0 <= i < |l.txs| && l.txs[i].user == user && Open(l.txs[i].status)
               && !Overdue(l.txs[i], Some(user), now);
      assert swept.txs[i] == l.txs[i];
    }
    if HasOpenAttempt(swept, user) {
      var i :| 0 <= i < |swept.txs| && swept.txs[i].user == user && Open(swept.txs[i].status);
      assert swept.txs[i] == l.txs[i];
    }
  }

  /** Once swept and refreshed, the sweep inside the creation finds nothing. */
  lemma SecondSweepIdle(l: Ledger, user: nat, now: Instant)
    requires Linked(l)
    ensures var swept := Sweep(l, Some(user), now).0;
      Linked(swept) && Linked(Refresh(swept, user, now))
      && Sweep(Refresh(swept, user, now), Some(user), now) == (Refresh(swept, user, now), 0)
  {
    hide SweepFrom;
    SweepKeepsLinked(l, |l.txs|, Some(user), now);
    SweepExact(l, |l.txs|, Some(user), now);
    var refreshed := Refresh(Sweep(l, Some(user), now).0, user, now);
    NothingStale(refreshed, |refreshed.txs|, Some(user), now);
  }

  lemma AddedStarts(swept: Ledger, user: nat, plan: Plan, gateway: Gateway, fails: bool, now: Instant)
    requires Inv(swept) && user in swept.corpers
    ensures var refreshed := Refresh(swept, user, now);
      var added := AddPending(refreshed, user, plan, gateway, now);
      var failed := gateway.Flutterwave? && fails;
      IsStarted(swept, swept, if failed then FailCheckout(added, now) else added, user, plan, gateway, failed, now)
  {
    assert |swept.txs| !in swept.records by { NoBooksBeyond(swept, |swept.txs|); }
  }

  lemma PaymentStartsSo(l: Ledger, user: nat, plan: Plan, gateway: Gateway, fails: bool, now: Instant)
    requires Inv(l) && user in l.corpers
    ensures Linked(l)
    ensures var (m, response) := StartPayment(l, user, plan, gateway, fails, now);
      PaymentStarts(l, m, response, user, plan, gateway, fails, now)
  {
    hide Inv, SweepFrom, Refresh, AddPending, FailCheckout, IsStarted, HasOpenAttempt, StillPaying;
    RowsOfInv(l);
    SweepGood(l, |l.txs|, Some(user), now);
    SweepKeepsLinked(l, |l.txs|, Some(user), now);
    StillPayingExactly(l, user, now);
    SecondSweepIdle(l, user, now);
    var swept := Sweep(l, Some(user), now).0;
    RefreshedRows(swept, user, now);
    AddedStarts(swept, user, plan, gateway, fails, now);
    StartedFrom(l, swept, StartPayment(l, user, plan, gateway, fails, now).0, user, plan, gateway,
                gateway.Flutterwave? && fails, now);
  }

  lemma RefreshedRows(l: Ledger, user: nat, now: Instant)
    requires user in l.corpers
    ensures var m := Refresh(l, user, now);
      && m == l.(subs := m.subs) && |m.subs| == |l.subs|
      && forall k :: 0 <= k < |l.subs| ==> m.subs[k] == Refreshed(l.subs[k], user, now)
  {
  }

  lemma StartedFrom(l: Ledger, swept: Ledger, m: Ledger, user: nat, plan: Plan, gateway: Gateway, failed: bool,
                    now: Instant)
    requires |swept.subs| == |l.subs| && |swept.txs| == |l.txs|
    ensures IsStarted(swept, swept, m, user, plan, gateway, failed, now) ==>
              IsStarted(l, swept, m, user, plan, gateway, failed, now)
  {
  }

  /** The billing page. A free plan starts a trial, once, for the plan's term from now. */
  lemma InitiateDoes(l: Ledger, user: nat, onboarded: bool, plan: Plan, gateway: Gateway, fails: bool, now: Instant)
    requires Inv(l)
    ensures Linked(l)
    ensures var (m, response) := Handle(l, Initiate(user, onboarded, plan, gateway, fails), now);
      if user !in l.corpers || !onboarded then m == l && response == Forbidden
      else if !plan.active then m == l && response == NotFound
      else if !plan.forCorpers then m == l && response == Forbidden
      else if plan.price > 0 then PaymentStarts(l, m, response, user, plan, gateway, fails, now)
      else if exists k :: 0 <= k < |l.subs| && l.subs[k].user == user then m == l && response == BadRequest
      else
        var end := Some(CalculateEnd(plan.interval, now));
        response == Ok && m == l.(subs := l.subs + [Subscription(user, plan, Trial, now, end, end, None)])
  {
    hide Inv, StartPayment, PaymentStarts, CalculateEnd;
    RowsOfInv(l);
    if user in l.corpers { PaymentStartsSo(l, user, plan, gateway, fails, now); }
  }

  /** The reactivation page, where a free plan is refused. */
  lemma ReactivateDoes(l: Ledger, user: nat, plan: Plan, gateway: Gateway, fails: bool, now: Instant)
    requires Inv(l)
    ensures Linked(l)
    ensures var (m, response) := Handle(l, Reactivate(user, plan, gateway, fails), now);
      if user !in l.corpers then m == l && response == Forbidden
      else if !plan.active then m == l && response == NotFound
      else if !plan.forCorpers then m == l && response == Forbidden
      else if plan.price == 0 then m == l && response == BadRequest
      else PaymentStarts(l, m, response, user, plan, gateway, fails, now)
  {
    hide Inv, StartPayment, PaymentStarts;
    RowsOfInv(l);
    if user in l.corpers { PaymentStartsSo(l, user, plan, gateway, fails, now); }
  }

  // ---- The other requests ----

  /** Listing one's attempts sweeps them; the scheduled job sweeps everybody's. */
  lemma SweepRequestsDo(l: Ledger, user: nat, now: Instant)
    requires Inv(l)
    ensures Linked(l)
    ensures var (m, response) := Handle(l, ListAttempts(user), now);
      response == Ok && IsSwept(l, m, |l.txs|, Some(user), now)
    ensures var (m, response) := Handle(l, SweepAll, now);
      response == Ok && IsSwept(l, m, |l.txs|, None, now)
  {
    hide Inv, SweepFrom, IsSwept;
    SweepDoes(l, Some(user), now);
    SweepDoes(l, None, now);
  }

  /** A user cancels his own open attempts, and no others. */
  lemma CancelDoes(l: Ledger, user: nat, i: nat, now: Instant)
    requires Inv(l)
    ensures Linked(l)
    ensures var (m, response) := Handle(l, Cancel(user, i), now);
      if i >= |l.txs| || l.txs[i].user != user then m == l && response == NotFound
      else response == Ok && if Open(l.txs[i].status) then IsEnded(l, m, i, Cancelled, None, now) else m == l
  {
    hide Inv, SetTerminal, IsEnded;
    RowsOfInv(l);
    if i < |l.txs| && Open(l.txs[i].status) { SetTerminalEnds(l, i, Cancelled, None, now); }
  }

  /** A redirect is verified after a sweep of everybody, if it names a Flutterwave attempt. */
  lemma RedirectDoes(l: Ledger, i: nat, id: string, status: string, first: Answer, second: Answer, now: Instant)
    requires Inv(l)
    ensures Linked(l)
    ensures var (m, response) := Handle(l, Redirect(i, id, status, first, second), now);
      var swept := AfterSweep(l, None, now);
      if i < |l.txs| && l.txs[i].gateway.Flutterwave? then
        Decides(swept, m, response, i, id, status, first, second, now)
      else m == swept && response == NotFound
  {
    hide Inv, SweepFrom, VerifyFlutterwave, Decides;
    RowsOfInv(l);
    SweepGood(l, |l.txs|, None, now);
    SweepKeepsLinked(l, |l.txs|, None, now);
    SweepExact(l, |l.txs|, None, now);
    if i < |l.txs| { VerificationDecides(Sweep(l, None, now).0, i, id, status, first, second, now); }
  }

  /** A poll leaves a paid attempt alone, and otherwise sweeps its user's attempts and verifies. */
  lemma PollDoes(l: Ledger, i: nat, first: Answer, second: Answer, now: Instant)
    requires Inv(l)
    ensures Linked(l)
    ensures var (m, response) := Handle(l, Poll(i, first, second), now);
      if i >= |l.txs| then m == l && response == NotFound
      else if l.txs[i].status == Successful then m == l && response == Ok
      else
        var swept := AfterSweep(l, Some(l.txs[i].user), now);
        if l.txs[i].gateway.Flutterwave? then Decides(swept, m, response, i, "", "", first, second, now)
        else m == swept && response == Ok
  {
    hide Inv, SweepFrom, VerifyFlutterwave, Decides;
    RowsOfInv(l);
    if i < |l.txs| {
      var who := Some(l.txs[i].user);
      SweepGood(l, |l.txs|, who, now);
      SweepKeepsLinked(l, |l.txs|, who, now);
      SweepExact(l, |l.txs|, who, now);
      VerificationDecides(Sweep(l, who, now).0, i, "", "", first, second, now);
    }
  }

  lemma ApplyKeepsEvents(l: Ledger, i: nat, r: Reply, o: Outcome, now: Instant)
    requires Linked(l) && i < |l.txs|
    ensures ApplyOutcome(l, i, r, o, now).processedEvents == l.processedEvents
  {
    hide SettleSub, ActivateSub, CalculateEnd;
  }

  lemma VerifyKeepsEvents(l: Ledger, i: nat, id: string, redirect: string, first: Answer, second: Answer, now: Instant)
    requires Linked(l) && i < |l.txs|
    ensures VerifyFlutterwave(l, i, id, redirect, first, second, now).0.processedEvents == l.processedEvents
  {
    hide ApplyOutcome, ChargeMatches, ExtractStatus, RedirectStatus, SettleSub;
    var answer := if first.Raised? && PreferredId(l, i, id) != "" then second else first;
    if answer.Charge? {
      ApplyKeepsEvents(l, i, answer.reply,
                       if ChargeMatches(l.txs[i], i, answer.reply) then ExtractStatus(answer.reply.status) else Failure,
                       now);
    }
  }

  /** A webhook is applied once. A Flutterwave event is verified with the provider; a card event speaks for
      itself: "success" confirms, "failed" fails an open attempt, any other word keeps it going. */
  lemma WebhookDoes(l: Ledger, event: string, gateway: Gateway, r: Reply, first: Answer, second: Answer, now: Instant)
    requires Inv(l)
    ensures Linked(l)
    ensures var (m, response) := Handle(l, Webhook(event, gateway, r, first, second), now);
      if event in l.processedEvents then m == l && response == Ok
      else if r.reference.None? || r.reference.value >= |l.txs| || l.txs[r.reference.value].gateway != gateway then
        m == l && response == NotFound
      else
        var i := r.reference.value;
        var unmarked := m.(processedEvents := l.processedEvents);
        && m.processedEvents == l.processedEvents + (if response == Ok then {event} else {})
        && if gateway.Flutterwave? then Decides(l, unmarked, response, i, r.providerId, "", first, second, now)
           else response == Ok && CardDecides(l, unmarked, i, r, now)
  {
    hide Inv, VerifyFlutterwave, ApplyOutcome, Decides, CardDecides;
    RowsOfInv(l);
    if r.reference.Some? && r.reference.value < |l.txs| {
      var i := r.reference.value;
      VerificationDecides(l, i, r.providerId, "", first, second, now);
      CardOutcomeDecides(l, i, r, now);
      VerifyKeepsEvents(l, i, r.providerId, "", first, second, now);
      ApplyKeepsEvents(l, i, r, ExtractCardStatus(r.status), now);
    }
  }

  ghost predicate CardDecides(l: Ledger, m: Ledger, i: nat, r: Reply, now: Instant)
    requires Linked(l) && i < |l.txs|
  {
    var t := l.txs[i];
    && (t.status == Successful ==> IsNoted(l, m, i, r.providerId))
    && (t.status != Successful && r.status == "success" ==> IsConfirmed(l, m, i, r, now))
    && (Open(t.status) && r.status == "failed" ==> IsEnded(l, m, i, Failed, Some(r), now))
    && (Unsuccessful(t.status) && r.status == "failed" ==> IsNoted(l, m, i, r.providerId))
    && (t.status != Successful && r.status !in {"success", "failed"} ==> IsInProgress(l, m, i, r, now))
  }

  lemma CardOutcomeDecides(l: Ledger, i: nat, r: Reply, now: Instant)
    requires Inv(l) && i < |l.txs|
    ensures Linked(l) && CardDecides(l, ApplyOutcome(l, i, r, ExtractCardStatus(r.status), now), i, r, now)
  {
    hide Inv, ApplyOutcome, IsNoted, IsConfirmed, IsEnded, IsInProgress;
    OutcomeDoes(l, i, r, ExtractCardStatus(r.status), now);
  }

  // ---- Success, through each request ----

  /** What a matching, successful charge for payment `i` leaves, whatever stood there before. */
  ghost predicate IsPaid(m: Ledger, i: nat) {
    && i < |m.txs| && Linked(m) && m.txs[i].status == Successful && m.txs[i].paidAt.Some?
    && m.activations[i] == 1 && m.successNotices[i] == 1
    && m.subs[m.txs[i].subscription].status in {Active, Ended}
  }

  predicate Successes(r: Reply, t: Transaction, i: nat) { IsFor(r, t, i) && r.status in SUCCESS_WORDS }

  lemma PaidAfter(l: Ledger, m: Ledger, i: nat)
    requires Inv(m) && i < |l.txs| == |m.txs| && m.txs[i].status == Successful
    ensures IsPaid(m, i)
  {
    assert Belongs(m.txs[i], m.subs[m.txs[i].subscription], m.corpers);
    assert BookOk(m, i);
  }

  /** A verification of a charge that succeeded makes the payment paid, if the provider is asked. */
  lemma DecidedSuccess(l: Ledger, m: Ledger, response: Response, i: nat, id: string, redirect: string,
                       first: Answer, second: Answer, now: Instant)
    requires Inv(l) && i < |l.txs| && Linked(l)
    requires Decides(l, m, response, i, id, redirect, first, second, now) && Asks(l, i, id, redirect)
    requires Answered(l, i, id, first, second).Charge?
    requires Successes(Answered(l, i, id, first, second).reply, l.txs[i], i)
    ensures response == Ok && |m.txs| == |l.txs| && m.txs[i].status == Successful
  {
    hide Inv, IsFor, Recorded;
  }

  /** By redirect: a success is confirmed if the request brings the provider's id. */
  lemma RedirectConfirms(l: Ledger, i: nat, id: string, status: string, first: Answer, second: Answer, now: Instant)
    requires Inv(l) && i < |l.txs| && l.txs[i].gateway.Flutterwave? && id != ""
    requires var answer := if first.Raised? then second else first;
      answer.Charge? && Successes(answer.reply, l.txs[i], i)
    ensures Linked(l)
    ensures var (m, response) := Handle(l, Redirect(i, id, status, first, second), now);
      response == Ok && IsPaid(m, i)
  {
    hide Inv, Handle, Decides, RoundsTo, IsPaid;
    RedirectDoes(l, i, id, status, first, second, now);
    SweptFacts(l, None, now, i);
    var (m, response) := Handle(l, Redirect(i, id, status, first, second), now);
    HandleGood(l, Redirect(i, id, status, first, second), now);
    DecidedSuccess(AfterSweep(l, None, now), m, response, i, id, status, first, second, now);
    PaidAfter(l, m, i);
  }

  /** By poll: a success is confirmed if the provider's id is on record, or the attempt is still open. */
  lemma PollConfirms(l: Ledger, i: nat, first: Answer, second: Answer, now: Instant)
    requires Inv(l) && i < |l.txs| && l.txs[i].gateway.Flutterwave?
    requires HasId(l, i, "") || (Open(l.txs[i].status) && !Overdue(l.txs[i], None, now))
    requires var answer := Answered(l, i, "", first, second);
      answer.Charge? && Successes(answer.reply, l.txs[i], i)
    ensures Linked(l)
    ensures var (m, response) := Handle(l, Poll(i, first, second), now);
      response == Ok && IsPaid(m, i)
  {
    hide Inv, Handle, Decides, RoundsTo, IsPaid;
    PollDoes(l, i, first, second, now);
    var (m, response) := Handle(l, Poll(i, first, second), now);
    HandleGood(l, Poll(i, first, second), now);
    if l.txs[i].status != Successful {
      var who := Some(l.txs[i].user);
      SweptFacts(l, who, now, i);
      DecidedSuccess(AfterSweep(l, who, now), m, response, i, "", "", first, second, now);
    }
    PaidAfter(l, m, i);
  }

  lemma SweptFacts(l: Ledger, who: Option<nat>, now: Instant, i: nat)
    requires Inv(l) && i < |l.txs|
    ensures Linked(l)
    ensures var m := AfterSweep(l, who, now);
      && Inv(m)
      && m.txs[i] == (if Overdue(l.txs[i], who, now) then l.txs[i].(status := Expired) else l.txs[i])
      && (HasId(l, i, "") ==> HasId(m, i, ""))
      && (!Overdue(l.txs[i], who, now) ==> (HasId(l, i, "") <==> HasId(m, i, "")))
  {
    hide Inv, SweepFrom;
    SweepGood(l, |l.txs|, who, now);
    SweepDoes(l, who, now);
  }

  /** By webhook: a success is confirmed the first time its event comes, for either gateway; for Flutterwave if
      the event or the record has the provider's id, or the attempt is open. */
  lemma WebhookConfirms(l: Ledger, event: string, i: nat, r: Reply, first: Answer, second: Answer, now: Instant)
    requires Inv(l) && i < |l.txs| && event !in l.processedEvents && r.reference == Some(i)
    requires if l.txs[i].gateway.Flutterwave? then
        && (HasId(l, i, r.providerId) || Open(l.txs[i].status))
        && var answer := Answered(l, i, r.providerId, first, second);
        answer.Charge? && Successes(answer.reply, l.txs[i], i)
      else r.status == "success"
    ensures Linked(l)
    ensures var (m, response) := Handle(l, Webhook(event, l.txs[i].gateway, r, first, second), now);
      response == Ok && IsPaid(m, i) && event in m.processedEvents
  {
    hide Inv, Handle, Decides, RoundsTo, IsPaid;
    var request := Webhook(event, l.txs[i].gateway, r, first, second);
    WebhookDoes(l, event, l.txs[i].gateway, r, first, second, now);
    HandleGood(l, request, now);
    var (m, response) := Handle(l, request, now);
    if l.txs[i].gateway.Flutterwave? {
      DecidedSuccess(l, m.(processedEvents := l.processedEvents), response, i, r.providerId, "", first, second, now);
    }
    PaidAfter(l, m, i);
  }
}
