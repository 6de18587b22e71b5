/**
 * What every billing request keeps, and so what every run keeps. The steps that end or confirm a
 * payment do not guard themselves; the invariant holds because of where they are called from.
 */
module BillingSafety {
  import opened Wrappers
  import opened Calendar
  import opened Billing

  // ---- The invariant ----

  /** How a payment attempt and its subscription may stand to each other. */
  predicate Corresponds(a: AttemptStatus, s: SubscriptionStatus) {
    match a
    case Pending => s == AwaitingPayment
    case Processing => s == AwaitingPayment
    case Cancelled => s == Stopped || s == Ended
    case Failed => s == PastDue
    case Expired => s == PastDue
    case Abandoned => s == PastDue
    case Successful => s == Active || s == Ended
  }

  predicate Running(s: SubscriptionStatus) { s == Trial || s == Active }

  /** A payment and the subscription opened with it. */
  predicate Belongs(t: Transaction, s: Subscription, corpers: set<nat>) {
    && s.user == t.user && t.user in corpers
    && s.plan.price > 0 && t.amountKobo == s.plan.price && t.currency == s.plan.currency
    && s.effectiveStart == Some(t.createdAt)
    && Corresponds(t.status, s.status)
  }

  predicate TermOk(s: Subscription) {
    var term := Some(CalculateEnd(s.plan.interval, s.startsAt));
    match s.status
    case Trial => s.endsAt == term && s.nextBillingAt == term && s.plan.price == 0
    case Active => s.endsAt == term && s.nextBillingAt == term && s.plan.price > 0
    case Ended => (s.endsAt.None? || s.endsAt == term) && s.nextBillingAt.None?
    case _ => s.endsAt.None? && s.nextBillingAt.None?
  }

  predicate PaidExactlyWhenSuccessful(t: Transaction) { t.paidAt.Some? <==> t.status == Successful }

  /** A confirmed Flutterwave payment carries the charge that confirmed it. */
  predicate Evidenced(t: Transaction, i: nat) {
    t.status == Successful ==>
      && t.charge.Some?
      && (t.gateway.Flutterwave? ==> ChargeMatches(t, i, t.charge.value)
                                     && ExtractStatus(t.charge.value.status) == Success)
  }

  predicate Mirrored(t: Transaction, i: nat, records: map<nat, Record>) {
    if t.gateway.Flutterwave?
    then i in records && records[i].reference == i && records[i].status == t.status
    else i !in records
  }

  predicate Counted(status: AttemptStatus, activations: nat, successes: nat, failures: nat) {
    && activations == successes == (if status == Successful then 1 else 0)
    && failures <= (if Open(status) then 0 else 1)
  }

  predicate BookOk(l: Ledger, i: nat)
    requires i < |l.txs|
  {
    && PaidExactlyWhenSuccessful(l.txs[i])
    && Evidenced(l.txs[i], i)
    && Mirrored(l.txs[i], i, l.records)
    && Counted(l.txs[i].status, l.activations[i], l.successNotices[i], l.failureNotices[i])
  }

  predicate Known(l: Ledger, i: nat) {
    i in l.records || i in l.activations || i in l.successNotices || i in l.failureNotices
  }

  ghost predicate BooksOk(l: Ledger) {
    && (forall i :: 0 <= i < |l.txs| ==> BookOk(l, i))
    && (forall i: nat :: Known(l, i) ==> i < |l.txs|)
  }

  ghost predicate RowsOk(l: Ledger) {
    && Linked(l)
    && (forall i :: 0 <= i < |l.txs| ==> Belongs(l.txs[i], l.subs[l.txs[i].subscription], l.corpers))
    && (forall k :: 0 <= k < |l.subs| ==> TermOk(l.subs[k]))
  }

  predicate Pays(l: Ledger, i: nat, k: nat) { i < |l.txs| && l.txs[i].subscription == k }

  ghost predicate NoSharing(l: Ledger) {
    && (forall i, j :: 0 <= i < j < |l.txs| ==> l.txs[i].subscription != l.txs[j].subscription)
    && (forall i, j :: 0 <= i < j < |l.txs| && l.txs[i].user == l.txs[j].user ==>
          !(Open(l.txs[i].status) && Open(l.txs[j].status)))
    && (forall j, k :: 0 <= j < k < |l.subs| && l.subs[j].user == l.subs[k].user ==>
          !(Running(l.subs[j].status) && Running(l.subs[k].status)))
    && (forall k :: 0 <= k < |l.subs| && l.subs[k].status == Active ==> exists i :: Pays(l, i, k))
  }

  ghost predicate Inv(l: Ledger) { RowsOk(l) && BooksOk(l) && NoSharing(l) }

  // ---- Frames ----

  /** Only the books of payment `i`, old or new, differ. */
  lemma BooksFrame(l: Ledger, m: Ledger, i: nat)
    requires BooksOk(l) && i < |m.txs| && BookOk(m, i)
    requires |m.txs| == |l.txs| || (|m.txs| == |l.txs| + 1 && i == |l.txs|)
    requires forall j :: 0 <= j < |l.txs| && j != i ==> m.txs[j] == l.txs[j]
    requires forall j :: j != i ==> (j in m.records <==> j in l.records)
    requires forall j :: j != i && j in m.records ==> m.records[j] == l.records[j]
    requires forall j :: j != i ==> m.activations[j] == l.activations[j]
                                    && m.successNotices[j] == l.successNotices[j]
                                    && m.failureNotices[j] == l.failureNotices[j]
    ensures BooksOk(m)
  {
    forall j | 0 <= j < |m.txs| ensures BookOk(m, j) {
      assert j != i ==> BookOk(l, j);
    }
    forall j: nat | Known(m, j) ensures j < |m.txs| {
      assert j != i ==> Known(l, j);
    }
  }

  lemma BooksSame(l: Ledger, m: Ledger)
    requires BooksOk(l) && m.(subs := l.subs) == l
    ensures BooksOk(m)
  {
    forall j | 0 <= j < |m.txs| ensures BookOk(m, j) { assert BookOk(l, j); }
    forall j: nat | Known(m, j) ensures j < |m.txs| { assert Known(l, j); }
  }

  /** No payment opens, no subscription starts running. */
  lemma SharingFrame(l: Ledger, m: Ledger)
    requires NoSharing(l) && |l.txs| == |m.txs| && |l.subs| == |m.subs|
    requires forall i :: 0 <= i < |l.txs| ==>
               m.txs[i].subscription == l.txs[i].subscription && m.txs[i].user == l.txs[i].user
               && (Open(m.txs[i].status) ==> Open(l.txs[i].status))
    requires forall k :: 0 <= k < |l.subs| ==>
               m.subs[k].user == l.subs[k].user
               && (Running(m.subs[k].status) ==> m.subs[k].status == l.subs[k].status)
    ensures NoSharing(m)
  {
    forall k | 0 <= k < |m.subs| && m.subs[k].status == Active ensures exists i :: Pays(m, i, k) {
      var i :| Pays(l, i, k);
      assert Pays(m, i, k);
    }
  }

  // ---- Each step on one payment keeps it ----

  lemma SyncKeeps(l: Ledger, i: nat, charge: Option<Reply>, verified: bool, now: Instant)
    requires Inv(l) && i < |l.txs|
    ensures Inv(SyncRecord(l, i, charge, verified, now))
  {
    hide TermOk, Belongs, Evidenced;
    var m := SyncRecord(l, i, charge, verified, now);
    assert BookOk(l, i);
    BooksFrame(l, m, i);
    SharingFrame(l, m);
  }

  lemma SetTerminalRows(l: Ledger, i: nat, status: AttemptStatus, charge: Option<Reply>, now: Instant)
    requires RowsOk(l) && i < |l.txs| && Open(l.txs[i].status) && Unsuccessful(status)
    requires forall j :: 0 <= j < |l.txs| && j != i ==> l.txs[j].subscription != l.txs[i].subscription
    ensures RowsOk(SetTerminal(l, i, status, charge, now))
  {
    hide CalculateEnd, SyncRecord;
    var m := SetTerminal(l, i, status, charge, now);
    forall j | 0 <= j < |m.txs| ensures Belongs(m.txs[j], m.subs[m.txs[j].subscription], m.corpers) {
      assert Belongs(l.txs[j], l.subs[l.txs[j].subscription], l.corpers);
    }
    forall k | 0 <= k < |m.subs| ensures TermOk(m.subs[k]) {
      assert TermOk(l.subs[k]);
      assert Belongs(l.txs[i], l.subs[l.txs[i].subscription], l.corpers);
    }
  }

  lemma SetTerminalKeeps(l: Ledger, i: nat, status: AttemptStatus, charge: Option<Reply>, now: Instant)
    requires Inv(l) && i < |l.txs| && Open(l.txs[i].status) && Unsuccessful(status)
    ensures Inv(SetTerminal(l, i, status, charge, now))
  {
    var m := SetTerminal(l, i, status, charge, now);
    SetTerminalRows(l, i, status, charge, now);
    assert RowsOk(m);
    hide RowsOk;
    assert BookOk(l, i);
    BooksFrame(l, m, i);
    SharingFrame(l, m);
  }

  lemma KeepGoingKeeps(l: Ledger, i: nat, r: Reply, now: Instant)
    requires Inv(l) && i < |l.txs| && l.txs[i].status != Successful
    ensures Inv(KeepGoing(l, i, r, now))
  {
    hide CalculateEnd;
    var m := KeepGoing(l, i, r, now);
    assert BookOk(l, i);
    BooksFrame(l, m, i);
    SharingFrame(l, m);
    assert RowsOk(m);
  }

  lemma FailCheckoutKeeps(l: Ledger, now: Instant)
    requires Inv(l) && |l.txs| > 0 && Open(l.txs[|l.txs| - 1].status)
    ensures Inv(FailCheckout(l, now))
  {
    hide CalculateEnd;
    var m := FailCheckout(l, now);
    assert BookOk(l, |l.txs| - 1);
    BooksFrame(l, m, |l.txs| - 1);
    SharingFrame(l, m);
    assert RowsOk(m);
  }

  lemma RefreshKeeps(l: Ledger, user: nat, now: Instant)
    requires Inv(l)
    ensures Inv(Refresh(l, user, now))
  {
    hide CalculateEnd;
    var m := Refresh(l, user, now);
    SharingFrame(l, m);
    BooksSame(l, m);
    assert RowsOk(m);
  }

  lemma AddTrialKeeps(l: Ledger, user: nat, plan: Plan, now: Instant)
    requires Inv(l) && plan.price == 0 && !HasSubscription(l, user)
    ensures Inv(AddTrial(l, user, plan, now))
  {
    hide AddMonthsAt;
    var m := AddTrial(l, user, plan, now);
    assert RowsOk(m);
    BooksSame(l, m);
    forall k | 0 <= k < |m.subs| && m.subs[k].status == Active ensures exists i :: Pays(m, i, k) {
      var i :| Pays(l, i, k);
      assert Pays(m, i, k);
    }
  }

  lemma AddPendingKeeps(l: Ledger, user: nat, plan: Plan, gateway: Gateway, now: Instant)
    requires Inv(l) && user in l.corpers && plan.price > 0 && !HasOpenAttempt(l, user)
    ensures Inv(AddPending(l, user, plan, gateway, now))
    ensures Open(AddPending(l, user, plan, gateway, now).txs[|l.txs|].status)
  {
    hide CalculateEnd;
    var m := AddPending(l, user, plan, gateway, now);
    var n := |l.txs|;
    assert forall j :: 0 <= j < n ==> m.txs[j] == l.txs[j];
    assert RowsOk(m);
    assert !Known(l, n);
    BooksFrame(l, m, n);
    AddPendingSharing(l, user, plan, gateway, now);
  }

  lemma AddPendingSharing(l: Ledger, user: nat, plan: Plan, gateway: Gateway, now: Instant)
    requires NoSharing(l) && Linked(l) && !HasOpenAttempt(l, user)
    ensures NoSharing(AddPending(l, user, plan, gateway, now))
  {
    var m := AddPending(l, user, plan, gateway, now);
    assert forall j :: 0 <= j < |l.txs| ==> m.txs[j] == l.txs[j];
    forall k | 0 <= k < |m.subs| && m.subs[k].status == Active ensures exists i :: Pays(m, i, k) {
      var i :| Pays(l, i, k);
      assert Pays(m, i, k);
    }
  }

  lemma SucceedRows(l: Ledger, i: nat, r: Reply, now: Instant)
    requires RowsOk(l) && i < |l.txs|
    requires forall j :: 0 <= j < |l.txs| && j != i ==> l.txs[j].subscription != l.txs[i].subscription
    ensures RowsOk(Succeed(l, i, r, now))
  {
    hide CalculateEnd;
    var m := Succeed(l, i, r, now);
    forall j | 0 <= j < |m.txs| ensures Belongs(m.txs[j], m.subs[m.txs[j].subscription], m.corpers) {
      assert Belongs(l.txs[j], l.subs[l.txs[j].subscription], l.corpers);
    }
    forall k | 0 <= k < |m.subs| ensures TermOk(m.subs[k]) {
      assert TermOk(l.subs[k]);
      assert Belongs(l.txs[i], l.subs[l.txs[i].subscription], l.corpers);
    }
  }

  lemma SucceedSharing(l: Ledger, i: nat, r: Reply, now: Instant)
    requires NoSharing(l) && Linked(l) && i < |l.txs|
    ensures NoSharing(Succeed(l, i, r, now))
  {
    hide CalculateEnd;
    var m := Succeed(l, i, r, now);
    forall k | 0 <= k < |m.subs| && m.subs[k].status == Active ensures exists j :: Pays(m, j, k) {
      if k == l.txs[i].subscription {
        assert Pays(m, i, k);
      } else {
        var j :| Pays(l, j, k);
        assert Pays(m, j, k);
      }
    }
  }

  lemma SucceedKeeps(l: Ledger, i: nat, r: Reply, now: Instant)
    requires Inv(l) && i < |l.txs| && l.txs[i].status != Successful
    requires l.txs[i].gateway.Flutterwave? ==> ChargeMatches(l.txs[i], i, r) && ExtractStatus(r.status) == Success
    ensures Inv(Succeed(l, i, r, now))
  {
    var m := Succeed(l, i, r, now);
    SucceedRows(l, i, r, now);
    SucceedSharing(l, i, r, now);
    assert BookOk(l, i);
    BooksFrame(l, m, i);
  }
}
