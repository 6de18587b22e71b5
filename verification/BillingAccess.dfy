/**
 * What the books mean to a user: which subscription is current, who has paid access, why lapsed rows
 * may be left for later, and why the client's own selection agrees with the server's.
 */
module BillingAccess {
  import opened Wrappers
  import opened Calendar
  import opened Billing
  import opened BillingSafety
  import opened BillingRuns

  // ---- Selections over refreshed rows ----

  predicate Browsable(s: Subscription) {
    s.status == Active || s.status == Trial || (s.status == Stopped && s.endsAt.Some?)
  }

  predicate PaidRow(s: Subscription) {
    (s.status == Active || s.status == Stopped) && s.plan.price > 0 && s.endsAt.Some?
  }

  /** The newest of the user's first `n` rows that the test picks. */
  function Newest(subs: seq<Subscription>, n: nat, user: nat, test: Subscription -> bool): (r: Option<nat>)
    requires n <= |subs|
    ensures r.Some? ==> r.value < n && subs[r.value].user == user && test(subs[r.value])
    ensures r.Some? ==> forall k :: r.value < k < n && subs[k].user == user ==> !test(subs[k])
    ensures r.None? ==> forall k :: 0 <= k < n && subs[k].user == user ==> !test(subs[k])
  {
    if n == 0 then None
    else if subs[n - 1].user == user && test(subs[n - 1]) then Some(n - 1)
    else Newest(subs, n - 1, user, test)
  }

  function CurrentBrowse(l: Ledger, user: nat, now: Instant): Option<nat> {
    if user !in l.corpers then None
    else var subs := Refresh(l, user, now).subs; Newest(subs, |subs|, user, Browsable)
  }

  function CurrentPaid(l: Ledger, user: nat, now: Instant): Option<nat> {
    if user !in l.corpers then None
    else var subs := Refresh(l, user, now).subs; Newest(subs, |subs|, user, PaidRow)
  }

  predicate HasPaidAccess(l: Ledger, user: nat, now: Instant) { CurrentPaid(l, user, now).Some? }

  /** A row of the user that lets him browse: active, on trial, or stopped with an end, and not past its end. */
  predicate LetsBrowse(s: Subscription, user: nat, now: Instant) {
    && s.user == user && (s.endsAt.Some? ==> now < s.endsAt.value)
    && (s.status == Active || s.status == Trial || (s.status == Stopped && s.endsAt.Some?))
  }

  /** A row of the user that gives paid access: active or stopped, of a plan with a price, before its end. */
  predicate LetsPay(s: Subscription, user: nat, now: Instant) {
    && s.user == user && s.endsAt.Some? && now < s.endsAt.value && s.plan.price != 0
    && s.status != AwaitingPayment && s.status != Trial && s.status != PastDue && s.status != Ended
  }

  /** The current subscription is the newest stored row that lets the corper browse, and none if no row does. */
  lemma BrowseExactly(l: Ledger, user: nat, now: Instant, k: nat)
    ensures CurrentBrowse(l, user, now) == Some(k) <==>
              && user in l.corpers && k < |l.subs| && LetsBrowse(l.subs[k], user, now)
              && forall j :: k < j < |l.subs| ==> !LetsBrowse(l.subs[j], user, now)
  {
    if user in l.corpers {
      var subs := Refresh(l, user, now).subs;
      forall j | 0 <= j < |subs|
        ensures LetsBrowse(l.subs[j], user, now) <==> subs[j].user == user && Browsable(subs[j])
      {
      }
    }
  }

  /** Paid access comes from the newest stored row that gives it, and there is none if no row does. */
  lemma PaidExactly(l: Ledger, user: nat, now: Instant, k: nat)
    ensures CurrentPaid(l, user, now) == Some(k) <==>
              && user in l.corpers && k < |l.subs| && LetsPay(l.subs[k], user, now)
              && forall j :: k < j < |l.subs| ==> !LetsPay(l.subs[j], user, now)
  {
    if user in l.corpers {
      var subs := Refresh(l, user, now).subs;
      forall j | 0 <= j < |subs|
        ensures LetsPay(l.subs[j], user, now) <==> subs[j].user == user && PaidRow(subs[j])
      {
      }
    }
  }

  // ---- Paid access is paid for ----

  /** Paid access at an instant is a confirmed payment of that user for that very row, and the row's term,
      counted from the moment the payment was started, is not over. */
  lemma AccessIsPaidFor(l: Ledger, user: nat, now: Instant) returns (i: nat)
    requires Inv(l) && HasPaidAccess(l, user, now)
    ensures i < |l.txs| && l.txs[i].user == user && l.txs[i].status == Successful
    ensures l.txs[i].subscription == CurrentPaid(l, user, now).value
    ensures l.txs[i].charge.Some?
    ensures l.txs[i].gateway.Flutterwave? ==> ChargeMatches(l.txs[i], i, l.txs[i].charge.value)
    ensures var s := Refresh(l, user, now).subs[CurrentPaid(l, user, now).value];
            s.endsAt == Some(CalculateEnd(s.plan.interval, s.startsAt)) && now < s.endsAt.value
  {
    hide CalculateEnd, Newest;
    var k := CurrentPaid(l, user, now).value;
    assert TermOk(l.subs[k]);
    assert l.subs[k].status == Active;
    i :| Pays(l, i, k);
    assert Belongs(l.txs[i], l.subs[k], l.corpers);
    assert BookOk(l, i);
  }

  /** A running row, seen from the rows themselves. */
  lemma AccessByRow(l: Ledger, user: nat, now: Instant, k: nat)
    requires Inv(l) && user in l.corpers
    requires k < |l.subs| && l.subs[k].user == user && l.subs[k].status == Active
    ensures HasPaidAccess(l, user, now) <==> now < CalculateEnd(l.subs[k].plan.interval, l.subs[k].startsAt)
  {
    hide CalculateEnd;
    var subs := Refresh(l, user, now).subs;
    forall j | 0 <= j < |subs| && subs[j].user == user ensures PaidRow(subs[j]) ==> j == k {
      assert TermOk(l.subs[j]) && TermOk(l.subs[k]);
    }
    assert TermOk(l.subs[k]);
    assert PaidRow(subs[k]) <==> now < l.subs[k].endsAt.value;
  }

  /** Confirming a payment gives access exactly while the plan's term, counted from the start of the
      attempt and not from the confirmation, still runs. */
  lemma SuccessGivesAccess(l: Ledger, i: nat, r: Reply, now: Instant)
    requires Inv(l) && i < |l.txs| && l.txs[i].status != Successful
    requires l.txs[i].gateway.Flutterwave? ==> ChargeMatches(l.txs[i], i, r) && ExtractStatus(r.status) == Success
    ensures Linked(l)
    ensures HasPaidAccess(Succeed(l, i, r, now), l.txs[i].user, now) <==>
              now < CalculateEnd(l.subs[l.txs[i].subscription].plan.interval, l.txs[i].createdAt)
  {
    hide CalculateEnd;
    SucceedKeeps(l, i, r, now);
    assert Belongs(l.txs[i], l.subs[l.txs[i].subscription], l.corpers);
    AccessByRow(Succeed(l, i, r, now), l.txs[i].user, now, l.txs[i].subscription);
  }

  /** "A successful payment never takes access away" is false, for either gateway: confirming any unpaid
      attempt ends the row that was giving access, and there is access afterwards exactly while the attempt's
      own term, counted from its start, still runs. */
  lemma LateSuccessEndsAccess(l: Ledger, i: nat, r: Reply, now: Instant)
    requires Inv(l) && i < |l.txs| && l.txs[i].status != Successful
    requires l.txs[i].gateway.Flutterwave? ==> ChargeMatches(l.txs[i], i, r) && ExtractStatus(r.status) == Success
    ensures Linked(l)
    ensures var m := ApplyOutcome(l, i, r, Success, now);
      && |m.subs| == |l.subs|
      && (HasPaidAccess(m, l.txs[i].user, now) <==>
            now < CalculateEnd(l.subs[l.txs[i].subscription].plan.interval, l.txs[i].createdAt))
      && (HasPaidAccess(l, l.txs[i].user, now) ==>
            var k := CurrentPaid(l, l.txs[i].user, now).value;
            k < |m.subs| && k != l.txs[i].subscription && m.subs[k].status == Ended)
  {
    hide CalculateEnd, SyncRecord, Newest, Inv;
    SuccessGivesAccess(l, i, r, now);
    if HasPaidAccess(l, l.txs[i].user, now) { AccessRowIsAnother(l, i, now); }
  }

  /** What gives a user access is an active row, so never the row of an attempt still unpaid. */
  lemma AccessRowIsAnother(l: Ledger, i: nat, now: Instant)
    requires Inv(l) && i < |l.txs| && l.txs[i].status != Successful && HasPaidAccess(l, l.txs[i].user, now)
    ensures Linked(l)
    ensures var k := CurrentPaid(l, l.txs[i].user, now).value;
      && k < |l.subs| && k != l.txs[i].subscription && l.subs[k].status == Active
      && l.subs[k].user == l.txs[i].user == l.subs[l.txs[i].subscription].user
  {
    hide CalculateEnd, Newest;
    assert TermOk(l.subs[CurrentPaid(l, l.txs[i].user, now).value]);
    assert Belongs(l.txs[i], l.subs[l.txs[i].subscription], l.corpers);
  }

  // ---- The client twin ----

  /** Three passes: an active row, else a trial row, else a stopped row that has an end. */
  function ClientCurrent(subs: seq<Subscription>, user: nat): Option<nat> {
    var active := Newest(subs, |subs|, user, (s: Subscription) => s.status == Active);
    var trial := Newest(subs, |subs|, user, (s: Subscription) => s.status == Trial);
    if active.Some? then active
    else if trial.Some? then trial
    else Newest(subs, |subs|, user, (s: Subscription) => s.status == Stopped && s.endsAt.Some?)
  }

  predicate ClientPaid(subs: seq<Subscription>, user: nat) {
    exists k :: 0 <= k < |subs| && subs[k].user == user && subs[k].plan.price > 0
                && (subs[k].status == Active || (subs[k].status == Stopped && subs[k].endsAt.Some?))
  }

  /** On the list the server returns, the client's choices are the server's. */
  lemma ClientAgrees(l: Ledger, user: nat, now: Instant)
    requires Inv(l) && user in l.corpers
    ensures ClientCurrent(Refresh(l, user, now).subs, user) == CurrentBrowse(l, user, now)
    ensures ClientPaid(Refresh(l, user, now).subs, user) <==> HasPaidAccess(l, user, now)
  {
    hide CalculateEnd, LapseUser, Inv;
    var m := Refresh(l, user, now);
    RefreshKeeps(l, user, now);
    OneRunningRow(m);
    var server := CurrentBrowse(l, user, now);
    if server.Some? {
      assert Running(m.subs[server.value].status);
    }
  }

  lemma OneRunningRow(l: Ledger)
    requires Inv(l)
    ensures forall k :: 0 <= k < |l.subs| ==>
              (l.subs[k].status == Stopped ==> l.subs[k].endsAt.None?)
              && (l.subs[k].status == Active ==> l.subs[k].endsAt.Some? && l.subs[k].plan.price > 0)
    ensures forall j, k :: 0 <= j < k < |l.subs| && l.subs[j].user == l.subs[k].user ==>
              !(Running(l.subs[j].status) && Running(l.subs[k].status))
  {
    hide CalculateEnd;
    assert forall k :: 0 <= k < |l.subs| ==> TermOk(l.subs[k]);
  }

  // ---- The directory's own access flag ----

  /** The flag shown beside a corper in the interest lists: it looks at no dates. */
  predicate Annotated(l: Ledger, user: nat) {
    exists k :: 0 <= k < |l.subs| && l.subs[k].user == user && FlagRow(l.subs[k])
  }

  predicate FlagRow(s: Subscription) { (s.status == Active || s.status == Stopped) && s.plan.price > 0 }

  /** A row that raises the flag without giving access: a cancelled, never paid attempt, or a term over. */
  predicate Misleading(s: Subscription, now: Instant) {
    s.plan.price > 0 && (s.status == Stopped || (s.status == Active && s.endsAt.Some? && s.endsAt.value <= now))
  }

  /** The flag is implied by paid access; all it says beyond that comes from misleading rows. */
  lemma AnnotationExactly(l: Ledger, user: nat, now: Instant)
    requires Inv(l) && user in l.corpers
    ensures Annotated(l, user) <==>
              HasPaidAccess(l, user, now)
              || exists k :: 0 <= k < |l.subs| && l.subs[k].user == user && Misleading(l.subs[k], now)
  {
    hide CalculateEnd;
    var subs := Refresh(l, user, now).subs;
    forall k | 0 <= k < |l.subs| && l.subs[k].user == user
      ensures PaidRow(subs[k]) <==> FlagRow(l.subs[k]) && !Misleading(l.subs[k], now)
    {
      assert TermOk(l.subs[k]);
    }
  }

  /** Cancelling an attempt, open or not, gives and takes no access, of anybody, now or later. */
  lemma CancellingLeavesAccess(l: Ledger, i: nat, now: Instant, user: nat, t: Instant)
    requires Inv(l) && i < |l.txs|
    ensures Linked(l)
    ensures HasPaidAccess(CancelAttempt(l, i, now), user, t) <==> HasPaidAccess(l, user, t)
  {
    hide CalculateEnd, SyncRecord, Newest;
    if Open(l.txs[i].status) {
      var k := l.txs[i].subscription;
      var m := CancelAttempt(l, i, now);
      assert Belongs(l.txs[i], l.subs[k], l.corpers);
      assert TermOk(l.subs[k]);
      assert m.subs == l.subs[k := l.subs[k].(status := Stopped)];
      var x, y := Refresh(l, user, t).subs, Refresh(m, user, t).subs;
      assert forall j :: 0 <= j < |x| ==> x[j].user == y[j].user && (PaidRow(x[j]) <==> PaidRow(y[j]));
    }
  }

  /** "The flag is paid access" is false: cancelling any open attempt raises it, and leaves the user's access
      as it was. */
  lemma CancellingRaisesTheFlag(l: Ledger, i: nat, now: Instant, t: Instant)
    requires Inv(l) && i < |l.txs| && Open(l.txs[i].status)
    ensures Linked(l) && Annotated(CancelAttempt(l, i, now), l.txs[i].user)
    ensures HasPaidAccess(CancelAttempt(l, i, now), l.txs[i].user, t) <==> HasPaidAccess(l, l.txs[i].user, t)
  {
    CancellingLeavesAccess(l, i, now, l.txs[i].user, t);
    CancelledFlag(l, i, now);
  }

  lemma CancelledFlag(l: Ledger, i: nat, now: Instant)
    requires Inv(l) && i < |l.txs| && Open(l.txs[i].status)
    ensures Linked(l) && Annotated(CancelAttempt(l, i, now), l.txs[i].user)
  {
    var m := CancelAttempt(l, i, now);
    var k := l.txs[i].subscription;
    assert Belongs(l.txs[i], l.subs[k], l.corpers);
    assert m.subs[k].user == l.txs[i].user && FlagRow(m.subs[k]);
  }
}
