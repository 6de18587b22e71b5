/** What each request of the verification desk stores and logs, part by part. */
module VerificationEffects {
  import opened Wrappers
  import opened Verification
  import opened VerificationAgreement
  import opened VerificationRuns

  // ---- The log ----

  /** A biodata attempt that was neither approved nor failed. */
  predicate Undecided(a: Attempt) { a.kind == Biodata && a.status in {AttemptStatus.Pending, AttemptStatus.Rejected} }

  /** Exactly the newest undecided biodata attempt is approved. */
  ghost predicate BiodataApproved(log: seq<Attempt>, after: seq<Attempt>) {
    && |after| == |log|
    && forall i :: 0 <= i < |log| ==>
         after[i] == if Undecided(log[i]) && (forall j :: i < j < |log| ==> !Undecided(log[j]))
                     then Attempt(Biodata, Approved) else log[i]
  }

  lemma ApproveLatestExactly(log: seq<Attempt>)
    ensures BiodataApproved(log, ApproveLatestBiodata(log))
  {
    forall a: Attempt ensures Picks(a, Biodata, {Approved, Failed}) <==> Undecided(a) { PicksUndecided(a); }
  }

  lemma PicksUndecided(a: Attempt)
    ensures Picks(a, Biodata, {Approved, Failed}) <==> Undecided(a)
  {
    if a.status.Pending? || a.status.Rejected? {
      assert a.status !in {Approved, Failed};
    } else {
      assert a.status == Approved || a.status == Failed;
    }
  }

  // ---- Submissions ----

  /** The row after one part was stored: its overall status derived, everything else as before. */
  function Stored(p: Profile, k: Kind, s: Status): Profile
    requires Part(k)
  {
    var q := WithStatus(p, k, s);
    q.(overall := Derived(q))
  }

  lemma Resave(d: Desk, i: nat)
    requires AtRest(d) && i < |d.attempts| && d.attempts[i].kind in {Callup, StateCode}
    requires d.attempts[i].status == AttemptStatus.Pending && StatusOf(d.profile, d.attempts[i].kind) == Status.Pending
    ensures SaveAttempt(d, i, AttemptStatus.Pending) == d
  {
    assert d.attempts[i := d.attempts[i].(status := AttemptStatus.Pending)] == d.attempts;
  }

  /** A submission that is not refused stores and logs just what creating its attempt does. */
  lemma SubmitIsCreate(d: Desk, k: Kind, finding: Finding)
    requires Settled(d) && (Part(k) ==> StatusOf(d.profile, k) != Status.Verified)
    ensures Submit(d, k, false, finding) ==
              Create(d, k, if k != Nin then AttemptStatus.Pending else if finding == Matches then Approved
                           else AttemptStatus.Rejected)
  {
    hide Create, SaveProfile, SaveAttempt, Settled, Agrees;
    var s := if k != Nin then AttemptStatus.Pending
             else if finding == Matches then Approved else AttemptStatus.Rejected;
    CreateSettles(d, k, s);
    var d1 := Create(d, k, s);
    AtRestOf(d1);
    match k
    case Biodata => RepeatedWrite(d1, d1.profile.(biodata := Status.Pending), {Biodata});
    case Nin =>
      if finding == Matches {
        RepeatedWrite(d1, d1.profile.(nin := Status.Verified, biodata := Status.Verified), {Nin, Biodata});
      } else {
        RepeatedWrite(d1, d1.profile.(nin := Status.Rejected), {Nin});
      }
    case Whole => RepeatedWrite(d1, d1.profile.(overall := UnderReview), {});
    case _ =>
      RepeatedWrite(d1, WithStatus(d1.profile, k, Status.Pending), {k});
      Resave(d1, |d.attempts|);
  }

  lemma CreateDoes(d: Desk, k: Kind, s: AttemptStatus)
    requires AtRest(d) && s != Failed && !(k == Nin && s == Approved)
    ensures var m := Create(d, k, s);
      && m.profile == m.saved && m.attempts == d.attempts + [Attempt(k, s)]
      && m.saved == if k == Whole then d.saved else Stored(d.saved, k, Unmapped(s))
  {
  }

  lemma CreateApprovedNumber(d: Desk)
    requires AtRest(d)
    ensures var m := Create(d, Nin, Approved);
      && m.profile == m.saved && m.attempts == ApproveLatestBiodata(d.attempts + [Attempt(Nin, Approved)])
      && m.saved == Stored(Stored(d.saved, Nin, Status.Verified), Biodata, Status.Verified)
  {
    hide ApproveLatestBiodata;
  }

  /** A number that the registry confirms is verified, with the biodata; the approved attempt is last. One that
      it contradicts is rejected, and nothing else changes. */
  lemma NumberSubmitted(d: Desk)
    requires Settled(d) && d.saved.nin != Status.Verified
    ensures var m := Submit(d, Nin, false, Matches);
      && m.saved.nin == Status.Verified && m.saved.biodata == Status.Verified
      && m.saved.callup == d.saved.callup && m.saved.stateCode == d.saved.stateCode
      && BiodataApproved(d.attempts + [Attempt(Nin, Approved)], m.attempts)
      && m.attempts[|d.attempts|] == Attempt(Nin, Approved)
    ensures var m := Submit(d, Nin, false, Differs);
      && m.saved == Stored(d.saved, Nin, Status.Rejected)
      && m.attempts == d.attempts + [Attempt(Nin, AttemptStatus.Rejected)]
      && m.saved.nin == Status.Rejected && m.saved.biodata == d.saved.biodata
  {
    hide Settled, Submit, Create, ApproveLatestBiodata;
    AtRestOf(d);
    SubmitIsCreate(d, Nin, Matches);
    SubmitIsCreate(d, Nin, Differs);
    CreateApprovedNumber(d);
    CreateDoes(d, Nin, AttemptStatus.Rejected);
    ApproveLatestExactly(d.attempts + [Attempt(Nin, Approved)]);
  }

  /** Any other part becomes pending with a pending attempt; an attempt on the whole profile only logs itself. */
  lemma OtherSubmitted(d: Desk, k: Kind, finding: Finding)
    requires Settled(d) && k != Nin && (Part(k) ==> StatusOf(d.saved, k) != Status.Verified)
    ensures var m := Submit(d, k, false, finding);
      && m.attempts == d.attempts + [Attempt(k, AttemptStatus.Pending)]
      && (k == Whole ==> m.saved == d.saved)
      && (k == Biodata ==> m.saved.biodata == Status.Pending && m.saved.nin == d.saved.nin
                           && m.saved.callup == d.saved.callup && m.saved.stateCode == d.saved.stateCode)
      && (k == Callup ==> m.saved.callup == Status.Pending && m.saved.nin == d.saved.nin
                          && m.saved.biodata == d.saved.biodata && m.saved.stateCode == d.saved.stateCode)
      && (k == StateCode ==> m.saved.stateCode == Status.Pending && m.saved.nin == d.saved.nin
                             && m.saved.biodata == d.saved.biodata && m.saved.callup == d.saved.callup)
  {
    hide Settled, Submit, Create;
    AtRestOf(d);
    SubmitIsCreate(d, k, finding);
    CreateDoes(d, k, AttemptStatus.Pending);
  }

  /** A refused submission, or one of a verified number, call-up or state code, only logs a failed attempt; one
      of verified biodata does nothing at all. */
  lemma SubmissionRefused(d: Desk, k: Kind, refused: bool, finding: Finding)
    requires refused || (Part(k) && StatusOf(d.profile, k) == Status.Verified)
    ensures var m := Submit(d, k, refused, finding);
      if !refused && k == Biodata then m == d
      else m.saved == d.saved && m.profile == d.profile && m.attempts == d.attempts + [Attempt(k, Failed)]
  {
  }

  // ---- Reviews ----

  /** A decision stores itself in its part, and an approved number in the biodata too; in the log it stands in
      the decided attempt, and an approved number also approves the newest undecided biodata. */
  lemma ReviewDoes(d: Desk, i: nat, approve: bool)
    requires AtRest(d) && i < |d.attempts|
    ensures var m, k := Review(d, i, approve), d.attempts[i].kind;
      var s := if approve then Status.Verified else Status.Rejected;
      var log := d.attempts[i := Attempt(k, if approve then Approved else AttemptStatus.Rejected)];
      && m.profile == m.saved
      && (k == Whole ==> m.saved == d.saved && m.attempts == log)
      && (k in {Biodata, Callup, StateCode} || (k == Nin && !approve) ==>
            m.saved == Stored(d.saved, k, s) && m.attempts == log)
      && (k == Nin && approve ==>
            m.saved == Stored(Stored(d.saved, Nin, Status.Verified), Biodata, Status.Verified)
            && BiodataApproved(log, m.attempts))
  {
    hide ApproveLatestBiodata;
    ReviewIsSave(d, i, approve);
    var log := d.attempts[i := d.attempts[i].(status := if approve then Approved else AttemptStatus.Rejected)];
    ApproveLatestExactly(log);
  }

  // ---- Edits ----

  /** What a push may do to the log: the newest attempt of its kind, or undecided biodata. */
  predicate MayPush(log: seq<Attempt>, after: seq<Attempt>) {
    && |after| == |log|
    && forall i :: 0 <= i < |log| && after[i] != log[i] ==>
         && after[i].kind == log[i].kind && after[i].status != Failed && log[i].status != Failed
         && (Latest(log, log[i].kind) == Some(i) || after[i] == Attempt(Biodata, Approved))
  }

  lemma MayPushThen(a: seq<Attempt>, b: seq<Attempt>, c: seq<Attempt>)
    requires MayPush(a, b) && MayPush(b, c)
    ensures MayPush(a, c) && forall k: Kind :: Latest(b, k) == Latest(a, k)
  {
    forall k: Kind ensures Latest(b, k) == Latest(a, k) {
      assert forall x :: 0 <= x < |a| ==> (Picks(b[x], k, {Failed}) <==> Picks(a[x], k, {Failed}));
    }
    hide Latest;
  }

  lemma PushOneLog(d: Desk, before: Profile, k: Kind)
    ensures var m := PushOne(d, before, k);
      && MayPush(d.attempts, m.attempts)
      && (k != Whole ==>
            forall i :: 0 <= i < |d.attempts| && d.attempts[i].kind == Whole ==> m.attempts[i] == d.attempts[i])
  {
    hide Newest, Derived;
    var next, latest := NextStatus(d.profile, k), Latest(d.attempts, k);
    if !Unchanged(before, d.profile, k) && next.Some? && latest.Some? && d.attempts[latest.value].status != next.value {
      var log := d.attempts[latest.value := d.attempts[latest.value].(status := next.value)];
      SyncCorperLog(d.(attempts := log), latest.value);
      ApproveLatestExactly(log);
    }
  }

  /** An edit writes to the log only in the newest attempts of their kinds, the biodata of an approved number
      aside; and the newest attempt on the whole profile follows the overall status the edit gives, if that changed. */
  lemma AdminUpdateLogs(d: Desk, c: Changes)
    requires AtRest(d)
    ensures var m := AdminUpdate(d, c);
      var overall := Derived(Edited(d.profile, c));
      var whole := Latest(d.attempts, Whole);
      && MayPush(d.attempts, m.attempts)
      && (whole.Some? ==>
            m.attempts[whole.value].status ==
              if overall == d.saved.overall then d.attempts[whole.value].status
              else if overall == Overall.Verified then Approved
              else if overall == Overall.Rejected then AttemptStatus.Rejected else AttemptStatus.Pending)
  {
    hide PushOne, Newest, MayPush, Derived;
    var d0 := SaveRow(d.(profile := Edited(d.profile, c)), Named(c));
    var b := d.saved;
    var d1 := PushOne(d0, b, Whole);
    var d2 := PushOne(d1, b, Biodata);
    var d3 := PushOne(d2, b, Nin);
    var d4 := PushOne(d3, b, Callup);
    PushOneLog(d0, b, Whole);
    PushOneLog(d1, b, Biodata);
    PushOneLog(d2, b, Nin);
    PushOneLog(d3, b, Callup);
    PushOneLog(d4, b, StateCode);
    PushUnrolled(d0, b);
    MayPushThen(d0.attempts, d1.attempts, d2.attempts);
    MayPushThen(d0.attempts, d2.attempts, d3.attempts);
    MayPushThen(d0.attempts, d3.attempts, d4.attempts);
    MayPushThen(d0.attempts, d4.attempts, PushOne(d4, b, StateCode).attempts);
    PushWhole(d0, b);
    KindsKept(d0.attempts, d1.attempts);
    KindsKept(d0.attempts, d2.attempts);
    KindsKept(d0.attempts, d3.attempts);
    KindsKept(d0.attempts, d4.attempts);
    assert d0.profile.overall == Derived(Edited(d.profile, c)) by { DerivedIgnoresOverall(Edited(d.profile, c)); }
  }

  lemma DerivedIgnoresOverall(p: Profile)
    ensures Derived(p.(overall := Derived(p))) == Derived(p)
  {
  }

  lemma KindsKept(a: seq<Attempt>, b: seq<Attempt>)
    requires MayPush(a, b)
    ensures |b| == |a| && forall i :: 0 <= i < |a| ==> b[i].kind == a[i].kind
  {
  }

  lemma PushWhole(d: Desk, before: Profile)
    ensures var m, whole := PushOne(d, before, Whole), Latest(d.attempts, Whole);
      whole.Some? ==>
        m.attempts[whole.value].status ==
          if d.profile.overall == before.overall then d.attempts[whole.value].status
          else if d.profile.overall == Overall.Verified then Approved
          else if d.profile.overall == Overall.Rejected then AttemptStatus.Rejected else AttemptStatus.Pending
  {
    hide Newest, Derived;
  }
}
