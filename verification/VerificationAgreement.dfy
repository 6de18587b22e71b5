/** The log and the profile agree after every request, except a review of an overtaken attempt. */
module VerificationAgreement {
  import opened Wrappers
  import opened Verification

  /** The newest attempt of a kind that has not failed carries the status of the profile. */
  predicate Agrees(d: Desk, k: Kind)
    requires Part(k)
  {
    var latest := Latest(d.attempts, k);
    var mapped := Mapped(StatusOf(d.saved, k));
    mapped.Some? && latest.Some? ==> d.attempts[latest.value].status == mapped.value
  }

  /** At rest: memory is the row, and the overall status is the derived one, whatever was written to it. */
  predicate AtRest(d: Desk) { d.profile == d.saved && d.saved.overall == Derived(d.saved) }

  predicate Settled(d: Desk) {
    AtRest(d) && Agrees(d, Biodata) && Agrees(d, Nin) && Agrees(d, Callup) && Agrees(d, StateCode)
  }

  // ---- One push ----

  lemma ApproveLeavesApproved(log: seq<Attempt>)
    ensures var after := ApproveLatestBiodata(log);
      && |after| == |log|
      && (forall k: Kind :: Latest(after, k) == Latest(log, k))
      && (forall i :: 0 <= i < |log| && log[i].kind != Biodata ==> after[i] == log[i])
      && (Latest(after, Biodata).Some? ==> after[Latest(after, Biodata).value].status == Approved)
  {
    var after := ApproveLatestBiodata(log);
    forall k: Kind ensures Latest(after, k) == Latest(log, k) {
      var a, b := Latest(after, k), Latest(log, k);
      assert forall i :: 0 <= i < |log| ==> (Picks(after[i], k, {Failed}) <==> Picks(log[i], k, {Failed}));
    }
  }

  lemma RestatusKeepsLatest(log: seq<Attempt>, i: nat, s: AttemptStatus)
    requires i < |log| && log[i].status != Failed && s != Failed
    ensures forall k: Kind :: Latest(log[i := log[i].(status := s)], k) == Latest(log, k)
  {
    var after := log[i := log[i].(status := s)];
    forall k: Kind ensures Latest(after, k) == Latest(log, k) {
      assert forall x :: 0 <= x < |log| ==> (Picks(after[x], k, {Failed}) <==> Picks(log[x], k, {Failed}));
    }
  }

  /** An attempt's save leaves the row complete: memory and row are the projection, its overall derived. */
  lemma SyncCorperRests(d: Desk, i: nat)
    requires d.profile == d.saved && i < |d.attempts| && d.attempts[i].status != Failed
    ensures var m, a := SyncCorper(d, i), d.attempts[i];
      && AtRest(m)
      && (a.kind == Whole ==> m.profile == d.profile.(overall := Derived(d.profile)))
      && (Part(a.kind) ==> StatusOf(m.profile, a.kind) == Unmapped(a.status))
      && (forall j :: Part(j) && j !in Touched(a) ==> StatusOf(m.profile, j) == StatusOf(d.profile, j))
      && (a.kind == Nin && a.status == Approved ==> m.profile.biodata == Status.Verified)
  {
  }

  /** Pushing a status that the profile already has into the newest attempt of its kind settles that kind
      and unsettles none. */
  lemma SaveAttemptSettles(d: Desk, i: nat, s: AttemptStatus, k: Kind)
    requires AtRest(d) && Latest(d.attempts, k) == Some(i) && s != Failed
    requires Part(k) ==> Mapped(StatusOf(d.profile, k)) == Some(s)
    ensures var m := SaveAttempt(d, i, s);
      && AtRest(m)
      && (Part(k) ==> Agrees(m, k))
      && (forall j :: Part(j) && j != k && Agrees(d, j) ==> Agrees(m, j))
      && (forall j :: Part(j) && !(j == Biodata && k == Nin) ==> StatusOf(m.profile, j) == StatusOf(d.profile, j))
      && (k == Nin && s != Approved ==> m.profile.biodata == d.profile.biodata)
      && (k == Nin && s == Approved ==> m.profile.biodata == Status.Verified)
  {
    hide Newest, SyncCorper, ApproveLatestBiodata, Derived;
    var d1 := d.(attempts := d.attempts[i := d.attempts[i].(status := s)]);
    RestatusKeepsLatest(d.attempts, i, s);
    SyncCorperRests(d1, i);
    SyncCorperLog(d1, i);
    ApproveLeavesApproved(d1.attempts);
    assert StatusOf(SaveAttempt(d, i, s).profile, Biodata) == d.profile.biodata || Biodata in Touched(d1.attempts[i]);
  }

  lemma SyncCorperLog(d: Desk, i: nat)
    requires i < |d.attempts|
    ensures SyncCorper(d, i).attempts ==
              if d.attempts[i] == Attempt(Nin, Approved) then ApproveLatestBiodata(d.attempts) else d.attempts
  {
    hide ApproveLatestBiodata;
  }

  // ---- A whole push ----

  /** Kinds already passed agree; a kind still to come agrees if its status is the one before. */
  predicate PushedThrough(d: Desk, before: Profile, n: nat)
    requires n <= |ORDER|
  {
    AtRest(d) && forall j :: 1 <= j < |ORDER| ==>
      (j < n || Unchanged(before, d.profile, ORDER[j]) ==> Agrees(d, ORDER[j]))
  }

  lemma PushStep(d: Desk, before: Profile, n: nat)
    requires n < |ORDER| && PushedThrough(d, before, n)
    ensures PushedThrough(PushOne(d, before, ORDER[n]), before, n + 1)
  {
    hide SaveAttempt;
    var k := ORDER[n];
    var next := NextStatus(d.profile, k);
    var latest := Latest(d.attempts, k);
    if !Unchanged(before, d.profile, k) && next.Some? && latest.Some?
       && d.attempts[latest.value].status != next.value {
      SaveAttemptSettles(d, latest.value, next.value, k);
    }
  }

  lemma {:induction false} PushAll(d: Desk, before: Profile, n: nat)
    requires n <= |ORDER| && PushedThrough(d, before, 0)
    ensures PushedThrough(Push(d, before, n), before, n)
  {
    hide PushOne, PushedThrough;
    if n > 0 {
      PushAll(d, before, n - 1);
      PushStep(Push(d, before, n - 1), before, n - 1);
    }
  }

  /** A profile save settles the desk if its row write is complete and every status it does not change
      already agreed. */
  lemma SaveProfileSettles(d: Desk, fields: set<Kind>)
    requires AtRest(SaveRow(d, fields))
    requires forall k :: Part(k) && StatusOf(d.saved, k) == StatusOf(d.profile, k) ==>
               Agrees(SaveRow(d, fields), k)
    ensures Settled(SaveProfile(d, fields))
  {
    hide PushOne, Agrees;
    var row := SaveRow(d, fields);
    PushAll(row, d.saved, |ORDER|);
    var m := Push(row, d.saved, |ORDER|);
    assert Agrees(m, ORDER[1]) && Agrees(m, ORDER[2]) && Agrees(m, ORDER[3]) && Agrees(m, ORDER[4]);
  }

  /** Several statuses at once, in any combination. */
  lemma AdminUpdateSettles(d: Desk, c: Changes)
    requires Settled(d)
    ensures Settled(AdminUpdate(d, c))
  {
    hide Push;
    SaveProfileSettles(d.(profile := Edited(d.profile, c)), Named(c));
  }

  /** A save that changes no status touches nothing but the derived status. */
  lemma IdleSave(d: Desk, fields: set<Kind>)
    requires AtRest(SaveRow(d, fields)) && SaveRow(d, fields).saved == d.saved
    ensures SaveProfile(d, fields) == SaveRow(d, fields)
  {
    var row := SaveRow(d, fields);
    assert Push(row, d.saved, 1) == row;
    assert Push(row, d.saved, 2) == row;
    assert Push(row, d.saved, 3) == row;
    assert Push(row, d.saved, 4) == row;
  }

  // ---- Submissions ----

  lemma CreateFailed(d: Desk, k: Kind)
    requires Settled(d)
    ensures Settled(RecordFailed(d, k))
  {
    var log := d.attempts + [Attempt(k, Failed)];
    forall j: Kind ensures Latest(log, j) == Latest(d.attempts, j) {
      assert log[..|d.attempts|] == d.attempts;
      NewestPrefix(d.attempts, log, |d.attempts|, j);
    }
  }

  lemma {:induction false} NewestPrefix(a: seq<Attempt>, b: seq<Attempt>, n: nat, k: Kind)
    requires n <= |a| <= |b| && forall i :: 0 <= i < n ==> a[i] == b[i]
    ensures Newest(a, n, k, {Failed}) == Newest(b, n, k, {Failed})
  {
    if n > 0 { NewestPrefix(a, b, n - 1, k); }
  }

  lemma AppendLatest(log: seq<Attempt>, a: Attempt)
    requires a.status != Failed
    ensures Latest(log + [a], a.kind) == Some(|log|)
    ensures forall k :: k != a.kind ==> Latest(log + [a], k) == Latest(log, k)
  {
    forall k | k != a.kind ensures Latest(log + [a], k) == Latest(log, k) {
      NewestPrefix(log, log + [a], |log|, k);
    }
  }

  /** A new attempt that has not failed becomes the newest of its kind and the profile follows it. */
  lemma CreateSettles(d: Desk, k: Kind, s: AttemptStatus)
    requires Settled(d) && s != Failed
    ensures var m := Create(d, k, s);
      && Settled(m)
      && (Part(k) ==> StatusOf(m.profile, k) == Unmapped(s))
      && (k == Nin && s == Approved ==> m.profile.biodata == Status.Verified)
      && |m.attempts| == |d.attempts| + 1
      && m.attempts[|d.attempts|] == Attempt(k, s) && Latest(m.attempts, k) == Some(|d.attempts|)
  {
    hide Newest, SyncCorper, ApproveLatestBiodata, Derived;
    var d1 := d.(attempts := d.attempts + [Attempt(k, s)]);
    AppendLatest(d.attempts, Attempt(k, s));
    SyncCorperRests(d1, |d.attempts|);
    SyncCorperLog(d1, |d.attempts|);
    ApproveLeavesApproved(d1.attempts);
    var m := Create(d, k, s);
    forall j | Part(j) ensures Agrees(m, j) {
      assert j != k ==> Latest(d1.attempts, j) == Latest(d.attempts, j);
      assert Agrees(d, j);
    }
    ApproveOthers(d1.attempts, |d.attempts|);
  }

  lemma ApproveOthers(log: seq<Attempt>, i: nat)
    requires i < |log|
    ensures log[i].kind != Biodata ==> ApproveLatestBiodata(log)[i] == log[i]
  {
  }

  /** Writing again what the created attempt already wrote is an idle save. */
  lemma RepeatedWrite(d: Desk, p: Profile, fields: set<Kind>)
    requires Settled(d) && p == d.profile.(overall := p.overall)
    ensures SaveProfile(d.(profile := p), fields) == d
  {
    IdleSave(d.(profile := p), fields);
  }

  lemma SubmitSettles(d: Desk, k: Kind, refused: bool, finding: Finding)
    requires Settled(d)
    ensures Settled(Submit(d, k, refused, finding))
  {
    hide Create, SaveProfile, SaveAttempt, Settled, Agrees;
    CreateFailed(d, k);
    AtRestOf(d);
    if !refused && (k == Whole || StatusOf(d.profile, k) != Status.Verified) {
      var s := if k != Nin then AttemptStatus.Pending
               else if finding == Differs then AttemptStatus.Rejected else Approved;
      CreateSettles(d, k, s);
      var d1 := Create(d, k, s);
      AtRestOf(d1);
      match k
      case Biodata => RepeatedWrite(d1, d1.profile.(biodata := Status.Pending), {Biodata});
      case Nin =>
        if finding == Differs {
          RepeatedWrite(d1, d1.profile.(nin := Status.Rejected), {Nin});
        } else {
          RepeatedWrite(d1, d1.profile.(nin := Status.Verified, biodata := Status.Verified), {Nin, Biodata});
        }
      case Whole => RepeatedWrite(d1, d1.profile.(overall := UnderReview), {});
      case _ =>
        RepeatedWrite(d1, WithStatus(d1.profile, k, Status.Pending), {k});
        SettledAfterResave(d1, |d.attempts|, k);
    }
  }

  lemma AtRestOf(d: Desk)
    requires Settled(d)
    ensures AtRest(d)
  {
  }

  lemma SettledAfterResave(d: Desk, i: nat, k: Kind)
    requires Settled(d) && k in {Callup, StateCode} && Latest(d.attempts, k) == Some(i)
    requires StatusOf(d.profile, k) == Status.Pending
    ensures Settled(SaveAttempt(d, i, AttemptStatus.Pending))
  {
    hide SaveAttempt;
    SaveAttemptSettles(d, i, AttemptStatus.Pending, k);
  }

  // ---- Reviews ----

  /** No newer attempt of the kind, failed ones aside, says otherwise. */
  predicate Current(log: seq<Attempt>, i: nat, s: AttemptStatus)
    requires i < |log|
  {
    var n := Latest(log, log[i].kind);
    n.None? || n.value <= i || log[n.value].status == s
  }

  lemma RestatusLatest(log: seq<Attempt>, i: nat, s: AttemptStatus)
    requires i < |log| && s != Failed
    ensures var after := log[i := log[i].(status := s)];
      && (forall k :: k != log[i].kind ==> Latest(after, k) == Latest(log, k))
      && Latest(after, log[i].kind) ==
           (var n := Latest(log, log[i].kind); if n.Some? && n.value > i then n else Some(i))
  {
    var after := log[i := log[i].(status := s)];
    forall k: Kind
      ensures Latest(after, k) == (var n := Latest(log, k);
              if k == log[i].kind && (n.None? || n.value <= i) then Some(i) else n)
    {
      assert forall x :: 0 <= x < |log| && x != i ==> (Picks(after[x], k, {Failed}) <==> Picks(log[x], k, {Failed}));
      assert Picks(after[i], k, {Failed}) <==> k == log[i].kind;
      assert k != log[i].kind ==> !Picks(log[i], k, {Failed});
    }
  }

  lemma ReviewIsSave(d: Desk, i: nat, approve: bool)
    requires AtRest(d) && i < |d.attempts|
    ensures Review(d, i, approve) == SaveAttempt(d, i, if approve then Approved else AttemptStatus.Rejected)
  {
    hide Newest, Derived;
    var s := if approve then Approved else AttemptStatus.Rejected;
    var a := d.attempts[i].(status := s);
    var d1 := SaveAttempt(d, i, s);
    SyncCorperRests(d.(attempts := d.attempts[i := a]), i);
    IdleSave(d1.(profile := Project(d1.profile, a)), Touched(a));
  }

  /** What a review does to the kinds other than the reviewed one: they stay as they were, or, for the
      biodata of an approved identity number, agree on approval. */
  lemma ReviewOthers(d: Desk, i: nat, s: AttemptStatus, j: Kind)
    requires Settled(d) && i < |d.attempts| && s != Failed && Part(j) && j != d.attempts[i].kind
    ensures Agrees(SaveAttempt(d, i, s), j)
  {
    hide Settled, Agrees, SaveAttempt;
    AtRestOf(d);
    AgreesOf(d, j);
    if j == Biodata && d.attempts[i].kind == Nin && s == Approved {
      ReviewBiodataOfNin(d, i);
    } else {
      ReviewUntouched(d, i, s, j);
    }
  }

  lemma AgreesOf(d: Desk, j: Kind)
    requires Settled(d) && Part(j)
    ensures Agrees(d, j)
  {
  }

  lemma ReviewUntouched(d: Desk, i: nat, s: AttemptStatus, j: Kind)
    requires AtRest(d) && i < |d.attempts| && s != Failed && Part(j) && j != d.attempts[i].kind && Agrees(d, j)
    requires !(j == Biodata && d.attempts[i].kind == Nin && s == Approved)
    ensures Agrees(SaveAttempt(d, i, s), j)
  {
    hide Newest, SyncCorper, ApproveLatestBiodata, Derived;
    var d1 := d.(attempts := d.attempts[i := d.attempts[i].(status := s)]);
    RestatusLatest(d.attempts, i, s);
    SyncCorperRests(d1, i);
    SyncCorperLog(d1, i);
    ApproveLeavesApproved(d1.attempts);
  }

  lemma ReviewBiodataOfNin(d: Desk, i: nat)
    requires AtRest(d) && i < |d.attempts| && d.attempts[i].kind == Nin
    ensures Agrees(SaveAttempt(d, i, Approved), Biodata)
  {
    hide Newest, SyncCorper, ApproveLatestBiodata, Derived;
    var d1 := d.(attempts := d.attempts[i := d.attempts[i].(status := Approved)]);
    SyncCorperRests(d1, i);
    SyncCorperLog(d1, i);
    ApproveLeavesApproved(d1.attempts);
  }

  lemma ReviewOwn(d: Desk, i: nat, s: AttemptStatus)
    requires Settled(d) && i < |d.attempts| && s in {Approved, AttemptStatus.Rejected}
    requires Part(d.attempts[i].kind)
    ensures Agrees(SaveAttempt(d, i, s), d.attempts[i].kind) <==> Current(d.attempts, i, s)
  {
    hide Newest, SyncCorper, ApproveLatestBiodata, Derived;
    var k := d.attempts[i].kind;
    var d1 := d.(attempts := d.attempts[i := d.attempts[i].(status := s)]);
    RestatusLatest(d.attempts, i, s);
    SyncCorperRests(d1, i);
    SyncCorperLog(d1, i);
    ApproveLeavesApproved(d1.attempts);
  }

  /** Reviewing an attempt keeps the agreement exactly when no newer attempt of its kind says otherwise;
      an attempt on the whole profile takes no part in it. */
  lemma ReviewSettlesExactly(d: Desk, i: nat, approve: bool)
    requires Settled(d) && i < |d.attempts|
    ensures Settled(Review(d, i, approve)) <==>
              d.attempts[i].kind == Whole
              || Current(d.attempts, i, if approve then Approved else AttemptStatus.Rejected)
    ensures AtRest(Review(d, i, approve))
  {
    hide Review, SaveAttempt, Agrees, Current;
    var s := if approve then Approved else AttemptStatus.Rejected;
    var k := d.attempts[i].kind;
    ReviewIsSave(d, i, approve);
    SaveAttemptRests(d, i, s);
    forall j | Part(j) && j != k ensures Agrees(SaveAttempt(d, i, s), j) { ReviewOthers(d, i, s, j); }
    if Part(k) { ReviewOwn(d, i, s); }
  }

  lemma SaveAttemptRests(d: Desk, i: nat, s: AttemptStatus)
    requires AtRest(d) && i < |d.attempts| && s != Failed
    ensures AtRest(SaveAttempt(d, i, s))
  {
    SyncCorperRests(d.(attempts := d.attempts[i := d.attempts[i].(status := s)]), i);
  }
}
