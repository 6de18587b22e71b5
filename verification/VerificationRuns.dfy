/** What an administrator's edit leaves behind, and what whole runs of requests keep. */
module VerificationRuns {
  import opened Wrappers
  import opened Verification
  import opened VerificationAgreement

  // ---- What one edit leaves ----

  /** A number that turns verified while its newest attempt is not approved yet. */
  predicate ApprovesNin(d: Desk, p: Profile) {
    var latest := Latest(d.attempts, Nin);
    && p.nin == Status.Verified && d.saved.nin != Status.Verified
    && latest.Some? && d.attempts[latest.value].status != Approved
  }

  /** A push of any other kind leaves every status, and the newest attempt on the number, alone. */
  lemma PushOneFrame(d: Desk, before: Profile, k: Kind)
    requires AtRest(d) && k != Nin
    ensures var m := PushOne(d, before, k);
      && AtRest(m)
      && (forall j :: Part(j) ==> StatusOf(m.profile, j) == StatusOf(d.profile, j))
      && Latest(m.attempts, Nin) == Latest(d.attempts, Nin)
      && (forall i :: 0 <= i < |d.attempts| && d.attempts[i].kind == Nin ==> m.attempts[i] == d.attempts[i])
  {
    hide SaveAttempt;
    var next := NextStatus(d.profile, k);
    var latest := Latest(d.attempts, k);
    if !Unchanged(before, d.profile, k) && next.Some? && latest.Some?
       && d.attempts[latest.value].status != next.value {
      SaveAttemptSettles(d, latest.value, next.value, k);
      SaveAttemptLog(d, latest.value, next.value);
      RestatusKeepsLatest(d.attempts, latest.value, next.value);
    }
  }

  lemma SaveAttemptLog(d: Desk, i: nat, s: AttemptStatus)
    requires i < |d.attempts| && d.attempts[i].kind != Nin
    ensures SaveAttempt(d, i, s).attempts == d.attempts[i := d.attempts[i].(status := s)]
  {
  }

  lemma PushNin(d: Desk, before: Profile)
    requires AtRest(d)
    ensures var m, latest := PushOne(d, before, Nin), Latest(d.attempts, Nin);
      && AtRest(m)
      && (forall j :: Part(j) && j != Biodata ==> StatusOf(m.profile, j) == StatusOf(d.profile, j))
      && m.profile.biodata ==
           if d.profile.nin == Status.Verified && before.nin != Status.Verified && latest.Some?
              && d.attempts[latest.value].status != Approved then Status.Verified else d.profile.biodata
  {
    hide SaveAttempt;
    var next := NextStatus(d.profile, Nin);
    var latest := Latest(d.attempts, Nin);
    if !Unchanged(before, d.profile, Nin) && next.Some? && latest.Some?
       && d.attempts[latest.value].status != next.value {
      SaveAttemptSettles(d, latest.value, next.value, Nin);
    }
  }

  /** An edit stores exactly the statuses it names, save one: approving the number also verifies the
      biodata, whatever the same request said of it. */
  lemma AdminUpdateStores(d: Desk, c: Changes)
    requires AtRest(d)
    ensures var m, p := AdminUpdate(d, c), Edited(d.profile, c);
      && AtRest(m)
      && m.saved.nin == p.nin && m.saved.callup == p.callup && m.saved.stateCode == p.stateCode
      && m.saved.biodata == if ApprovesNin(d, p) then Status.Verified else p.biodata
  {
    hide PushOne, Newest;
    var d0 := SaveRow(d.(profile := Edited(d.profile, c)), Named(c));
    var b := d.saved;
    var d1 := PushOne(d0, b, Whole);
    var d2 := PushOne(d1, b, Biodata);
    var d3 := PushOne(d2, b, Nin);
    var d4 := PushOne(d3, b, Callup);
    PushOneFrame(d0, b, Whole);
    PushOneFrame(d1, b, Biodata);
    PushNin(d2, b);
    PushOneFrame(d3, b, Callup);
    PushOneFrame(d4, b, StateCode);
    PushUnrolled(d0, b);
    assert d2.profile.biodata == StatusOf(d2.profile, Biodata);
    assert d2.profile.nin == StatusOf(d2.profile, Nin);
    SameNewest(d, d2);
    var m := PushOne(d4, b, StateCode);
    forall j | Part(j) && j != Biodata ensures StatusOf(m.profile, j) == StatusOf(d0.profile, j) { }
    assert StatusOf(m.profile, Nin) == d0.profile.nin && StatusOf(m.profile, Callup) == d0.profile.callup;
    assert StatusOf(m.profile, StateCode) == d0.profile.stateCode;
    assert StatusOf(m.profile, Biodata) == StatusOf(d3.profile, Biodata);
  }

  lemma SameNewest(d: Desk, m: Desk)
    requires |m.attempts| == |d.attempts| && Latest(m.attempts, Nin) == Latest(d.attempts, Nin)
    requires forall i :: 0 <= i < |d.attempts| && d.attempts[i].kind == Nin ==> m.attempts[i] == d.attempts[i]
    ensures var latest := Latest(d.attempts, Nin);
      latest.Some? ==> m.attempts[latest.value] == d.attempts[latest.value]
  {
  }

  lemma PushUnrolled(d: Desk, before: Profile)
    ensures Push(d, before, |ORDER|) ==
              PushOne(PushOne(PushOne(PushOne(PushOne(d, before, Whole), before, Biodata), before, Nin),
                              before, Callup), before, StateCode)
  {
    hide PushOne;
    var d1 := PushOne(d, before, Whole);
    var d2 := PushOne(d1, before, Biodata);
    var d3 := PushOne(d2, before, Nin);
    assert Push(d, before, 1) == d1;
    assert Push(d, before, 2) == d2;
    assert Push(d, before, 3) == d3;
    assert Push(d, before, 4) == PushOne(d3, before, Callup);
  }

  // ---- Runs ----

  datatype Step =
    | Submission(kind: Kind, refused: bool, finding: Finding)
    | Edit(changes: Changes)
    | Decision(index: nat, approve: bool)

  /** A decision on an attempt that does not exist is a 404 and changes nothing. */
  function Take(d: Desk, s: Step): Desk {
    match s
    case Submission(k, refused, finding) => Submit(d, k, refused, finding)
    case Edit(c) => AdminUpdate(d, c)
    case Decision(i, approve) => if i < |d.attempts| then Review(d, i, approve) else d
  }

  function Run(d: Desk, steps: seq<Step>): Desk
    decreases |steps|
  {
    if steps == [] then d else Run(Take(d, steps[0]), steps[1..])
  }

  predicate Overtaken(d: Desk, s: Step) {
    s.Decision? && s.index < |d.attempts| && d.attempts[s.index].kind != Whole
    && !Current(d.attempts, s.index, if s.approve then Approved else AttemptStatus.Rejected)
  }

  /** No step of the run decides an attempt that a newer one of its kind contradicts. */
  predicate NeverOvertaken(d: Desk, steps: seq<Step>)
    decreases |steps|
  {
    steps == [] || (!Overtaken(d, steps[0]) && NeverOvertaken(Take(d, steps[0]), steps[1..]))
  }

  lemma StepSettlesExactly(d: Desk, s: Step)
    requires Settled(d)
    ensures Settled(Take(d, s)) <==> !Overtaken(d, s)
  {
    hide Submit, AdminUpdate, Review, Settled, Current;
    match s
    case Submission(k, refused, finding) => SubmitSettles(d, k, refused, finding);
    case Edit(c) => AdminUpdateSettles(d, c);
    case Decision(i, approve) => if i < |d.attempts| { ReviewSettlesExactly(d, i, approve); }
  }

  /** Log and profile agree after every run that decides no overtaken attempt. */
  lemma {:induction false} EveryRunSettles(d: Desk, steps: seq<Step>)
    requires Settled(d) && NeverOvertaken(d, steps)
    ensures Settled(Run(d, steps))
    decreases |steps|
  {
    hide Take, Settled, Overtaken;
    if steps != [] {
      StepSettlesExactly(d, steps[0]);
      EveryRunSettles(Take(d, steps[0]), steps[1..]);
    }
  }

  // ---- The overall status, in every run ----

  lemma {:induction false} PushRests(d: Desk, before: Profile, n: nat)
    requires n <= |ORDER| && AtRest(d)
    ensures AtRest(Push(d, before, n))
  {
    hide SaveAttempt;
    if n > 0 {
      PushRests(d, before, n - 1);
      var m, k := Push(d, before, n - 1), ORDER[n - 1];
      var latest, next := Latest(m.attempts, k), NextStatus(m.profile, k);
      if latest.Some? && next.Some? { SaveAttemptRests(m, latest.value, next.value); }
    }
  }

  lemma CreateRests(d: Desk, k: Kind, s: AttemptStatus)
    requires AtRest(d)
    ensures AtRest(Create(d, k, s)) && |Create(d, k, s).attempts| == |d.attempts| + 1
  {
    hide ApproveLatestBiodata, Derived;
    if s != Failed { SyncCorperRests(d.(attempts := d.attempts + [Attempt(k, s)]), |d.attempts|); }
  }

  lemma SaveProfileRests(d: Desk, fields: set<Kind>)
    requires AtRest(SaveRow(d, fields))
    ensures AtRest(SaveProfile(d, fields))
  {
    hide Push;
    PushRests(SaveRow(d, fields), d.saved, |ORDER|);
  }

  lemma SubmitRests(d: Desk, k: Kind, refused: bool, finding: Finding)
    requires AtRest(d)
    ensures AtRest(Submit(d, k, refused, finding))
  {
    hide Create, SaveProfile, SaveAttempt;
    CreateRests(d, k, Failed);
    var s := if k != Nin then AttemptStatus.Pending
             else if finding == Differs then AttemptStatus.Rejected else Approved;
    CreateRests(d, k, s);
    var d1 := Create(d, k, s);
    match k
    case Biodata => SaveProfileRests(d1.(profile := d1.profile.(biodata := Status.Pending)), {Biodata});
    case Nin =>
      SaveProfileRests(d1.(profile := d1.profile.(nin := Status.Rejected)), {Nin});
      SaveProfileRests(d1.(profile := d1.profile.(nin := Status.Verified, biodata := Status.Verified)), {Nin, Biodata});
    case Whole => SaveProfileRests(d1.(profile := d1.profile.(overall := UnderReview)), {});
    case _ =>
      SaveProfileRests(d1.(profile := WithStatus(d1.profile, k, Status.Pending)), {k});
      var d2 := SaveProfile(d1.(profile := WithStatus(d1.profile, k, Status.Pending)), {k});
      SaveAttemptRests(d2, |d.attempts|, AttemptStatus.Pending);
  }

  lemma StepRests(d: Desk, s: Step)
    requires AtRest(d)
    ensures AtRest(Take(d, s))
  {
    hide Submit, SaveAttempt, SaveProfile, Newest;
    match s
    case Submission(k, refused, finding) => SubmitRests(d, k, refused, finding);
    case Edit(c) => SaveProfileRests(d.(profile := Edited(d.profile, c)), Named(c));
    case Decision(i, approve) =>
      if i < |d.attempts| {
        ReviewIsSave(d, i, approve);
        SaveAttemptRests(d, i, if approve then Approved else AttemptStatus.Rejected);
      }
  }

  /** In every run the stored overall status is the derived one: an "under review" that a request writes
      never reaches the row, and the corper is verified exactly when all four parts are, rejected exactly when one
      of them is. */
  lemma {:induction false} EveryRunDerives(d: Desk, steps: seq<Step>)
    requires AtRest(d)
    ensures var m := Run(d, steps);
      && AtRest(m) && m.saved.overall != UnderReview
      && (m.saved.overall == Overall.Verified <==>
            forall k :: Part(k) ==> StatusOf(m.saved, k) == Status.Verified)
      && (m.saved.overall == Overall.Rejected <==>
            exists k :: Part(k) && StatusOf(m.saved, k) == Status.Rejected)
    decreases |steps|
  {
    hide Take;
    if steps == [] {
      assert d.saved.biodata == StatusOf(d.saved, Biodata) && d.saved.nin == StatusOf(d.saved, Nin);
      assert d.saved.callup == StatusOf(d.saved, Callup) && d.saved.stateCode == StatusOf(d.saved, StateCode);
      assert DocumentsVerified(d.saved) <==> forall k :: Part(k) ==> StatusOf(d.saved, k) == Status.Verified by {
        if forall k :: Part(k) ==> StatusOf(d.saved, k) == Status.Verified {
          assert StatusOf(d.saved, Biodata) == StatusOf(d.saved, Nin) == Status.Verified;
          assert StatusOf(d.saved, Callup) == StatusOf(d.saved, StateCode) == Status.Verified;
        }
      }
    } else {
      StepRests(d, steps[0]);
      EveryRunDerives(Take(d, steps[0]), steps[1..]);
    }
  }

  // ---- A run that loses the agreement ----

  const NOTHING: Profile := Profile(Overall.Pending, Unsubmitted, Unsubmitted, Unsubmitted, Unsubmitted)

  /** A new corper: nothing submitted, nothing logged. */
  const NEW_DESK: Desk := Desk(NOTHING, NOTHING, [])

  lemma NewDeskSettled()
    ensures Settled(NEW_DESK)
  {
  }

  const CALLUP_PENDING: Profile := NOTHING.(callup := Status.Pending)

  function CallupsPending(n: nat): Desk {
    Desk(CALLUP_PENDING, CALLUP_PENDING, seq(n, _ => Attempt(Callup, AttemptStatus.Pending)))
  }

  lemma SubmitCallup(d: Desk, n: nat)
    requires d == (if n == 0 then NEW_DESK else CallupsPending(n))
    ensures Submit(d, Callup, false, Matches) == CallupsPending(n + 1)
  {
    hide SaveAttempt, SaveProfile;
    var a := Attempt(Callup, AttemptStatus.Pending);
    assert d.attempts + [a] == CallupsPending(n + 1).attempts;
    var d1 := Create(d, Callup, AttemptStatus.Pending);
    assert d1 == CallupsPending(n + 1);
    IdleSave(d1, {Callup});
    assert SaveRow(d1, {Callup}) == d1;
    SaveSame(d1, n);
  }

  /** Saving an attempt again, its status already the profile's, changes nothing. */
  lemma SaveSame(d: Desk, i: nat)
    requires i < |d.attempts| && d.attempts[i] == Attempt(Callup, AttemptStatus.Pending)
    requires d.profile == d.saved == CALLUP_PENDING
    ensures SaveAttempt(d, i, AttemptStatus.Pending) == d
  {
  }

  lemma ApproveOlder()
    ensures var m := Review(CallupsPending(2), 0, true);
      && !Settled(m) && m.saved.callup == Status.Verified
      && Latest(m.attempts, Callup) == Some(1)
      && m.attempts == [Attempt(Callup, Approved), Attempt(Callup, AttemptStatus.Pending)]
  {
    hide SaveProfile;
    var d := CallupsPending(2);
    ReviewIsSave(d, 0, true);
    var m := SaveAttempt(d, 0, Approved);
    assert m.attempts == [Attempt(Callup, Approved), Attempt(Callup, AttemptStatus.Pending)];
    assert Latest(m.attempts, Callup) == Some(1);
    assert !Agrees(m, Callup);
  }

  /** "A review leaves log and profile in agreement" is false: of two pending call-up submissions the older
      is approved; the profile turns verified while the newest attempt is still pending. */
  lemma ReviewOfAnOlderAttempt()
    ensures var run := [Submission(Callup, false, Matches), Submission(Callup, false, Matches), Decision(0, true)];
      var m := Run(NEW_DESK, run);
      && !Settled(m) && m.saved.callup == Status.Verified
      && Latest(m.attempts, Callup) == Some(1) && m.attempts[1].status == AttemptStatus.Pending
  {
    hide Submit, Review, Settled;
    var submit, decide := Submission(Callup, false, Matches), Decision(0, true);
    SubmitCallup(NEW_DESK, 0);
    SubmitCallup(CallupsPending(1), 1);
    RunThree(NEW_DESK, submit, submit, decide);
    ApproveOlder();
  }

  lemma RunThree(d: Desk, a: Step, b: Step, c: Step)
    ensures Run(d, [a, b, c]) == Take(Take(Take(d, a), b), c)
  {
    hide Take;
    var d1 := Take(d, a);
    var d2 := Take(d1, b);
    assert [a, b, c][1..] == [b, c];
    assert [b, c][1..] == [c];
    assert Run(d2, [c]) == Take(d2, c);
    assert Run(d1, [b, c]) == Run(d2, [c]);
  }
}
