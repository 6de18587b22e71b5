/** What each company request stores, and what the registry's answer does to the two statuses. */
module CompanyEffects {
  import opened Wrappers
  import opened CompanyApproval

  /** Every field with a name of its own is required. */
  lemma RequiredFields(f: Field)
    ensures f in REQUIRED <==> !f.Other?
  {
    match f
    case Other(_) =>
    case _ =>
  }

  /** A field that is not there reads as empty. */
  lemma AbsentIsEmpty(values: map<Field, string>, f: Field)
    ensures f !in values ==> Value(values, f) == "" && !Written(Value(values, f))
  {
  }

  /** A value is written when it has a character that is no white space. */
  lemma WrittenExactly(v: string)
    ensures Written(v) <==> exists i :: 0 <= i < |v| && v[i] !in {' ', '\t', '\n', '\U{000B}', '\U{000C}', '\r'}
  {
    assert forall c: char :: Blank(c) <==> c in {' ', '\t', '\n', '\U{000B}', '\U{000C}', '\r'};
  }

  /** The edited fields that this handler takes have their new values, all others their old ones. */
  ghost predicate IsEdited(c: Company, m: Company, e: Edit, allowed: set<Field>) {
    && (forall f: Field :: Value(m.values, f) ==
          if f in e.values && (f in allowed || f.Other?) then e.values[f] else Value(c.values, f))
    && m.date == (if e.newDate.Some? then e.newDate.value else c.date)
  }

  lemma ApplyEdits(c: Company, e: Edit, allowed: set<Field>)
    ensures IsEdited(c, Apply(c, e, allowed), e, allowed)
    ensures var m := Apply(c, e, allowed); m == c.(values := m.values, date := m.date)
  {
  }

  /** The name, the registration number or the date differs. */
  predicate NewIdentity(c: Company, m: Company) {
    Value(m.values, Name) != Value(c.values, Name)
    || Value(m.values, RegistrationNumber) != Value(c.values, RegistrationNumber) || m.date != c.date
  }

  predicate IdentityFilled(m: Company) {
    && Written(Value(m.values, Name)) && Written(Value(m.values, RegistrationNumber))
    && Written(Value(m.values, TaxNumber))
  }

  lemma IdentityFilledExactly(m: Company)
    ensures IdentityFilled(m) <==> VerificationComplete(m)
  {
    hide Written;
    if IdentityFilled(m) {
      forall f | f in {Name, RegistrationNumber, TaxNumber} ensures Written(Value(m.values, f)) { }
    }
  }

  /** Every required field written, terms accepted, verified. */
  predicate IsReady(m: Company) {
    (forall f :: f in REQUIRED ==> Written(Value(m.values, f))) && m.terms && m.verification == Verification.Verified
  }

  /** What the registry's answer leaves: a confirmation verifies this identity and approves a ready company; a
      refusal rejects the verification and withdraws the approval; an outage leaves both. */
  ghost predicate Answered(before: Company, m: Company, registry: Registry) {
    match registry
    case Confirms =>
      && m.verification == Verification.Verified
      && m.confirmed == Some(Identity(Value(m.values, Name), Value(m.values, RegistrationNumber), m.date))
      && m.approval == (if IsReady(m) then Approved else Approval.Unsubmitted)
    case Refuses =>
      && m.verification == Verification.Rejected && m.approval == Approval.Unsubmitted
      && m.confirmed == before.confirmed
    case Unreachable =>
      && m.verification == before.verification && m.approval == before.approval
      && m.confirmed == before.confirmed
  }

  /** Both statuses withdrawn. */
  predicate Withdrawn(before: Company, m: Company) {
    m.verification == Verification.Unsubmitted && m.approval == Approval.Unsubmitted && m.confirmed == before.confirmed
  }

  /** Only the approval follows: approved exactly when ready. */
  predicate OnlySynced(before: Company, m: Company) {
    && m.verification == before.verification && m.confirmed == before.confirmed
    && m.approval == (if IsReady(m) then Approved else Approval.Unsubmitted)
  }

  /** After a new identity: the registry is asked if terms and identity allow, else all is withdrawn. */
  ghost predicate IdentityFollowed(before: Company, m: Company, registry: Registry) {
    if before.terms && IdentityFilled(m) then Answered(before, m, registry) else Withdrawn(before, m)
  }

  lemma ReverifyFollows(c: Company, registry: Registry)
    ensures var (v, goesOn) := Reverify(c, registry);
      var m := if goesOn then Sync(v) else v;
      IdentityFollowed(c, m, registry) && m.values == c.values && m.date == c.date && m.terms == c.terms
  {
    hide Written;
    IdentityFilledExactly(c);
  }

  /** A name or number in the request that is blank. */
  ghost predicate BlankIdentity(e: Edit) {
    exists f :: f in e.values && f in {Name, RegistrationNumber, TaxNumber} && !Written(e.values[f])
  }

  lemma BlankIdentityExactly(e: Edit)
    ensures BlankIdentity(e) <==> !IdentityWritten(e)
  {
    hide Written;
  }

  /** The verification page stores four fields and the date, and asks about a new identity. */
  lemma UpdateVerificationDoes(c: Company, e: Edit, valid: bool, registry: Registry)
    ensures var m := UpdateVerification(c, e, valid, registry);
      if !valid || BlankIdentity(e) then m == c
      else
        && IsEdited(c, m, e, {Name, RegistrationNumber, TaxNumber, LocationState}) && m.terms == c.terms
        && if NewIdentity(c, m) then IdentityFollowed(c, m, registry) else OnlySynced(c, m)
  {
    hide Written, AllWritten, Reverify, IsEdited, IdentityFollowed, Value, BlankIdentity, IdentityWritten;
    BlankIdentityExactly(e);
    ApplyEdits(c, e, VERIFICATION_EDITS);
    var m := Apply(c, e, VERIFICATION_EDITS);
    ReverifyFollows(m, registry);
    SameFollowed(c, m, UpdateVerification(c, e, valid, registry), registry);
    SyncOnly(m);
    var (v, goesOn) := Reverify(m, registry);
    SameEdited(c, m, if goesOn then Sync(v) else v, e, VERIFICATION_EDITS);
    SameEdited(c, m, Sync(m), e, VERIFICATION_EDITS);
  }

  lemma SameEdited(c: Company, m: Company, n: Company, e: Edit, allowed: set<Field>)
    requires m.values == n.values && m.date == n.date
    ensures IsEdited(c, m, e, allowed) <==> IsEdited(c, n, e, allowed)
    ensures NewIdentity(c, m) <==> NewIdentity(c, n)
  {
  }

  lemma SameFollowed(c: Company, m: Company, n: Company, registry: Registry)
    requires m == c.(values := m.values, date := m.date)
    ensures IdentityFollowed(m, n, registry) <==> IdentityFollowed(c, n, registry)
  {
    hide Written, Value;
  }

  lemma SyncOnly(c: Company)
    ensures OnlySynced(c, Sync(c))
  {
    hide Written;
    assert IsReady(Sync(c)) <==> Ready(c);
  }

  /** An approved company, outside edit mode, may change its preferences and picture only. */
  ghost predicate Locked(c: Company, e: Edit, editMode: bool) {
    c.approval == Approved && !editMode
    && (e.newDate.Some?
        || exists f :: f in e.values && f !in {Description, Qualification, AgeRange, FieldOfStudy, University,
                                               PostingStates, Skills, Experience, Image})
  }

  lemma LockedExactly(c: Company, e: Edit, editMode: bool)
    ensures Locked(c, e, editMode) <==> Forbidden(c, e, editMode)
  {
  }

  ghost predicate Incomplete(m: Company) { exists f :: f in REQUIRED && !Written(Value(m.values, f)) }

  lemma IncompleteExactly(m: Company)
    ensures Incomplete(m) <==> !AllWritten(m.values, REQUIRED)
    ensures !Incomplete(m) ==> VerificationComplete(m)
  {
    hide Written, Value;
    if AllWritten(m.values, REQUIRED) { PartWritten(m.values, REQUIRED, {Name, RegistrationNumber, TaxNumber}); }
  }

  lemma AfterProfileSaveDoes(c: Company, m: Company, registry: Registry)
    requires m == c.(values := m.values, date := m.date) && VerificationComplete(m)
    ensures var n := AfterProfileSave(m, IdentityOf(c), registry);
      && n.values == m.values && n.date == m.date && n.terms == c.terms
      && if NewIdentity(c, m) then IdentityFollowed(c, n, registry)
         else if c.approval == Approved then n == m
         else OnlySynced(c, n)
  {
    hide Written, AllWritten, Reverify, IdentityFollowed, Value;
    ReverifyFollows(m, registry);
    SameFollowed(c, m, AfterProfileSave(m, IdentityOf(c), registry), registry);
    SyncOnly(m);
  }

  /** The profile page refuses a locked or incomplete profile. What it takes is stored; an approved company of
      the same identity is left at that, any other is synced, and a new identity is asked about. */
  lemma UpdateProfileDoes(c: Company, e: Edit, editMode: bool, valid: bool, registry: Registry)
    ensures var m := UpdateProfile(c, e, editMode, valid, registry);
      var stored := Apply(c, e, REQUIRED);
      if Locked(c, e, editMode) || !valid || BlankIdentity(e) || Incomplete(stored) then m == c
      else
        && IsEdited(c, m, e, REQUIRED) && m.terms == c.terms
        && if NewIdentity(c, m) then IdentityFollowed(c, m, registry)
           else if c.approval == Approved then m == stored
           else OnlySynced(c, m)
  {
    hide AllWritten, AfterProfileSave, IsEdited, IdentityFollowed, NewIdentity, OnlySynced, Apply;
    hide BlankIdentity, IdentityWritten, Locked, Forbidden, Incomplete, VerificationComplete;
    var m := Apply(c, e, REQUIRED);
    LockedExactly(c, e, editMode);
    BlankIdentityExactly(e);
    IncompleteExactly(m);
    ApplyEdits(c, e, REQUIRED);
    if VerificationComplete(m) {
      AfterProfileSaveDoes(c, m, registry);
      SameEdited(c, m, AfterProfileSave(m, IdentityOf(c), registry), e, REQUIRED);
    }
  }

  /** A submission needs a written identity, and terms and documents accepted. Confirmed, it accepts the terms
      and verifies; refused, it rejects and accepts nothing; in an outage nothing changes. */
  lemma SubmitDoes(c: Company, accepted: bool, registry: Registry)
    ensures var m := Submit(c, accepted, registry);
      if !accepted || !IdentityFilled(c) then m == c
      else
        && m.values == c.values && m.date == c.date
        && m.terms == (c.terms || registry == Confirms)
        && Answered(c, m, registry)
  {
    hide Written;
    IdentityFilledExactly(c);
    if registry == Confirms { SyncOnly(Verify(c, registry).0.(terms := true)); }
  }

  /** What the user is shown: the stored status if there is one; else approved if ready, rejected if the
      verification was, and otherwise nothing submitted. */
  lemma ShownDoes(c: Company)
    ensures var shown := ShownApproval(c);
      && (c.approval != Approval.Unsubmitted ==> shown == c.approval)
      && (c.approval == Approval.Unsubmitted && IsReady(c) ==> shown == Approved)
      && (c.approval == Approval.Unsubmitted && c.verification == Verification.Rejected ==> shown == Approval.Rejected)
      && (c.approval == Approval.Unsubmitted && !IsReady(c) && c.verification != Verification.Rejected ==>
            shown == Approval.Unsubmitted)
  {
    hide Written;
    assert IsReady(c) <==> Ready(c);
  }
}
