/**
 * Company approval: what the three handlers of a company user do to its verification and approval status,
 * given what the corporate registry says.
 *
 * Values are kept as the serializers clean them; a missing number or picture is an empty value.
 */
module CompanyApproval {
  import opened Wrappers

  datatype Field =
    | Name | RegistrationNumber | TaxNumber | Image | LocationState | DeploymentStates | City | Address | Sector
    | Capacity | Description | Qualification | AgeRange | FieldOfStudy | University | PostingStates | Skills
    | Experience | ContactName | ContactEmail | ContactPhone | Other(name: string)

  datatype Verification = Unsubmitted | Pending | Verified | Rejected

  datatype Approval = Unsubmitted | Pending | Approved | Rejected

  /** What the registry is asked to confirm. */
  datatype Identity = Identity(name: string, number: string, date: Option<int>)

  /** `confirmed` keeps book of the identity the registry last confirmed. */
  datatype Company = Company(values: map<Field, string>, date: Option<int>, terms: bool,
                             verification: Verification, approval: Approval, confirmed: Option<Identity>)

  datatype Registry = Confirms | Refuses | Unreachable

  const REQUIRED: set<Field> :=
    {Name, RegistrationNumber, TaxNumber, Image, LocationState, DeploymentStates, City, Address, Sector, Capacity,
     Description, Qualification, AgeRange, FieldOfStudy, University, PostingStates, Skills, Experience, ContactName,
     ContactEmail, ContactPhone}

  const EDITABLE_WHEN_APPROVED: set<Field> :=
    {Description, Qualification, AgeRange, FieldOfStudy, University, PostingStates, Skills, Experience, Image}

  predicate Blank(c: char) { c == ' ' || '\t' <= c <= '\r' }

  predicate Written(v: string) { exists i :: 0 <= i < |v| && !Blank(v[i]) }

  function Value(values: map<Field, string>, f: Field): string { if f in values then values[f] else "" }

  predicate AllWritten(values: map<Field, string>, fields: set<Field>) {
    forall f :: f in fields ==> Written(Value(values, f))
  }

  predicate ProfileComplete(c: Company) { AllWritten(c.values, REQUIRED) }

  predicate VerificationComplete(c: Company) { AllWritten(c.values, {Name, RegistrationNumber, TaxNumber}) }

  predicate Ready(c: Company) { ProfileComplete(c) && c.terms && c.verification == Verification.Verified }

  function IdentityOf(c: Company): Identity {
    Identity(Value(c.values, Name), Value(c.values, RegistrationNumber), c.date)
  }

  // ---- The shared steps ----

  function WithStatuses(c: Company, v: Verification, a: Approval): Company { c.(verification := v, approval := a) }

  function Unsubmit(c: Company): Company { WithStatuses(c, Verification.Unsubmitted, Approval.Unsubmitted) }

  /** The second part says whether the handler goes on: a refusal and an outage both end it. */
  function Verify(c: Company, registry: Registry): (Company, bool) {
    match registry
    case Unreachable => (c, false)
    case Refuses => (WithStatuses(c, Verification.Rejected, Approval.Unsubmitted), false)
    case Confirms => (c.(verification := Verification.Verified, confirmed := Some(IdentityOf(c))), true)
  }

  /** After a change of identity. */
  function Reverify(c: Company, registry: Registry): (Company, bool) {
    if c.terms && VerificationComplete(c) then Verify(c, registry) else (Unsubmit(c), true)
  }

  function Sync(c: Company): Company { c.(approval := if Ready(c) then Approved else Approval.Unsubmitted) }

  // ---- The handlers ----

  /** A cleaned request: new values, and possibly a new registration date. */
  datatype Edit = Edit(values: map<Field, string>, newDate: Option<Option<int>>)

  function Apply(c: Company, e: Edit, allowed: set<Field>): Company {
    c.(values := c.values + (map f | f in e.values && (f in allowed || f.Other?) :: e.values[f]),
       date := if e.newDate.Some? then e.newDate.value else c.date)
  }

  const VERIFICATION_EDITS: set<Field> := {Name, RegistrationNumber, TaxNumber, LocationState}

  predicate IdentityWritten(e: Edit) {
    forall f :: f in e.values && f in {Name, RegistrationNumber, TaxNumber} ==> Written(e.values[f])
  }

  /** `valid` stands for every other check on a request. */
  function UpdateVerification(c: Company, e: Edit, valid: bool, registry: Registry): Company {
    if !valid || !IdentityWritten(e) then c
    else
      var m := Apply(c, e, VERIFICATION_EDITS);
      if IdentityOf(m) == IdentityOf(c) then Sync(m)
      else
        var (v, goesOn) := Reverify(m, registry);
        if goesOn then Sync(v) else v
  }

  predicate Forbidden(c: Company, e: Edit, editMode: bool) {
    c.approval == Approved && !editMode && (e.newDate.Some? || !(e.values.Keys <= EDITABLE_WHEN_APPROVED))
  }

  /** What follows when a profile is stored: nothing for an approved company whose identity is as it was. */
  function AfterProfileSave(m: Company, was: Identity, registry: Registry): Company {
    if m.approval == Approved && IdentityOf(m) == was then m
    else if IdentityOf(m) == was then Sync(if VerificationComplete(m) then m else Unsubmit(m))
    else
      var (v, goesOn) := Reverify(m, registry);
      if goesOn then Sync(v) else v
  }

  function UpdateProfile(c: Company, e: Edit, editMode: bool, valid: bool, registry: Registry): Company {
    var m := Apply(c, e, REQUIRED);
    if Forbidden(c, e, editMode) || !valid || !IdentityWritten(e) || !AllWritten(m.values, REQUIRED) then c
    else AfterProfileSave(m, IdentityOf(c), registry)
  }

  /** `accepted`: both terms and every required document. */
  function Submit(c: Company, accepted: bool, registry: Registry): Company {
    if !VerificationComplete(c) || !accepted then c
    else
      var (v, goesOn) := Verify(c, registry);
      if goesOn then Sync(v.(terms := true)) else v
  }

  datatype Request =
    | ToVerification(edit: Edit, valid: bool)
    | ToProfile(edit: Edit, editMode: bool, valid: bool)
    | ToSubmission(accepted: bool)

  function Handle(c: Company, r: Request, registry: Registry): Company {
    match r
    case ToVerification(e, valid) => UpdateVerification(c, e, valid, registry)
    case ToProfile(e, editMode, valid) => UpdateProfile(c, e, editMode, valid, registry)
    case ToSubmission(accepted) => Submit(c, accepted, registry)
  }

  // ---- Agreement ----

  /** Approved means ready, and verified means that the registry confirmed the very identity on record. */
  predicate Agrees(c: Company) {
    && (c.approval == Approved <==> Ready(c))
    && (c.verification == Verification.Verified ==> c.confirmed == Some(IdentityOf(c)))
  }

  /** An edit that stores a new identity and then asks the registry about it. */
  predicate AsksAboutNew(c: Company, r: Request) {
    match r
    case ToVerification(e, valid) =>
      var m := Apply(c, e, VERIFICATION_EDITS);
      && valid && IdentityWritten(e) && IdentityOf(m) != IdentityOf(c) && m.terms && VerificationComplete(m)
    case ToProfile(e, editMode, valid) =>
      var m := Apply(c, e, REQUIRED);
      && !Forbidden(c, e, editMode) && valid && IdentityWritten(e) && AllWritten(m.values, REQUIRED)
      && IdentityOf(m) != IdentityOf(c) && m.terms && VerificationComplete(m)
    case ToSubmission(accepted) => false
  }

  predicate Interrupted(c: Company, r: Request, registry: Registry) {
    registry == Unreachable && AsksAboutNew(c, r) && c.verification == Verification.Verified
  }

  lemma SyncAgrees(c: Company)
    requires c.verification == Verification.Verified ==> c.confirmed == Some(IdentityOf(c))
    ensures Agrees(Sync(c))
  {
    assert Ready(Sync(c)) == Ready(c);
  }

  lemma VerifyAgrees(c: Company, registry: Registry)
    requires registry != Unreachable
    ensures var (v, goesOn) := Verify(c, registry);
      if goesOn then Agrees(Sync(v)) else Agrees(v)
  {
    hide AllWritten;
    if registry == Confirms { SyncAgrees(Verify(c, registry).0); }
  }

  /** A handler keeps the agreement unless the registry is out of reach just when a verified company has
      stored a new identity; then, and only then, it is lost. */
  lemma HandleAgreesExactly(c: Company, r: Request, registry: Registry)
    requires Agrees(c)
    ensures Agrees(Handle(c, r, registry)) <==> !Interrupted(c, r, registry)
  {
    hide UpdateVerification, UpdateProfile, Submit, Agrees, AllWritten;
    match r
    case ToVerification(e, valid) => UpdateVerificationAgrees(c, e, valid, registry);
    case ToProfile(e, editMode, valid) => UpdateProfileAgrees(c, e, editMode, valid, registry);
    case ToSubmission(accepted) => SubmitAgrees(c, accepted, registry);
  }

  lemma SubmitAgrees(c: Company, accepted: bool, registry: Registry)
    requires Agrees(c)
    ensures Agrees(Submit(c, accepted, registry))
  {
    hide AllWritten;
    if registry == Confirms { SyncAgrees(Verify(c, registry).0.(terms := true)); }
  }

  lemma UpdateVerificationAgrees(c: Company, e: Edit, valid: bool, registry: Registry)
    requires Agrees(c)
    ensures Agrees(UpdateVerification(c, e, valid, registry)) <==> !Interrupted(c, ToVerification(e, valid), registry)
  {
    hide AllWritten;
    if valid && IdentityWritten(e) {
      var m := Apply(c, e, VERIFICATION_EDITS);
      if IdentityOf(m) == IdentityOf(c) {
        SyncAgrees(m);
      } else if m.terms && VerificationComplete(m) {
        if registry != Unreachable { VerifyAgrees(m, registry); }
      } else {
        SyncAgrees(Unsubmit(m));
      }
    }
  }

  lemma UpdateProfileAgrees(c: Company, e: Edit, editMode: bool, valid: bool, registry: Registry)
    requires Agrees(c)
    ensures Agrees(UpdateProfile(c, e, editMode, valid, registry)) <==>
              !Interrupted(c, ToProfile(e, editMode, valid), registry)
  {
    hide AllWritten;
    var m := Apply(c, e, REQUIRED);
    if !Forbidden(c, e, editMode) && valid && IdentityWritten(e) && AllWritten(m.values, REQUIRED) {
      if IdentityOf(m) == IdentityOf(c) {
        SyncAgrees(if VerificationComplete(m) then m else Unsubmit(m));
      } else if m.terms && VerificationComplete(m) {
        if registry != Unreachable { VerifyAgrees(m, registry); }
      } else {
        SyncAgrees(Unsubmit(m));
      }
    }
  }

  // ---- Runs ----

  datatype Visit = Visit(request: Request, registry: Registry)

  function Run(c: Company, visits: seq<Visit>): Company
    decreases |visits|
  {
    if visits == [] then c else Run(Handle(c, visits[0].request, visits[0].registry), visits[1..])
  }

  predicate NeverInterrupted(c: Company, visits: seq<Visit>)
    decreases |visits|
  {
    visits == []
    || (!Interrupted(c, visits[0].request, visits[0].registry)
        && NeverInterrupted(Handle(c, visits[0].request, visits[0].registry), visits[1..]))
  }

  lemma {:induction false} EveryRunAgrees(c: Company, visits: seq<Visit>)
    requires Agrees(c) && NeverInterrupted(c, visits)
    ensures Agrees(Run(c, visits))
    decreases |visits|
  {
    hide Agrees, Handle, Interrupted;
    if visits != [] {
      HandleAgreesExactly(c, visits[0].request, visits[0].registry);
      EveryRunAgrees(Handle(c, visits[0].request, visits[0].registry), visits[1..]);
    }
  }

  /** When the registry always answers, a company is approved exactly when its profile is complete, its
      terms accepted, and its very name, number and date confirmed. */
  lemma ApprovedMeansConfirmed(c: Company, visits: seq<Visit>)
    requires Agrees(c) && forall i :: 0 <= i < |visits| ==> visits[i].registry != Unreachable
    ensures var m := Run(c, visits);
      && (m.approval == Approved <==> ProfileComplete(m) && m.terms && m.verification == Verification.Verified)
      && (m.approval == Approved ==> m.confirmed == Some(IdentityOf(m)))
  {
    hide AllWritten, Run;
    AnsweredIsNotInterrupted(c, visits);
    EveryRunAgrees(c, visits);
  }

  lemma {:induction false} AnsweredIsNotInterrupted(c: Company, visits: seq<Visit>)
    requires forall i :: 0 <= i < |visits| ==> visits[i].registry != Unreachable
    ensures NeverInterrupted(c, visits)
    decreases |visits|
  {
    hide Handle, AsksAboutNew;
    if visits != [] { AnsweredIsNotInterrupted(Handle(c, visits[0].request, visits[0].registry), visits[1..]); }
  }

  // ---- What the user sees ----

  function ShownApproval(c: Company): Approval {
    if c.approval != Approval.Unsubmitted then c.approval
    else if Ready(c) then Approved
    else if c.verification == Verification.Rejected then Approval.Rejected
    else c.approval
  }

  /** In agreement, the shown status is approved exactly when the stored one is. */
  lemma ShownAsStored(c: Company)
    requires Agrees(c)
    ensures ShownApproval(c) == Approved <==> c.approval == Approved
  {
  }

  // ---- Runs that lose the agreement ----

  /** A company on which no status was ever set, whatever values its sign-up gave it. */
  lemma NewCompanyAgrees(c: Company)
    requires c.verification == Verification.Unsubmitted && c.approval == Approval.Unsubmitted
    ensures Agrees(c)
  {
  }

  function Rename(name: string): Edit { Edit(map[Name := name], None) }

  /** What an outage leaves: approved and verified as before, under an identity never confirmed. */
  predicate ApprovedUnconfirmed(m: Company) {
    && m.approval == Approved && m.verification == Verification.Verified
    && m.confirmed != Some(IdentityOf(m)) && !Agrees(m)
  }

  lemma ApplyRename(c: Company, name: string, allowed: set<Field>)
    requires Name in allowed
    ensures Apply(c, Rename(name), allowed) == c.(values := c.values[Name := name])
  {
    var e := Rename(name);
    assert (map f | f in e.values && (f in allowed || f.Other?) :: e.values[f]) == map[Name := name];
    assert c.values + map[Name := name] == c.values[Name := name];
  }

  lemma RenameStaysWritten(values: map<Field, string>, name: string, fields: set<Field>, part: set<Field>)
    requires AllWritten(values, fields) && Written(name) && part <= fields
    ensures AllWritten(values[Name := name], fields) && AllWritten(values[Name := name], part)
  {
    hide Written;
  }

  lemma RenamedIdentity(c: Company, name: string)
    ensures IdentityOf(c.(values := c.values[Name := name])) == IdentityOf(c).(name := name)
  {
  }

  /** "Approved means confirmed" is false when the registry is out of reach: any approved company that stores
      any other name meanwhile, through either handler, stays approved under it. */
  lemma RenameDuringAnOutage(c: Company, name: string)
    requires Agrees(c) && c.approval == Approved && Written(name) && name != Value(c.values, Name)
    ensures ApprovedUnconfirmed(UpdateProfile(c, Rename(name), true, true, Unreachable))
    ensures ApprovedUnconfirmed(UpdateVerification(c, Rename(name), true, Unreachable))
  {
    hide AllWritten, Apply, Written, Value;
    ApplyRename(c, name, REQUIRED);
    ApplyRename(c, name, VERIFICATION_EDITS);
    RenameStaysWritten(c.values, name, REQUIRED, {Name, RegistrationNumber, TaxNumber});
    RenamedIdentity(c, name);
    assert IdentityOf(c).name == Value(c.values, Name);
  }

  /** A first complete profile, terms not accepted yet, is stored and nothing else. */
  lemma FillProfile(c: Company, e: Edit, registry: Registry)
    requires c.verification == Verification.Unsubmitted && c.approval == Approval.Unsubmitted && !c.terms
    requires IdentityWritten(e) && AllWritten(Apply(c, e, REQUIRED).values, REQUIRED)
    ensures UpdateProfile(c, e, false, true, registry) == Apply(c, e, REQUIRED)
    ensures var m := Apply(c, e, REQUIRED); m == c.(values := m.values, date := m.date)
  {
    hide AllWritten, IdentityWritten;
  }

  lemma SubmitComplete(c: Company)
    requires AllWritten(c.values, REQUIRED)
    ensures Submit(c, true, Confirms) ==
              c.(terms := true, verification := Verification.Verified, approval := Approved,
                 confirmed := Some(IdentityOf(c)))
  {
    hide AllWritten;
    PartWritten(c.values, REQUIRED, {Name, RegistrationNumber, TaxNumber});
  }

  lemma PartWritten(values: map<Field, string>, fields: set<Field>, part: set<Field>)
    requires AllWritten(values, fields) && part <= fields
    ensures AllWritten(values, part)
  {
  }

  function OutageRun(e: Edit, name: string): seq<Visit> {
    [Visit(ToProfile(e, false, true), Confirms), Visit(ToSubmission(true), Confirms),
     Visit(ToProfile(Rename(name), true, true), Unreachable)]
  }

  /** So from every new company a run leads there: a complete profile, a confirmed submission, and any other
      name stored during an outage. */
  lemma OutageRunUnconfirms(c: Company, e: Edit, name: string)
    requires c.verification == Verification.Unsubmitted && c.approval == Approval.Unsubmitted && !c.terms
    requires IdentityWritten(e) && AllWritten(Apply(c, e, REQUIRED).values, REQUIRED)
    requires Written(name) && name != Value(Apply(c, e, REQUIRED).values, Name)
    ensures ApprovedUnconfirmed(Run(c, OutageRun(e, name)))
  {
    hide UpdateProfile, Submit, AllWritten, Written, IdentityWritten, Apply, ApprovedUnconfirmed;
    var filled := Apply(c, e, REQUIRED);
    FillProfile(c, e, Confirms);
    SubmitComplete(filled);
    var approved := Submit(filled, true, Confirms);
    RenameDuringAnOutage(approved, name);
    var run := OutageRun(e, name);
    RunThree(c, run[0], run[1], run[2]);
  }

  // ---- One such run ----

  const NEW_COMPANY: Company :=
    Company(map[Name := "Ada Foods Limited", RegistrationNumber := "RC1234567"], None, false,
            Verification.Unsubmitted, Approval.Unsubmitted, None)

  function Sample(f: Field): string {
    match f
    case Name => "Ada Foods Limited"
    case RegistrationNumber => "RC1234567"
    case TaxNumber => "1234567890"
    case Capacity => "5"
    case AgeRange => "20-30"
    case ContactEmail => "office@adafoods.ng"
    case ContactPhone => "+2348031234567"
    case Image => "companies/profile-images/ada.webp"
    case _ => "Lagos"
  }

  const SAMPLE: Edit := Edit(map f | f in REQUIRED :: Sample(f), None)

  lemma SampleWritten(f: Field)
    ensures Written(Sample(f))
  {
    assert !Blank(Sample(f)[0]);
  }

  lemma SampleStored(c: Company, values: map<Field, string>, fields: set<Field>)
    requires values == map f | f in fields :: Sample(f)
    ensures var m := Apply(c, Edit(values, None), fields);
      AllWritten(m.values, fields) && forall f :: f in fields ==> Value(m.values, f) == Sample(f)
    ensures IdentityWritten(Edit(values, None))
  {
    hide Sample, Written;
    forall f | f in fields ensures Written(Sample(f)) { SampleWritten(f); }
  }

  lemma SampleRun()
    ensures ApprovedUnconfirmed(Run(NEW_COMPANY, OutageRun(SAMPLE, "Bee Foods Limited")))
  {
    hide ApprovedUnconfirmed, Run, AllWritten, Apply, Written, IdentityWritten, Value;
    SampleStored(NEW_COMPANY, SAMPLE.values, REQUIRED);
    assert Written("Bee Foods Limited") by { BeeWritten(); }
    assert "Ada Foods Limited"[0] != "Bee Foods Limited"[0];
    OutageRunUnconfirms(NEW_COMPANY, SAMPLE, "Bee Foods Limited");
  }

  lemma BeeWritten()
    ensures Written("Bee Foods Limited")
  {
    assert !Blank("Bee Foods Limited"[0]);
  }

  lemma RunThree(c: Company, x: Visit, y: Visit, z: Visit)
    ensures Run(c, [x, y, z]) ==
              Handle(Handle(Handle(c, x.request, x.registry), y.request, y.registry), z.request, z.registry)
  {
    hide Handle;
    var c1 := Handle(c, x.request, x.registry);
    var c2 := Handle(c1, y.request, y.registry);
    assert [x, y, z][1..] == [y, z];
    assert [y, z][1..] == [z];
    assert Run(c2, [z]) == Handle(c2, z.request, z.registry);
    assert Run(c1, [y, z]) == Run(c2, [z]);
  }
}
