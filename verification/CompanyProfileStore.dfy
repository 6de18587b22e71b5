/** A company's row as the handlers update it, step by step, against the specification. */
module CompanyProfileStore {
  import opened Wrappers
  import opened CompanyApproval

  class CompanyProfile {
    var values: map<Field, string>
    var registrationDate: Option<int>
    var termsAccepted: bool
    var verificationStatus: Verification
    var approvalStatus: Approval
    ghost var confirmed: Option<Identity>

    constructor ()
      ensures State() == Company(map[], None, false, Verification.Unsubmitted, Approval.Unsubmitted, None)
    {
      values, registrationDate, termsAccepted := map[], None, false;
      verificationStatus, approvalStatus, confirmed := Verification.Unsubmitted, Approval.Unsubmitted, None;
    }

    ghost function State(): Company
      reads this
    {
      Company(values, registrationDate, termsAccepted, verificationStatus, approvalStatus, confirmed)
    }

    function ValueOf(f: Field): string
      reads this
    {
      Value(values, f)
    }

    method SetUnsubmitted()
      modifies this`verificationStatus, this`approvalStatus
      ensures State() == Unsubmit(old(State()))
    {
      if verificationStatus != Verification.Unsubmitted { verificationStatus := Verification.Unsubmitted; }
      if approvalStatus != Approval.Unsubmitted { approvalStatus := Approval.Unsubmitted; }
    }

    method VerifyOrReject(registry: Registry) returns (goesOn: bool)
      modifies this`verificationStatus, this`approvalStatus, this`confirmed
      ensures (State(), goesOn) == Verify(old(State()), registry)
    {
      match registry {
        case Unreachable => return false;
        case Refuses =>
          if verificationStatus != Verification.Rejected { verificationStatus := Verification.Rejected; }
          if approvalStatus != Approval.Unsubmitted { approvalStatus := Approval.Unsubmitted; }
          return false;
        case Confirms =>
          confirmed := Some(IdentityOf(State()));
          if verificationStatus != Verification.Verified { verificationStatus := Verification.Verified; }
          return true;
      }
    }

    method AfterIdentityChange(registry: Registry) returns (goesOn: bool)
      modifies this`verificationStatus, this`approvalStatus, this`confirmed
      ensures (State(), goesOn) == Reverify(old(State()), registry)
    {
      if termsAccepted && AllWritten(values, {Name, RegistrationNumber, TaxNumber}) {
        goesOn := VerifyOrReject(registry);
      } else {
        SetUnsubmitted();
        goesOn := true;
      }
    }

    predicate IsReady()
      reads this
      ensures IsReady() <==> Ready(State())
    {
      AllWritten(values, REQUIRED) && termsAccepted && verificationStatus == Verification.Verified
    }

    method SyncApproval()
      modifies this`approvalStatus
      ensures State() == Sync(old(State()))
    {
      if IsReady() && approvalStatus != Approved {
        approvalStatus := Approved;
      } else if !IsReady() && approvalStatus != Approval.Unsubmitted {
        approvalStatus := Approval.Unsubmitted;
      }
    }

    method Store(e: Edit, allowed: set<Field>)
      modifies this`values, this`registrationDate
      ensures State() == Apply(old(State()), e, allowed)
    {
      values := values + (map f | f in e.values && (f in allowed || f.Other?) :: e.values[f]);
      if e.newDate.Some? { registrationDate := e.newDate.value; }
    }

    method HandleVerificationUpdate(e: Edit, valid: bool, registry: Registry)
      modifies this
      ensures State() == UpdateVerification(old(State()), e, valid, registry)
    {
      hide AllWritten, Ready, IdentityWritten, Verify, Reverify, Unsubmit, Sync;
      if !valid || !IdentityWritten(e) { return; }
      var name, number, date := ValueOf(Name), ValueOf(RegistrationNumber), registrationDate;
      Store(e, VERIFICATION_EDITS);
      var changed := name != ValueOf(Name) || number != ValueOf(RegistrationNumber) || date != registrationDate;
      if changed {
        var goesOn := AfterIdentityChange(registry);
        if !goesOn { return; }
      }
      SyncApproval();
    }

    method HandleProfileUpdate(e: Edit, editMode: bool, valid: bool, registry: Registry)
      modifies this
      ensures State() == UpdateProfile(old(State()), e, editMode, valid, registry)
    {
      hide AllWritten, AfterProfileSave, IdentityWritten;
      if approvalStatus == Approved && !editMode && (e.newDate.Some? || !(e.values.Keys <= EDITABLE_WHEN_APPROVED)) {
        return;
      }
      if !valid || !IdentityWritten(e) { return; }
      var merged := values + (map f | f in e.values && (f in REQUIRED || f.Other?) :: e.values[f]);
      if !AllWritten(merged, REQUIRED) { return; }
      var was := Identity(ValueOf(Name), ValueOf(RegistrationNumber), registrationDate);
      Store(e, REQUIRED);
      FollowProfileSave(was, registry);
    }

    method FollowProfileSave(was: Identity, registry: Registry)
      modifies this
      ensures State() == AfterProfileSave(old(State()), was, registry)
    {
      hide AllWritten, Ready, Verify, Reverify, Unsubmit, Sync;
      var changed :=
        ValueOf(Name) != was.name || ValueOf(RegistrationNumber) != was.number || registrationDate != was.date;
      if approvalStatus == Approved && !changed { return; }
      if changed {
        var goesOn := AfterIdentityChange(registry);
        if !goesOn { return; }
      } else if !AllWritten(values, {Name, RegistrationNumber, TaxNumber}) {
        SetUnsubmitted();
      }
      SyncApproval();
    }

    method HandleSubmission(accepted: bool, registry: Registry)
      modifies this
      ensures State() == Submit(old(State()), accepted, registry)
    {
      hide AllWritten, Ready, IdentityWritten, Verify, Reverify, Unsubmit, Sync;
      if !AllWritten(values, {Name, RegistrationNumber, TaxNumber}) || !accepted { return; }
      var goesOn := VerifyOrReject(registry);
      if !goesOn { return; }
      termsAccepted := true;
      SyncApproval();
    }
  }
}
