/**
 * The two saves as the models write them: a profile's save calls the attempts' saves, an attempt's save
 * calls the profile's, and a flag stops the recursion. Each is proved against its specification.
 */
module VerificationDesk {
  import opened Wrappers
  import opened Verification

  class CorperDesk {
    var overall: Overall
    var biodata: Status
    var nin: Status
    var callup: Status
    var stateCode: Status
    /** The profile row as stored. */
    var row: Profile
    var attempts: seq<Attempt>

    function InMemory(): Profile
      reads this
    {
      Profile(overall, biodata, nin, callup, stateCode)
    }

    function State(): Desk
      reads this
    {
      Desk(InMemory(), row, attempts)
    }

    /** A new profile: nothing submitted, nothing logged. */
    constructor ()
      ensures State() == Desk(Profile(Overall.Pending, Unsubmitted, Unsubmitted, Unsubmitted, Unsubmitted),
                              Profile(Overall.Pending, Unsubmitted, Unsubmitted, Unsubmitted, Unsubmitted), [])
    {
      overall, biodata, nin, callup, stateCode := Overall.Pending, Unsubmitted, Unsubmitted, Unsubmitted, Unsubmitted;
      row := Profile(Overall.Pending, Unsubmitted, Unsubmitted, Unsubmitted, Unsubmitted);
      attempts := [];
    }

    // ---- The two saves ----

    method Save(fields: set<Kind>, skipAttemptSync: bool)
      modifies this
      ensures State() == if skipAttemptSync then SaveRow(old(State()), fields) else SaveProfile(old(State()), fields)
      decreases if skipAttemptSync then 0 else 4
    {
      hide Push;
      var previous := row;
      overall := Derived(InMemory());
      row := row.(overall := overall);
      if Biodata in fields { row := row.(biodata := biodata); }
      if Nin in fields { row := row.(nin := nin); }
      if Callup in fields { row := row.(callup := callup); }
      if StateCode in fields { row := row.(stateCode := stateCode); }
      assert State() == SaveRow(old(State()), fields);
      if !skipAttemptSync {
        SyncVerificationAttempts(previous);
      }
    }

    method SyncVerificationAttempts(previous: Profile)
      modifies this
      ensures State() == Push(old(State()), previous, |ORDER|)
      decreases 3
    {
      for n := 0 to |ORDER|
        invariant State() == Push(old(State()), previous, n)
      {
        var k := ORDER[n];
        var next := NextStatus(InMemory(), k);
        if !Unchanged(previous, InMemory(), k) && next.Some? {
          var latest := LatestNotFailed(k, {Failed});
          if latest.Some? && attempts[latest.value].status != next.value {
            SaveWithStatus(latest.value, next.value);
          }
        }
      }
    }

    /** Walks the log from its newest attempt. */
    method LatestNotFailed(k: Kind, excluded: set<AttemptStatus>) returns (r: Option<nat>)
      ensures r == Newest(attempts, |attempts|, k, excluded)
      decreases 0
    {
      var n: nat := |attempts|;
      while n > 0
        invariant n <= |attempts|
        invariant Newest(attempts, |attempts|, k, excluded) == Newest(attempts, n, k, excluded)
      {
        n := n - 1;
        if attempts[n].kind == k && attempts[n].status !in excluded { return Some(n); }
      }
      return None;
    }

    method SaveWithStatus(i: nat, s: AttemptStatus)
      requires i < |attempts|
      modifies this
      ensures State() == SaveAttempt(old(State()), i, s)
      decreases 2
    {
      attempts := attempts[i := attempts[i].(status := s)];
      SyncCorperStatus(i);
    }

    method SyncCorperStatus(i: nat)
      requires i < |attempts|
      modifies this
      ensures State() == SyncCorper(old(State()), i)
      decreases 1
    {
      var a := attempts[i];
      if a.status == Failed { return; }
      var fields: set<Kind> := {a.kind};
      match a.kind {
        case Whole =>
          overall := if a.status == Approved then Overall.Verified
                     else if a.status == AttemptStatus.Rejected then Overall.Rejected else UnderReview;
        case Nin =>
          if a.status == Approved {
            nin := Status.Verified;
            biodata := Status.Verified;
            ApproveLatestBiodataAttempt();
            fields := fields + {Biodata};
          } else {
            nin := if a.status == AttemptStatus.Rejected then Status.Rejected else Status.Pending;
          }
        case Biodata => biodata := Unmapped(a.status);
        case Callup => callup := Unmapped(a.status);
        case StateCode => stateCode := Unmapped(a.status);
      }
      assert fields == Touched(a);
      Save(fields, true);
    }

    method ApproveLatestBiodataAttempt()
      modifies this`attempts
      ensures attempts == ApproveLatestBiodata(old(attempts))
      decreases 0
    {
      var latest := LatestNotFailed(Biodata, {Approved, Failed});
      if latest.Some? {
        attempts := attempts[latest.value := attempts[latest.value].(status := Approved)];
      }
    }

    method CreateAttempt(k: Kind, s: AttemptStatus) returns (i: nat)
      modifies this
      ensures State() == Create(old(State()), k, s) && i == |old(attempts)| < |attempts|
    {
      i := |attempts|;
      attempts := attempts + [Attempt(k, s)];
      SyncCorperStatus(i);
    }

    // ---- Requests ----

    method Submission(k: Kind, refused: bool, finding: Finding)
      modifies this
      ensures State() == Submit(old(State()), k, refused, finding)
    {
      hide Create, SaveProfile, SaveAttempt;
      if k == Biodata && !refused && biodata == Status.Verified { return; }
      if refused || (Part(k) && StatusOf(InMemory(), k) == Status.Verified) {
        var _ := CreateAttempt(k, Failed);
        return;
      }
      if k == Nin {
        var _ := CreateAttempt(Nin, if finding == Differs then AttemptStatus.Rejected else Approved);
        if finding == Differs {
          nin := Status.Rejected;
          Save({Nin}, false);
        } else {
          nin, biodata := Status.Verified, Status.Verified;
          Save({Nin, Biodata}, false);
        }
        return;
      }
      var i := CreateAttempt(k, AttemptStatus.Pending);
      if k == Whole {
        overall := UnderReview;
        Save({}, false);
        return;
      }
      match k {
        case Biodata => biodata := Status.Pending;
        case Callup => callup := Status.Pending;
        case StateCode => stateCode := Status.Pending;
      }
      Save({k}, false);
      if k != Biodata { SaveWithStatus(i, AttemptStatus.Pending); }
    }

    method ReviewAttempt(i: nat, approve: bool)
      requires i < |attempts|
      modifies this
      ensures State() == Review(old(State()), i, approve)
    {
      hide SaveProfile, SaveAttempt;
      var k := attempts[i].kind;
      SaveWithStatus(i, if approve then Approved else AttemptStatus.Rejected);
      var mapped := if approve then Status.Verified else Status.Rejected;
      var fields: set<Kind> := {k};
      match k {
        case Nin =>
          nin := mapped;
          if approve {
            biodata := Status.Verified;
            fields := fields + {Biodata};
          }
        case Biodata => biodata := mapped;
        case Callup => callup := mapped;
        case StateCode => stateCode := mapped;
        case Whole => overall := if approve then Overall.Verified else Overall.Rejected;
      }
      assert fields == Touched(Attempt(k, if approve then Approved else AttemptStatus.Rejected));
      Save(fields, false);
    }

    method UpdateByAdmin(c: Changes)
      modifies this
      ensures State() == AdminUpdate(old(State()), c)
    {
      hide SaveProfile;
      var fields: set<Kind> := {};
      if c.biodata.Set? { biodata, fields := c.biodata.to, fields + {Biodata}; }
      if c.nin.Set? { nin, fields := c.nin.to, fields + {Nin}; }
      if c.callup.Set? { callup, fields := c.callup.to, fields + {Callup}; }
      if c.stateCode.Set? { stateCode, fields := c.stateCode.to, fields + {StateCode}; }
      assert fields == Named(c);
      Save(fields, false);
    }
  }
}
