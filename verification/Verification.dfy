/**
 * Corper verification: a log of attempts and a profile of statuses that save each other.
 *
 * A `Desk` is one corper's profile as a request holds it, the profile row as stored, and the attempts in
 * creation order. Saving a profile pushes changed statuses into the newest attempts; saving an attempt
 * pushes its status into the profile, which is then saved without pushing back.
 */
module Verification {
  import opened Wrappers

  datatype Kind = Biodata | Nin | Callup | StateCode | Whole

  datatype Status = Unsubmitted | Pending | Verified | Rejected

  datatype Overall = Pending | UnderReview | Verified | Rejected

  datatype AttemptStatus = Pending | Approved | Failed | Rejected

  datatype Profile = Profile(overall: Overall, biodata: Status, nin: Status, callup: Status, stateCode: Status)

  datatype Attempt = Attempt(kind: Kind, status: AttemptStatus)

  datatype Desk = Desk(profile: Profile, saved: Profile, attempts: seq<Attempt>)

  // ---- Profiles ----

  predicate Part(k: Kind) { k != Whole }

  function StatusOf(p: Profile, k: Kind): Status
    requires Part(k)
  {
    match k
    case Biodata => p.biodata
    case Nin => p.nin
    case Callup => p.callup
    case StateCode => p.stateCode
  }

  function WithStatus(p: Profile, k: Kind, s: Status): Profile
    requires Part(k)
  {
    match k
    case Biodata => p.(biodata := s)
    case Nin => p.(nin := s)
    case Callup => p.(callup := s)
    case StateCode => p.(stateCode := s)
  }

  predicate DocumentsVerified(p: Profile) {
    p.biodata == Status.Verified && p.nin == Status.Verified && p.callup == Status.Verified
    && p.stateCode == Status.Verified
  }

  function Derived(p: Profile): Overall {
    if DocumentsVerified(p) then Overall.Verified
    else if p.biodata == Status.Rejected || p.nin == Status.Rejected || p.callup == Status.Rejected
            || p.stateCode == Status.Rejected then Overall.Rejected
    else Overall.Pending
  }

  /** The attempt status a profile status stands for, if it stands for one. */
  function Mapped(s: Status): Option<AttemptStatus> {
    match s
    case Unsubmitted => None
    case Pending => Some(AttemptStatus.Pending)
    case Verified => Some(AttemptStatus.Approved)
    case Rejected => Some(AttemptStatus.Rejected)
  }

  function MappedOverall(o: Overall): AttemptStatus {
    match o
    case Pending => AttemptStatus.Pending
    case UnderReview => AttemptStatus.Pending
    case Verified => AttemptStatus.Approved
    case Rejected => AttemptStatus.Rejected
  }

  function Unmapped(s: AttemptStatus): Status
    requires s != Failed
  {
    match s
    case Pending => Status.Pending
    case Approved => Status.Verified
    case Rejected => Status.Rejected
  }

  // ---- The log ----

  predicate Picks(a: Attempt, k: Kind, excluded: set<AttemptStatus>) { a.kind == k && a.status !in excluded }

  /** The newest of the first `n` attempts of a kind whose status is not excluded. */
  function Newest(log: seq<Attempt>, n: nat, k: Kind, excluded: set<AttemptStatus>): (r: Option<nat>)
    requires n <= |log|
    ensures r.Some? ==> r.value < n && Picks(log[r.value], k, excluded)
    ensures r.Some? ==> forall j :: r.value < j < n ==> !Picks(log[j], k, excluded)
    ensures r.None? ==> forall j :: 0 <= j < n ==> !Picks(log[j], k, excluded)
  {
    if n == 0 then None
    else if Picks(log[n - 1], k, excluded) then Some(n - 1)
    else Newest(log, n - 1, k, excluded)
  }

  function Latest(log: seq<Attempt>, k: Kind): Option<nat> { Newest(log, |log|, k, {Failed}) }

  /** The newest biodata attempt still undecided or refused becomes approved, behind the save hooks. */
  function ApproveLatestBiodata(log: seq<Attempt>): seq<Attempt> {
    var i := Newest(log, |log|, Biodata, {Approved, Failed});
    if i.None? then log else log[i.value := log[i.value].(status := Approved)]
  }

  // ---- Saving ----

  /** Writes the named statuses, and always the derived overall status, to the row. */
  function SaveRow(d: Desk, fields: set<Kind>): Desk {
    var p := d.profile.(overall := Derived(d.profile));
    d.(profile := p,
       saved := Profile(p.overall,
                        if Biodata in fields then p.biodata else d.saved.biodata,
                        if Nin in fields then p.nin else d.saved.nin,
                        if Callup in fields then p.callup else d.saved.callup,
                        if StateCode in fields then p.stateCode else d.saved.stateCode))
  }

  /** What an attempt's save does to the profile in memory. */
  function Project(p: Profile, a: Attempt): Profile
    requires a.status != Failed
  {
    if a.kind == Whole then
      p.(overall := if a.status == Approved then Overall.Verified
                    else if a.status == AttemptStatus.Rejected then Overall.Rejected else UnderReview)
    else if a.kind == Nin && a.status == Approved then p.(nin := Status.Verified, biodata := Status.Verified)
    else WithStatus(p, a.kind, Unmapped(a.status))
  }

  function Touched(a: Attempt): set<Kind> {
    if a.kind == Nin && a.status == Approved then {Nin, Biodata} else {a.kind}
  }

  function SyncCorper(d: Desk, i: nat): (m: Desk)
    requires i < |d.attempts|
    ensures |m.attempts| == |d.attempts|
  {
    var a := d.attempts[i];
    if a.status == Failed then d
    else
      var log := if a.kind == Nin && a.status == Approved then ApproveLatestBiodata(d.attempts) else d.attempts;
      SaveRow(d.(profile := Project(d.profile, a), attempts := log), Touched(a))
  }

  function SaveAttempt(d: Desk, i: nat, s: AttemptStatus): (m: Desk)
    requires i < |d.attempts|
    ensures |m.attempts| == |d.attempts|
  {
    SyncCorper(d.(attempts := d.attempts[i := d.attempts[i].(status := s)]), i)
  }

  const ORDER: seq<Kind> := [Whole, Biodata, Nin, Callup, StateCode]

  function NextStatus(p: Profile, k: Kind): Option<AttemptStatus> {
    if k == Whole then Some(MappedOverall(p.overall)) else Mapped(StatusOf(p, k))
  }

  predicate Unchanged(before: Profile, p: Profile, k: Kind) {
    if k == Whole then before.overall == p.overall else StatusOf(before, k) == StatusOf(p, k)
  }

  /** One status pushed into the newest attempt of its kind, when it changed and they differ. */
  function PushOne(d: Desk, before: Profile, k: Kind): (m: Desk)
    ensures |m.attempts| == |d.attempts|
  {
    var next := NextStatus(d.profile, k);
    var latest := Latest(d.attempts, k);
    if Unchanged(before, d.profile, k) || next.None? || latest.None? || d.attempts[latest.value].status == next.value
    then d
    else SaveAttempt(d, latest.value, next.value)
  }

  function Push(d: Desk, before: Profile, n: nat): (m: Desk)
    requires n <= |ORDER|
    ensures |m.attempts| == |d.attempts|
  {
    if n == 0 then d else PushOne(Push(d, before, n - 1), before, ORDER[n - 1])
  }

  /** The profile's own save: the row, then the log. */
  function SaveProfile(d: Desk, fields: set<Kind>): (m: Desk)
    ensures |m.attempts| == |d.attempts|
  {
    Push(SaveRow(d, fields), d.saved, |ORDER|)
  }

  // ---- Requests ----

  datatype Finding = Matches | Differs

  function Create(d: Desk, k: Kind, s: AttemptStatus): Desk {
    SyncCorper(d.(attempts := d.attempts + [Attempt(k, s)]), |d.attempts|)
  }

  function RecordFailed(d: Desk, k: Kind): Desk { Create(d, k, Failed) }

  /** A submission. `refused` stands for every guard that records a failed attempt, and for a write that
      fails and is rolled back; `finding` is the registry's word on a national identity number. */
  function Submit(d: Desk, k: Kind, refused: bool, finding: Finding): Desk {
    if k == Biodata && !refused && d.profile.biodata == Status.Verified then d
    else if refused || (Part(k) && StatusOf(d.profile, k) == Status.Verified) then RecordFailed(d, k)
    else match k
      case Biodata =>
        var d1 := Create(d, k, AttemptStatus.Pending);
        SaveProfile(d1.(profile := d1.profile.(biodata := Status.Pending)), {Biodata})
      case Nin =>
        if finding == Differs then
          var d1 := Create(d, k, AttemptStatus.Rejected);
          SaveProfile(d1.(profile := d1.profile.(nin := Status.Rejected)), {Nin})
        else
          var d1 := Create(d, k, Approved);
          SaveProfile(d1.(profile := d1.profile.(nin := Status.Verified, biodata := Status.Verified)), {Nin, Biodata})
      case Whole =>
        var d1 := Create(d, k, AttemptStatus.Pending);
        SaveProfile(d1.(profile := d1.profile.(overall := UnderReview)), {})
      case _ =>
        var d1 := Create(d, k, AttemptStatus.Pending);
        var d2 := SaveProfile(d1.(profile := WithStatus(d1.profile, k, Status.Pending)), {k});
        SaveAttempt(d2, |d.attempts|, AttemptStatus.Pending)
  }

  /** An administrator decides any attempt of the log. */
  function Review(d: Desk, i: nat, approve: bool): Desk
    requires i < |d.attempts|
  {
    var s := if approve then Approved else AttemptStatus.Rejected;
    var d1 := SaveAttempt(d, i, s);
    var a := d.attempts[i].(status := s);
    SaveProfile(d1.(profile := Project(d1.profile, a)), Touched(a))
  }

  /** An administrator sets several statuses at once. */
  datatype Change = Keep | Set(to: Status)

  datatype Changes = Changes(biodata: Change, nin: Change, callup: Change, stateCode: Change)

  function Apply(c: Change, s: Status): Status { if c.Set? then c.to else s }

  function Edited(p: Profile, c: Changes): Profile {
    p.(biodata := Apply(c.biodata, p.biodata), nin := Apply(c.nin, p.nin),
       callup := Apply(c.callup, p.callup), stateCode := Apply(c.stateCode, p.stateCode))
  }

  function Named(c: Changes): set<Kind> {
    (if c.biodata.Set? then {Biodata} else {}) + (if c.nin.Set? then {Nin} else {})
    + (if c.callup.Set? then {Callup} else {}) + (if c.stateCode.Set? then {StateCode} else {})
  }

  function AdminUpdate(d: Desk, c: Changes): Desk {
    SaveProfile(d.(profile := Edited(d.profile, c)), Named(c))
  }
}
