/**
 * One-time codes by e-mail: issuing, checking, consuming, and the password-reset session between them.
 *
 * A row holds its code in place of the code's salted hash. `issue`, `presented` and `uses` only keep book:
 * which call of `issue_code` filled a row, which issues had their code presented, which were used.
 */
module OneTimeCodes {
  import opened Wrappers

  datatype Purpose =
    | Signup | AdminRegistration | PasswordReset | CompanyPassword | CompanyEmail | CompanyMobile | CompanyDeletion

  datatype Row = Row(email: string, purpose: Purpose, code: string, expiresAt: int, lastSentAt: int,
                     attempts: nat, verifiedAt: Option<int>, consumedAt: Option<int>, issue: nat)

  datatype Book = Book(rows: map<nat, Row>, next: nat, issues: nat, presented: set<nat>, uses: seq<nat>)

  /** How many failed checks close a row. */
  type Limit = n: int | 1 <= n witness 5

  predicate IsOpen(r: Row, email: string, purpose: Purpose) {
    r.email == email && r.purpose == purpose && r.consumedAt.None?
  }

  /** The newest open row of an address and purpose among those numbered below `n`. */
  function Newest(rows: map<nat, Row>, n: nat, email: string, purpose: Purpose): (r: Option<nat>)
    ensures r.Some? ==> r.value < n && r.value in rows && IsOpen(rows[r.value], email, purpose)
    ensures r.Some? ==> forall i :: i in rows && r.value < i < n ==> !IsOpen(rows[i], email, purpose)
    ensures r.None? ==> forall i :: i in rows && i < n ==> !IsOpen(rows[i], email, purpose)
  {
    if n == 0 then None
    else if n - 1 in rows && IsOpen(rows[n - 1], email, purpose) then Some(n - 1)
    else Newest(rows, n - 1, email, purpose)
  }

  function Open(b: Book, email: string, purpose: Purpose): Option<nat> { Newest(b.rows, b.next, email, purpose) }

  predicate Alphanumeric(c: char) { '0' <= c <= '9' || 'A' <= c <= 'Z' || 'a' <= c <= 'z' }

  /** `code` is trimmed and in upper case, as every caller passes it. */
  predicate Matches(r: Row, code: string) { Right(r.code, code) }

  predicate Right(issued: string, given: string) {
    |given| == 6 && (forall i :: 0 <= i < |given| ==> Alphanumeric(given[i])) && given == issued
  }

  // ---- Rows ----

  /** Issues a code, unless the last one was sent within the window. */
  function Issue(b: Book, email: string, purpose: Purpose, code: string, now: int, window: int, expiry: int):
    (Book, bool)
  {
    var existing := Open(b, email, purpose);
    if existing.Some? && now - b.rows[existing.value].lastSentAt < window then (b, false)
    else
      var id := if existing.Some? then existing.value else b.next;
      (b.(rows := b.rows[id := Row(email, purpose, code, now + expiry, now, 0, None, None, b.issues)],
          next := if existing.Some? then b.next else b.next + 1,
          issues := b.issues + 1),
       true)
  }

  function Invalidate(b: Book, id: nat, now: int): Book
    requires id in b.rows
  {
    if b.rows[id].consumedAt.Some? then b else b.(rows := b.rows[id := b.rows[id].(consumedAt := Some(now))])
  }

  function RegisterFailed(b: Book, limit: Limit, id: nat, now: int): Book
    requires id in b.rows
  {
    var r := b.rows[id].(attempts := b.rows[id].attempts + 1);
    b.(rows := b.rows[id := if r.attempts >= limit && r.consumedAt.None? then r.(consumedAt := Some(now)) else r])
  }

  function MarkVerified(b: Book, id: nat, now: int): Book
    requires id in b.rows
  {
    if b.rows[id].verifiedAt.Some? then b else b.(rows := b.rows[id := b.rows[id].(verifiedAt := Some(now))])
  }

  function MarkConsumed(b: Book, id: nat, now: int): Book
    requires id in b.rows
  {
    var r := b.rows[id];
    b.(rows := b.rows[id := r.(consumedAt := Some(now),
                               verifiedAt := if r.verifiedAt.None? then Some(now) else r.verifiedAt)],
       uses := b.uses + [r.issue])
  }

  // ---- Flows ----

  /** A check: the row whose current code was given, if it is open, in time and under the limit. */
  function Check(b: Book, limit: Limit, email: string, purpose: Purpose, code: string, now: int):
    (r: (Book, Option<nat>))
    ensures r.1.Some? ==> r.1.value in r.0.rows
  {
    var open := Open(b, email, purpose);
    if open.None? then (b, None)
    else
      var id := open.value;
      var r := b.rows[id];
      if now >= r.expiresAt || r.attempts >= limit then (Invalidate(b, id, now), None)
      else if !Matches(r, code) then (RegisterFailed(b, limit, id, now), None)
      else (b.(presented := b.presented + {r.issue}), Some(id))
  }

  function Consume(b: Book, limit: Limit, email: string, purpose: Purpose, code: string, now: int): (Book, bool) {
    var (b1, id) := Check(b, limit, email, purpose, code, now);
    if id.None? then (b1, false) else (MarkConsumed(MarkVerified(b1, id.value, now), id.value, now), true)
  }

  /** Sign-up consumes inside one transaction: whatever fails, in the check or later, undoes all of it. */
  function CompleteSignup(b: Book, limit: Limit, email: string, code: string, now: int, laterFails: bool):
    (Book, bool)
  {
    var (b1, ok) := Consume(b, limit, email, Signup, code, now);
    if ok && !laterFails then (b1, true) else (b, false)
  }

  /** The signed reset session: it names a row, not an issue. */
  datatype Token = Token(id: nat, email: string)

  function VerifyReset(b: Book, limit: Limit, email: string, code: string, now: int): (Book, Option<Token>) {
    var (b1, id) := Check(b, limit, email, PasswordReset, code, now);
    if id.None? then (b1, None) else (MarkVerified(b1, id.value, now), Some(Token(id.value, b1.rows[id.value].email)))
  }

  predicate Redeemable(b: Book, token: Token, now: int) {
    && token.id in b.rows && IsOpen(b.rows[token.id], token.email, PasswordReset)
    && now < b.rows[token.id].expiresAt && b.rows[token.id].verifiedAt.Some?
  }

  /** `genuine` says that the signature holds and is young enough, `samePassword` that the new password is
      the old one, which refuses the reset before anything is consumed. */
  function ResetWithToken(b: Book, token: Token, genuine: bool, samePassword: bool, now: int): (Book, bool) {
    if genuine && Redeemable(b, token, now) && !samePassword then (MarkConsumed(b, token.id, now), true) else (b, false)
  }

  function ResetWithCode(b: Book, limit: Limit, email: string, code: string, samePassword: bool, now: int):
    (Book, bool)
  {
    var (b1, id) := Check(b, limit, email, PasswordReset, code, now);
    if id.None? || samePassword then (b1, false)
    else (MarkConsumed(MarkVerified(b1, id.value, now), id.value, now), true)
  }

  /** Rows of abandoned or finished sign-ups are deleted. */
  function Purge(b: Book, emails: set<string>): Book {
    b.(rows := map id | id in b.rows && !(b.rows[id].email in emails && b.rows[id].purpose == Signup) :: b.rows[id])
  }

  // ---- What every step keeps ----

  predicate RowSound(b: Book, limit: Limit, id: nat, r: Row) {
    && id < b.next && r.issue < b.issues
    && (r.consumedAt.None? ==> r.attempts < limit && r.issue !in b.uses
                               && (r.verifiedAt.Some? ==> r.issue in b.presented))
  }

  predicate RowsApart(i: nat, r: Row, j: nat, s: Row) {
    i != j ==>
      r.issue != s.issue
      && !(r.email == s.email && r.purpose == s.purpose && r.consumedAt.None? && s.consumedAt.None?)
  }

  predicate UsesSound(b: Book) {
    && (forall i :: 0 <= i < |b.uses| ==> b.uses[i] in b.presented && b.uses[i] < b.issues)
    && (forall i, j :: 0 <= i < j < |b.uses| ==> b.uses[i] != b.uses[j])
  }

  predicate Sound(b: Book, limit: Limit) {
    && (forall id :: id in b.rows ==> RowSound(b, limit, id, b.rows[id]))
    && (forall i, j :: i in b.rows && j in b.rows ==> RowsApart(i, b.rows[i], j, b.rows[j]))
    && UsesSound(b)
  }

  /** A consumed row is never written again. */
  predicate Frozen(b: Book, m: Book) {
    forall id :: id in b.rows && b.rows[id].consumedAt.Some? ==> id in m.rows ==> m.rows[id] == b.rows[id]
  }

  /** Records are only added, and a deleted row's number is not used again. */
  predicate Grows(b: Book, m: Book) {
    && b.uses <= m.uses && b.presented <= m.presented && b.issues <= m.issues && b.next <= m.next
    && forall id :: id in m.rows && id < b.next ==> id in b.rows
  }

  predicate Kept(b: Book, m: Book, limit: Limit) { Sound(m, limit) && Frozen(b, m) && Grows(b, m) }

  lemma IssueKeeps(b: Book, limit: Limit, email: string, purpose: Purpose, code: string, now: int, window: int,
                   expiry: int)
    requires Sound(b, limit)
    ensures Kept(b, Issue(b, email, purpose, code, now, window, expiry).0, limit)
  {
    var m := Issue(b, email, purpose, code, now, window, expiry).0;
    if m != b {
      var existing := Open(b, email, purpose);
      var at := if existing.Some? then existing.value else b.next;
      assert m.rows[at].issue == b.issues && b.issues !in b.uses;
      forall i, j | i in m.rows && j in m.rows ensures RowsApart(i, m.rows[i], j, m.rows[j]) {
        if i != at && j != at { assert RowsApart(i, b.rows[i], j, b.rows[j]); }
        if i != at { assert RowSound(b, limit, i, b.rows[i]); }
        if j != at { assert RowSound(b, limit, j, b.rows[j]); }
        if existing.Some? && i in b.rows && j in b.rows { assert RowsApart(i, b.rows[i], j, b.rows[j]); }
      }
      forall id | id in m.rows ensures RowSound(m, limit, id, m.rows[id]) {
        if id != at { assert RowSound(b, limit, id, b.rows[id]); }
      }
    }
  }

  /** A row written again, its issue kept and never reopened. */
  lemma RewriteKeeps(b: Book, limit: Limit, id: nat, r: Row)
    requires Sound(b, limit) && id in b.rows && b.rows[id].consumedAt.None?
    requires r.email == b.rows[id].email && r.purpose == b.rows[id].purpose && r.issue == b.rows[id].issue
    requires r.consumedAt.None? ==> r.attempts < limit && (r.verifiedAt.Some? ==> r.issue in b.presented)
    ensures Kept(b, b.(rows := b.rows[id := r]), limit)
  {
    var m := b.(rows := b.rows[id := r]);
    forall i, j | i in m.rows && j in m.rows ensures RowsApart(i, m.rows[i], j, m.rows[j]) {
      assert RowsApart(i, b.rows[i], j, b.rows[j]);
    }
    forall i | i in m.rows ensures RowSound(m, limit, i, m.rows[i]) { assert RowSound(b, limit, i, b.rows[i]); }
  }

  lemma PresentKeeps(b: Book, limit: Limit, issue: nat)
    requires Sound(b, limit)
    ensures Kept(b, b.(presented := b.presented + {issue}), limit)
  {
    var m := b.(presented := b.presented + {issue});
    forall i | i in m.rows ensures RowSound(m, limit, i, m.rows[i]) { assert RowSound(b, limit, i, b.rows[i]); }
  }

  lemma MarkConsumedKeeps(b: Book, limit: Limit, id: nat, now: int)
    requires Sound(b, limit) && id in b.rows && b.rows[id].consumedAt.None? && b.rows[id].issue in b.presented
    ensures Kept(b, MarkConsumed(b, id, now), limit)
  {
    var r := b.rows[id];
    var closed := r.(consumedAt := Some(now), verifiedAt := if r.verifiedAt.None? then Some(now) else r.verifiedAt);
    var b1 := b.(rows := b.rows[id := closed]);
    RewriteKeeps(b, limit, id, closed);
    var m := MarkConsumed(b, id, now);
    assert m == b1.(uses := b.uses + [r.issue]);
    assert RowSound(b, limit, id, r);
    forall i | i in m.rows ensures RowSound(m, limit, i, m.rows[i]) {
      assert RowSound(b1, limit, i, b1.rows[i]) && RowsApart(i, b1.rows[i], id, b1.rows[id]);
    }
  }

  lemma CheckKeeps(b: Book, limit: Limit, email: string, purpose: Purpose, code: string, now: int)
    requires Sound(b, limit)
    ensures var (m, id) := Check(b, limit, email, purpose, code, now);
      && Kept(b, m, limit)
      && (id.Some? ==> id == Open(b, email, purpose) && m.rows == b.rows && IsOpen(m.rows[id.value], email, purpose)
                       && m.rows[id.value].issue in m.presented && now < m.rows[id.value].expiresAt)
  {
    hide Matches, Sound, Frozen, Grows;
    var open := Open(b, email, purpose);
    if open.None? {
      KeptSame(b, limit);
    } else {
      var r := b.rows[open.value];
      OpenRowSound(b, limit, open.value);
      PresentKeeps(b, limit, r.issue);
      RewriteKeeps(b, limit, open.value, r.(consumedAt := Some(now)));
      RewriteKeeps(b, limit, open.value,
                   var f := r.(attempts := r.attempts + 1);
                   if f.attempts >= limit then f.(consumedAt := Some(now)) else f);
    }
  }

  lemma OpenRowSound(b: Book, limit: Limit, id: nat)
    requires Sound(b, limit) && id in b.rows
    ensures RowSound(b, limit, id, b.rows[id])
  {
  }

  lemma KeptSame(b: Book, limit: Limit)
    requires Sound(b, limit)
    ensures Kept(b, b, limit)
  {
  }

  lemma KeptOn(a: Book, b: Book, c: Book, limit: Limit)
    requires Sound(a, limit) && Kept(a, b, limit) && Kept(b, c, limit)
    ensures Kept(a, c, limit)
  {
    forall id | id in a.rows && a.rows[id].consumedAt.Some? && id in c.rows ensures c.rows[id] == a.rows[id] {
      assert RowSound(a, limit, id, a.rows[id]);
      assert id in b.rows;
    }
  }

  lemma MarkVerifiedKeeps(b: Book, limit: Limit, id: nat, now: int)
    requires Sound(b, limit) && id in b.rows && b.rows[id].consumedAt.None? && b.rows[id].issue in b.presented
    ensures var m := MarkVerified(b, id, now);
      && Kept(b, m, limit) && m.rows.Keys == b.rows.Keys
      && m.rows[id].consumedAt.None? && m.rows[id].issue == b.rows[id].issue && m.presented == b.presented
  {
    OpenRowSound(b, limit, id);
    RewriteKeeps(b, limit, id, b.rows[id].(verifiedAt := Some(now)));
  }

  /** A found row is verified and then used. */
  lemma UseKeeps(b: Book, limit: Limit, email: string, purpose: Purpose, code: string, now: int)
    requires Sound(b, limit)
    ensures Kept(b, Consume(b, limit, email, purpose, code, now).0, limit)
  {
    hide Check, MarkVerified, MarkConsumed, Kept, Sound;
    CheckKeeps(b, limit, email, purpose, code, now);
    var (b1, id) := Check(b, limit, email, purpose, code, now);
    KeptSound(b, b1, limit);
    if id.Some? {
      MarkVerifiedKeeps(b1, limit, id.value, now);
      var b2 := MarkVerified(b1, id.value, now);
      KeptSound(b1, b2, limit);
      MarkConsumedKeeps(b2, limit, id.value, now);
      KeptOn(b, b1, b2, limit);
      KeptOn(b, b2, MarkConsumed(b2, id.value, now), limit);
    }
  }

  lemma KeptSound(b: Book, m: Book, limit: Limit)
    requires Kept(b, m, limit)
    ensures Sound(m, limit)
  {
  }

  lemma ResetWithCodeKeeps(b: Book, limit: Limit, email: string, code: string, same: bool, now: int)
    requires Sound(b, limit)
    ensures Kept(b, ResetWithCode(b, limit, email, code, same, now).0, limit)
  {
    hide Check, Sound, Kept;
    CheckKeeps(b, limit, email, PasswordReset, code, now);
    UseKeeps(b, limit, email, PasswordReset, code, now);
  }

  lemma VerifyResetKeeps(b: Book, limit: Limit, email: string, code: string, now: int)
    requires Sound(b, limit)
    ensures Kept(b, VerifyReset(b, limit, email, code, now).0, limit)
  {
    hide Check, MarkVerified, Kept, Sound;
    CheckKeeps(b, limit, email, PasswordReset, code, now);
    var (b1, id) := Check(b, limit, email, PasswordReset, code, now);
    KeptSound(b, b1, limit);
    if id.Some? {
      MarkVerifiedKeeps(b1, limit, id.value, now);
      KeptOn(b, b1, MarkVerified(b1, id.value, now), limit);
    }
  }

  lemma PurgeKeeps(b: Book, limit: Limit, emails: set<string>)
    requires Sound(b, limit)
    ensures Kept(b, Purge(b, emails), limit)
  {
    var m := Purge(b, emails);
    forall i | i in m.rows ensures RowSound(m, limit, i, m.rows[i]) { assert RowSound(b, limit, i, b.rows[i]); }
    forall i, j | i in m.rows && j in m.rows ensures RowsApart(i, m.rows[i], j, m.rows[j]) {
      assert RowsApart(i, b.rows[i], j, b.rows[j]);
    }
  }

  // ---- Runs ----

  datatype Step =
    | Issuing(email: string, purpose: Purpose, code: string, window: int, expiry: int)
    | Consuming(email: string, purpose: Purpose, code: string)
    | SigningUp(email: string, code: string, laterFails: bool)
    | VerifyingReset(email: string, code: string)
    | RedeemingToken(token: Token, genuine: bool, samePassword: bool)
    | ResettingByCode(email: string, code: string, samePassword: bool)
    | Purging(emails: set<string>)

  function Take(b: Book, limit: Limit, s: Step, now: int): Book {
    match s
    case Issuing(email, purpose, code, window, expiry) => Issue(b, email, purpose, code, now, window, expiry).0
    case Consuming(email, purpose, code) => Consume(b, limit, email, purpose, code, now).0
    case SigningUp(email, code, laterFails) => CompleteSignup(b, limit, email, code, now, laterFails).0
    case VerifyingReset(email, code) => VerifyReset(b, limit, email, code, now).0
    case RedeemingToken(token, genuine, same) => ResetWithToken(b, token, genuine, same, now).0
    case ResettingByCode(email, code, same) => ResetWithCode(b, limit, email, code, same, now).0
    case Purging(emails) => Purge(b, emails)
  }

  datatype Timed = Timed(step: Step, now: int)

  function Run(b: Book, limit: Limit, steps: seq<Timed>): Book
    decreases |steps|
  {
    if steps == [] then b else Run(Take(b, limit, steps[0].step, steps[0].now), limit, steps[1..])
  }

  lemma StepKeeps(b: Book, limit: Limit, s: Step, now: int)
    requires Sound(b, limit)
    ensures Kept(b, Take(b, limit, s, now), limit)
  {
    hide Issue, Consume, VerifyReset, ResetWithCode, Purge, MarkConsumed, Kept, Sound;
    KeptSame(b, limit);
    match s
    case Issuing(email, purpose, code, window, expiry) =>
      IssueKeeps(b, limit, email, purpose, code, now, window, expiry);
    case Consuming(email, purpose, code) => UseKeeps(b, limit, email, purpose, code, now);
    case SigningUp(email, code, laterFails) => UseKeeps(b, limit, email, Signup, code, now);
    case VerifyingReset(email, code) => VerifyResetKeeps(b, limit, email, code, now);
    case RedeemingToken(token, genuine, same) =>
      if Redeemable(b, token, now) {
        OpenRowSound(b, limit, token.id);
        MarkConsumedKeeps(b, limit, token.id, now);
      }
    case ResettingByCode(email, code, same) => ResetWithCodeKeeps(b, limit, email, code, same, now);
    case Purging(emails) => PurgeKeeps(b, limit, emails);
  }

  /** In every run: one open row per address and purpose, open rows under the limit, each issue used at most
      once and only after its own code was presented, and consumed rows written for the last time. */
  lemma {:induction false} EveryRunKeeps(b: Book, limit: Limit, steps: seq<Timed>)
    requires Sound(b, limit)
    ensures Kept(b, Run(b, limit, steps), limit)
    decreases |steps|
  {
    hide Take, Kept, Sound;
    if steps == [] {
      KeptSame(b, limit);
    } else {
      var b1 := Take(b, limit, steps[0].step, steps[0].now);
      StepKeeps(b, limit, steps[0].step, steps[0].now);
      KeptSound(b, b1, limit);
      EveryRunKeeps(b1, limit, steps[1..]);
      KeptOn(b, b1, Run(b1, limit, steps[1..]), limit);
    }
  }

  /** What a step can use: one row, open and in time, whose current code was presented, by this step or before;
      through a session only a genuine one, and never for the password already set. */
  lemma UsesAreEarned(b: Book, limit: Limit, s: Step, now: int)
    requires Sound(b, limit)
    ensures var m := Take(b, limit, s, now);
      m.uses != b.uses ==>
        exists id :: id in b.rows && b.rows[id].consumedAt.None? && now < b.rows[id].expiresAt
                     && b.rows[id].attempts < limit && m.uses == b.uses + [b.rows[id].issue]
                     && b.rows[id].issue in m.presented
    ensures var m := Take(b, limit, s, now);
      m.uses != b.uses ==>
        && !s.Issuing? && !s.VerifyingReset? && !s.Purging?
        && (s.RedeemingToken? ==> s.genuine && !s.samePassword)
        && (s.ResettingByCode? ==> !s.samePassword)
        && (s.SigningUp? ==> !s.laterFails)
  {
    hide Sound, Matches;
    var m := Take(b, limit, s, now);
    if m.uses != b.uses {
      var id := match s
        case Consuming(email, purpose, code) => Open(b, email, purpose)
        case SigningUp(email, code, laterFails) => Open(b, email, Signup)
        case RedeemingToken(token, genuine, same) => Some(token.id)
        case ResettingByCode(email, code, same) => Open(b, email, PasswordReset)
        case _ => None;
      OpenRowSound(b, limit, id.value);
      assert id.value in b.rows && m.uses == b.uses + [b.rows[id.value].issue];
    }
  }

  // ---- Wrong codes ----

  /** A counted wrong code for this address and purpose, in any flow that commits its checks. */
  predicate Guesses(s: Step, email: string, purpose: Purpose, issued: string) {
    match s
    case Consuming(e, p, code) => e == email && p == purpose && !Right(issued, code)
    case VerifyingReset(e, code) => e == email && purpose == PasswordReset && !Right(issued, code)
    case ResettingByCode(e, code, same) => e == email && purpose == PasswordReset && !Right(issued, code)
    case _ => false
  }

  /** A step about another address or purpose, or a sign-up that its transaction undoes. */
  predicate Elsewhere(s: Step, email: string, purpose: Purpose, issued: string) {
    match s
    case Issuing(e, p, code, window, expiry) => e != email || p != purpose
    case Consuming(e, p, code) => e != email || p != purpose
    case SigningUp(e, code, laterFails) => e != email || purpose != Signup || laterFails || !Right(issued, code)
    case VerifyingReset(e, code) => e != email || purpose != PasswordReset
    case RedeemingToken(token, genuine, same) => token.email != email || purpose != PasswordReset
    case ResettingByCode(e, code, same) => e != email || purpose != PasswordReset
    case Purging(emails) => email !in emails || purpose != Signup
  }

  function CountGuesses(steps: seq<Timed>, email: string, purpose: Purpose, issued: string): nat {
    if steps == [] then 0
    else (if Guesses(steps[0].step, email, purpose, issued) then 1 else 0)
         + CountGuesses(steps[1..], email, purpose, issued)
  }

  predicate IssuedIs(b: Book, email: string, purpose: Purpose, issued: string) {
    var open := Open(b, email, purpose);
    open.Some? ==> b.rows[open.value].code == issued
  }

  /** The open row of an address and purpose after `n` wrong codes: closed, or as it was but for the count. */
  predicate OnlyCounted(b: Book, m: Book, email: string, purpose: Purpose, n: nat) {
    var before, after := Open(b, email, purpose), Open(m, email, purpose);
    after.Some? ==>
      && before == after
      && m.rows[after.value] == b.rows[after.value].(attempts := b.rows[after.value].attempts + n)
  }

  /** As many wrong codes as the limit allows close the row, at any times, through any flows that commit
      their checks, and whatever happens to other addresses and purposes in between. */
  lemma {:induction false} GuessesRunOut(b: Book, limit: Limit, email: string, purpose: Purpose, issued: string,
                                         steps: seq<Timed>)
    requires Sound(b, limit) && IssuedIs(b, email, purpose, issued)
    requires forall i :: 0 <= i < |steps| ==>
               Guesses(steps[i].step, email, purpose, issued) || Elsewhere(steps[i].step, email, purpose, issued)
    ensures var m, n := Run(b, limit, steps), CountGuesses(steps, email, purpose, issued);
      && OnlyCounted(b, m, email, purpose, n)
      && (n >= limit ==> Open(m, email, purpose).None?)
    decreases |steps|
  {
    hide Take, Sound, Kept, Guesses, Elsewhere, OnlyCounted, IssuedIs, Open;
    EveryRunKeeps(b, limit, steps);
    KeptSound(b, Run(b, limit, steps), limit);
    if steps != [] {
      var b1 := Take(b, limit, steps[0].step, steps[0].now);
      StepKeeps(b, limit, steps[0].step, steps[0].now);
      KeptSound(b, b1, limit);
      if Guesses(steps[0].step, email, purpose, issued) {
        GuessStep(b, limit, email, purpose, issued, steps[0].step, steps[0].now);
      } else {
        ElsewhereStep(b, limit, email, purpose, issued, steps[0].step, steps[0].now);
      }
      GuessesRunOut(b1, limit, email, purpose, issued, steps[1..]);
      var first := if Guesses(steps[0].step, email, purpose, issued) then 1 else 0;
      CountedThen(b, b1, Run(b, limit, steps), email, purpose, first, CountGuesses(steps[1..], email, purpose, issued));
    } else {
      CountedNone(b, email, purpose);
    }
    var n := CountGuesses(steps, email, purpose, issued);
    if n >= limit { CountedUnderTheLimit(b, Run(b, limit, steps), limit, email, purpose, n); }
  }

  lemma CountedNone(b: Book, email: string, purpose: Purpose)
    ensures OnlyCounted(b, b, email, purpose, 0)
  {
  }

  lemma CountedThen(a: Book, b: Book, c: Book, email: string, purpose: Purpose, m: nat, n: nat)
    requires OnlyCounted(a, b, email, purpose, m) && OnlyCounted(b, c, email, purpose, n)
    ensures OnlyCounted(a, c, email, purpose, m + n)
  {
    hide Newest;
  }

  lemma CountedUnderTheLimit(b: Book, m: Book, limit: Limit, email: string, purpose: Purpose, n: nat)
    requires Sound(m, limit) && OnlyCounted(b, m, email, purpose, n) && n >= limit
    ensures Open(m, email, purpose).None?
  {
    hide Newest, Sound;
    UnderTheLimit(m, limit, email, purpose);
  }

  lemma UnderTheLimit(b: Book, limit: Limit, email: string, purpose: Purpose)
    requires Sound(b, limit)
    ensures Open(b, email, purpose).Some? ==> b.rows[Open(b, email, purpose).value].attempts < limit
  {
  }

  lemma GuessStep(b: Book, limit: Limit, email: string, purpose: Purpose, issued: string, s: Step, now: int)
    requires Sound(b, limit) && IssuedIs(b, email, purpose, issued) && Guesses(s, email, purpose, issued)
    ensures OnlyCounted(b, Take(b, limit, s, now), email, purpose, 1)
    ensures IssuedIs(Take(b, limit, s, now), email, purpose, issued)
  {
    hide Right, Sound;
    var code := if s.Consuming? || s.VerifyingReset? || s.ResettingByCode? then s.code else "";
    WrongCode(b, limit, email, purpose, code, now);
  }

  lemma WrongCode(b: Book, limit: Limit, email: string, purpose: Purpose, code: string, now: int)
    requires Sound(b, limit)
    requires Open(b, email, purpose).Some? ==> !Matches(b.rows[Open(b, email, purpose).value], code)
    ensures var (m, id) := Check(b, limit, email, purpose, code, now);
      id.None? && OnlyCounted(b, m, email, purpose, 1)
  {
    hide Matches;
    var m, open := Check(b, limit, email, purpose, code, now).0, Open(b, email, purpose);
    if open.Some? {
      forall i | i in b.rows && i != open.value ensures !IsOpen(b.rows[i], email, purpose) {
        assert RowsApart(i, b.rows[i], open.value, b.rows[open.value]);
      }
    }
  }

  // ---- Steps elsewhere ----

  predicate At(r: Row, email: string, purpose: Purpose) { r.email == email && r.purpose == purpose }

  /** Whatever differs between the books is a row of this address and purpose, before and after. */
  predicate OnlyAt(b: Book, m: Book, email: string, purpose: Purpose) {
    && (forall id :: id in b.rows && (id in m.rows ==> m.rows[id] != b.rows[id]) ==> At(b.rows[id], email, purpose))
    && (forall id :: id in m.rows && (id in b.rows ==> b.rows[id] != m.rows[id]) ==> At(m.rows[id], email, purpose))
  }

  lemma OnlyAtAnother(b: Book, m: Book, limit: Limit, email: string, purpose: Purpose, e: string, p: Purpose)
    requires Sound(b, limit) && Sound(m, limit) && OnlyAt(b, m, e, p) && (e != email || p != purpose)
    ensures Open(m, email, purpose) == Open(b, email, purpose)
    ensures OnlyCounted(b, m, email, purpose, 0)
  {
    hide Sound;
    var x, y := Open(b, email, purpose), Open(m, email, purpose);
    if x.Some? { TheOpenRow(m, limit, email, purpose, x.value); }
    if y.Some? { TheOpenRow(b, limit, email, purpose, y.value); }
  }

  lemma TheOpenRow(b: Book, limit: Limit, email: string, purpose: Purpose, id: nat)
    requires Sound(b, limit) && id in b.rows && IsOpen(b.rows[id], email, purpose)
    ensures Open(b, email, purpose) == Some(id)
  {
    assert RowSound(b, limit, id, b.rows[id]);
    var open := Open(b, email, purpose);
    assert RowsApart(id, b.rows[id], open.value, b.rows[open.value]);
  }

  lemma IssueOnlyAt(b: Book, limit: Limit, e: string, p: Purpose, code: string, now: int, window: int, expiry: int)
    requires Sound(b, limit)
    ensures OnlyAt(b, Issue(b, e, p, code, now, window, expiry).0, e, p)
  {
    hide Newest, Sound;
    NextUnused(b, limit);
    var existing := Open(b, e, p);
    var id := if existing.Some? then existing.value else b.next;
    RowOnlyAt(b, id, Row(e, p, code, now + expiry, now, 0, None, None, b.issues));
  }

  lemma NextUnused(b: Book, limit: Limit)
    requires Sound(b, limit)
    ensures b.next !in b.rows
  {
    assert b.next in b.rows ==> RowSound(b, limit, b.next, b.rows[b.next]);
  }

  lemma RowOnlyAt(b: Book, id: nat, r: Row)
    requires id in b.rows ==> At(b.rows[id], r.email, r.purpose)
    ensures OnlyAt(b, b.(rows := b.rows[id := r]), r.email, r.purpose)
  {
  }

  lemma CheckOnlyAt(b: Book, limit: Limit, e: string, p: Purpose, code: string, now: int)
    ensures OnlyAt(b, Check(b, limit, e, p, code, now).0, e, p)
    ensures Check(b, limit, e, p, code, now).1.Some? ==>
              var (m, id) := Check(b, limit, e, p, code, now);
              m.rows == b.rows && id.value in b.rows && At(b.rows[id.value], e, p)
  {
    hide Matches, Newest;
  }

  lemma ConsumeOnlyAt(b: Book, limit: Limit, e: string, p: Purpose, code: string, now: int)
    ensures OnlyAt(b, Consume(b, limit, e, p, code, now).0, e, p)
  {
    hide Check;
    CheckOnlyAt(b, limit, e, p, code, now);
  }

  lemma ResetsOnlyAt(b: Book, limit: Limit, e: string, code: string, same: bool, now: int)
    ensures OnlyAt(b, VerifyReset(b, limit, e, code, now).0, e, PasswordReset)
    ensures OnlyAt(b, ResetWithCode(b, limit, e, code, same, now).0, e, PasswordReset)
  {
    hide Check;
    CheckOnlyAt(b, limit, e, PasswordReset, code, now);
  }

  lemma ElsewhereStep(b: Book, limit: Limit, email: string, purpose: Purpose, issued: string, s: Step, now: int)
    requires Sound(b, limit) && IssuedIs(b, email, purpose, issued) && Elsewhere(s, email, purpose, issued)
    ensures OnlyCounted(b, Take(b, limit, s, now), email, purpose, 0)
    ensures IssuedIs(Take(b, limit, s, now), email, purpose, issued)
  {
    hide Sound, Kept, Right, OnlyAt, Check, Consume, Issue, VerifyReset, ResetWithCode, MarkConsumed;
    var m := Take(b, limit, s, now);
    StepKeeps(b, limit, s, now);
    KeptSound(b, m, limit);
    match s
    case Issuing(e, p, code, window, expiry) =>
      IssueOnlyAt(b, limit, e, p, code, now, window, expiry);
      OnlyAtAnother(b, m, limit, email, purpose, e, p);
    case Consuming(e, p, code) =>
      ConsumeOnlyAt(b, limit, e, p, code, now);
      OnlyAtAnother(b, m, limit, email, purpose, e, p);
    case SigningUp(e, code, laterFails) =>
      if e != email || purpose != Signup {
        ConsumeOnlyAt(b, limit, e, Signup, code, now);
        SameIsOnlyAt(b, e, Signup);
        OnlyAtAnother(b, m, limit, email, purpose, e, Signup);
      } else if !laterFails {
        WrongConsume(b, limit, email, purpose, issued, code, now);
      }
    case VerifyingReset(e, code) =>
      ResetsOnlyAt(b, limit, e, code, true, now);
      OnlyAtAnother(b, m, limit, email, purpose, e, PasswordReset);
    case RedeemingToken(token, genuine, same) =>
      RedeemOnlyAt(b, token, genuine, same, now);
      OnlyAtAnother(b, m, limit, email, purpose, token.email, PasswordReset);
    case ResettingByCode(e, code, same) =>
      ResetsOnlyAt(b, limit, e, code, same, now);
      OnlyAtAnother(b, m, limit, email, purpose, e, PasswordReset);
    case Purging(emails) => PurgeElsewhere(b, limit, email, purpose, emails);
  }

  lemma SameIsOnlyAt(b: Book, e: string, p: Purpose)
    ensures OnlyAt(b, b, e, p)
  {
  }

  lemma RedeemOnlyAt(b: Book, token: Token, genuine: bool, same: bool, now: int)
    ensures OnlyAt(b, ResetWithToken(b, token, genuine, same, now).0, token.email, PasswordReset)
  {
  }

  lemma WrongConsume(b: Book, limit: Limit, email: string, purpose: Purpose, issued: string, code: string, now: int)
    requires IssuedIs(b, email, purpose, issued) && !Right(issued, code)
    ensures !Consume(b, limit, email, purpose, code, now).1
  {
    hide Right;
  }

  lemma PurgeElsewhere(b: Book, limit: Limit, email: string, purpose: Purpose, emails: set<string>)
    requires Sound(b, limit) && (email !in emails || purpose != Signup)
    ensures Open(Purge(b, emails), email, purpose) == Open(b, email, purpose)
    ensures OnlyCounted(b, Purge(b, emails), email, purpose, 0)
  {
    hide Sound;
    PurgeKeeps(b, limit, emails);
    var m := Purge(b, emails);
    KeptSound(b, m, limit);
    var x, y := Open(b, email, purpose), Open(m, email, purpose);
    if x.Some? { TheOpenRow(m, limit, email, purpose, x.value); }
    if y.Some? { TheOpenRow(b, limit, email, purpose, y.value); }
  }

  // ---- How many wrong codes count ----

  /** A wrong code that a flow counts against the open row. */
  predicate Counts(b: Book, limit: Limit, email: string, purpose: Purpose, s: Step, now: int) {
    var open := Open(b, email, purpose);
    && open.Some? && now < b.rows[open.value].expiresAt && b.rows[open.value].attempts < limit
    && Guesses(s, email, purpose, b.rows[open.value].code)
  }

  predicate Issues(b: Book, email: string, purpose: Purpose, s: Step, now: int) {
    && s.Issuing? && s.email == email && s.purpose == purpose
    && Issue(b, email, purpose, s.code, now, s.window, s.expiry).1
  }

  function CountedIn(b: Book, limit: Limit, email: string, purpose: Purpose, steps: seq<Timed>): nat
    decreases |steps|
  {
    if steps == [] then 0
    else (if Counts(b, limit, email, purpose, steps[0].step, steps[0].now) then 1 else 0)
         + CountedIn(Take(b, limit, steps[0].step, steps[0].now), limit, email, purpose, steps[1..])
  }

  function IssuesIn(b: Book, limit: Limit, email: string, purpose: Purpose, steps: seq<Timed>): nat
    decreases |steps|
  {
    if steps == [] then 0
    else (if Issues(b, email, purpose, steps[0].step, steps[0].now) then 1 else 0)
         + IssuesIn(Take(b, limit, steps[0].step, steps[0].now), limit, email, purpose, steps[1..])
  }

  /** The wrong codes an address and purpose can still spend. */
  function Budget(b: Book, limit: Limit, email: string, purpose: Purpose): nat {
    var open := Open(b, email, purpose);
    if open.Some? && b.rows[open.value].attempts < limit then limit - b.rows[open.value].attempts else 0
  }

  /** The open row is closed, or the same with at least `n` more attempts. */
  predicate Spent(b: Book, m: Book, email: string, purpose: Purpose, n: nat) {
    var before, after := Open(b, email, purpose), Open(m, email, purpose);
    after.Some? ==> before == after && b.rows[after.value].attempts + n <= m.rows[after.value].attempts
  }

  lemma SpentBudget(b: Book, m: Book, limit: Limit, email: string, purpose: Purpose, n: nat)
    requires Spent(b, m, email, purpose, n) && n <= Budget(b, limit, email, purpose)
    ensures Budget(m, limit, email, purpose) + n <= Budget(b, limit, email, purpose)
  {
    hide Newest;
  }

  /** A step that writes at most the open row, and leaves it closed or with more attempts. */
  lemma RowSpent(b: Book, m: Book, limit: Limit, email: string, purpose: Purpose, n: nat)
    requires Sound(b, limit) && m.rows.Keys == b.rows.Keys
    requires forall i :: i in b.rows && Some(i) != Open(b, email, purpose) ==> m.rows[i] == b.rows[i]
    requires var open := Open(b, email, purpose);
      open.Some? ==> m.rows[open.value].consumedAt.Some?
                     || b.rows[open.value].attempts + n <= m.rows[open.value].attempts
    ensures Spent(b, m, email, purpose, n)
  {
    hide Sound;
    var after := Open(m, email, purpose);
    if after.Some? && Some(after.value) != Open(b, email, purpose) {
      TheOpenRow(b, limit, email, purpose, after.value);
      assert false;
    }
  }

  /** What a check writes: nothing but the open row, and nothing at all if it finds the code right. */
  lemma CheckWrites(b: Book, limit: Limit, email: string, purpose: Purpose, code: string, now: int)
    ensures var (m, id) := Check(b, limit, email, purpose, code, now);
      var open := Open(b, email, purpose);
      && m.rows.Keys == b.rows.Keys
      && (forall i :: i in b.rows && Some(i) != open ==> m.rows[i] == b.rows[i])
      && (id.Some? ==> id == open && m.rows == b.rows)
      && (open.Some? && id.None? ==>
            var r := b.rows[open.value];
            && (m.rows[open.value].consumedAt.Some? || m.rows[open.value].attempts == r.attempts + 1)
            && !(now < r.expiresAt && r.attempts < limit && Right(r.code, code)))
      && (open.Some? && id.Some? ==> Right(b.rows[open.value].code, code))
  {
    hide Newest, Right;
  }

  lemma CheckSpends(b: Book, limit: Limit, email: string, purpose: Purpose, s: Step, now: int)
    requires Sound(b, limit)
    requires match s
      case Consuming(e, p, code) => e == email && p == purpose
      case VerifyingReset(e, code) => e == email && purpose == PasswordReset
      case ResettingByCode(e, code, same) => e == email && purpose == PasswordReset
      case SigningUp(e, code, laterFails) => e == email && purpose == Signup
      case _ => false
    ensures Spent(b, Take(b, limit, s, now), email, purpose, if Counts(b, limit, email, purpose, s, now) then 1 else 0)
  {
    hide Right, Sound, Newest, Check, Spent;
    var code := if s.Consuming? || s.VerifyingReset? || s.ResettingByCode? || s.SigningUp? then s.code else "";
    CheckWrites(b, limit, email, purpose, code, now);
    var n := if Counts(b, limit, email, purpose, s, now) then 1 else 0;
    RowSpent(b, Take(b, limit, s, now), limit, email, purpose, n);
  }

  lemma RedeemSpends(b: Book, limit: Limit, token: Token, genuine: bool, same: bool, now: int)
    requires Sound(b, limit)
    ensures Spent(b, ResetWithToken(b, token, genuine, same, now).0, token.email, PasswordReset, 0)
  {
    hide Sound;
    if Redeemable(b, token, now) { TheOpenRow(b, limit, token.email, PasswordReset, token.id); }
    RowSpent(b, ResetWithToken(b, token, genuine, same, now).0, limit, token.email, PasswordReset, 0);
  }

  lemma PurgeSpends(b: Book, limit: Limit, email: string, purpose: Purpose, emails: set<string>)
    requires Sound(b, limit)
    ensures Spent(b, Purge(b, emails), email, purpose, 0)
  {
    hide Sound;
    var after := Open(Purge(b, emails), email, purpose);
    if after.Some? { TheOpenRow(b, limit, email, purpose, after.value); }
  }

  lemma BudgetStep(b: Book, limit: Limit, email: string, purpose: Purpose, s: Step, now: int)
    requires Sound(b, limit)
    ensures Budget(Take(b, limit, s, now), limit, email, purpose)
            + (if Counts(b, limit, email, purpose, s, now) then 1 else 0)
            <= Budget(b, limit, email, purpose) + (if Issues(b, email, purpose, s, now) then limit else 0)
  {
    hide Sound, Right, Take, Spent;
    var open := Open(b, email, purpose);
    var issued := if open.Some? then b.rows[open.value].code else "";
    var m, n := Take(b, limit, s, now), if Counts(b, limit, email, purpose, s, now) then 1 else 0;
    if Elsewhere(s, email, purpose, issued) {
      ElsewhereStep(b, limit, email, purpose, issued, s, now);
      CountedIsSpent(b, m, email, purpose);
      SpentBudget(b, m, limit, email, purpose, 0);
    } else if s.Issuing? {
      IssueBudget(b, limit, email, purpose, s, now);
    } else {
      HereSpends(b, limit, email, purpose, s, now);
      SpentBudget(b, m, limit, email, purpose, n);
    }
  }

  lemma CountedIsSpent(b: Book, m: Book, email: string, purpose: Purpose)
    requires OnlyCounted(b, m, email, purpose, 0)
    ensures Spent(b, m, email, purpose, 0)
  {
  }

  lemma IssueBudget(b: Book, limit: Limit, email: string, purpose: Purpose, s: Step, now: int)
    requires s.Issuing? && s.email == email && s.purpose == purpose
    ensures Budget(Take(b, limit, s, now), limit, email, purpose)
            <= Budget(b, limit, email, purpose) + (if Issues(b, email, purpose, s, now) then limit else 0)
  {
    hide Newest;
  }

  lemma HereSpends(b: Book, limit: Limit, email: string, purpose: Purpose, s: Step, now: int)
    requires Sound(b, limit) && !s.Issuing?
    requires !Elsewhere(s, email, purpose, if Open(b, email, purpose).Some?
                                           then b.rows[Open(b, email, purpose).value].code else "")
    ensures Spent(b, Take(b, limit, s, now), email, purpose, if Counts(b, limit, email, purpose, s, now) then 1 else 0)
  {
    hide Sound, Right, Spent, Newest, Check, Consume, CompleteSignup, VerifyReset, ResetWithCode;
    hide ResetWithToken, Purge;
    match s
    case RedeemingToken(token, genuine, same) => RedeemSpends(b, limit, token, genuine, same, now);
    case Purging(emails) => PurgeSpends(b, limit, email, purpose, emails);
    case _ => CheckSpends(b, limit, email, purpose, s, now);
  }

  /** In every run, with any steps in any order, the wrong codes counted for an address and purpose are at
      most the limit for each code issued to it, and what its open row still allowed at the start. */
  lemma {:induction false} WrongCodesPerIssue(b: Book, limit: Limit, email: string, purpose: Purpose,
                                              steps: seq<Timed>)
    requires Sound(b, limit)
    ensures CountedIn(b, limit, email, purpose, steps) + Budget(Run(b, limit, steps), limit, email, purpose)
            <= Budget(b, limit, email, purpose) + limit * IssuesIn(b, limit, email, purpose, steps)
    decreases |steps|
  {
    hide Take, Sound, Kept, Counts, Issues, Budget;
    if steps != [] {
      var b1 := Take(b, limit, steps[0].step, steps[0].now);
      StepKeeps(b, limit, steps[0].step, steps[0].now);
      KeptSound(b, b1, limit);
      BudgetStep(b, limit, email, purpose, steps[0].step, steps[0].now);
      WrongCodesPerIssue(b1, limit, email, purpose, steps[1..]);
      var later := IssuesIn(b1, limit, email, purpose, steps[1..]);
      assert limit * (1 + later) == limit + limit * later;
    }
  }

  /** Issuing gives the open row all its attempts back. */
  lemma IssueRestoresTheLimit(b: Book, limit: Limit, email: string, purpose: Purpose, code: string, now: int,
                              window: int, expiry: int)
    requires Sound(b, limit) && Issue(b, email, purpose, code, now, window, expiry).1
    ensures var m := Issue(b, email, purpose, code, now, window, expiry).0;
      && Open(m, email, purpose).Some? && m.rows[Open(m, email, purpose).value].attempts == 0
      && m.rows[Open(m, email, purpose).value].code == code
  {
    hide Sound;
    var m := Issue(b, email, purpose, code, now, window, expiry).0;
    IssueKeeps(b, limit, email, purpose, code, now, window, expiry);
    KeptSound(b, m, limit);
    var existing := Open(b, email, purpose);
    TheOpenRow(m, limit, email, purpose, if existing.Some? then existing.value else b.next);
  }

  // ---- Wrong codes at sign-up ----

  datatype Try = Try(code: string, now: int, laterFails: bool)

  function SignUpRepeatedly(b: Book, limit: Limit, email: string, tries: seq<Try>): Book
    decreases |tries|
  {
    if tries == [] then b
    else
      var t := tries[0];
      SignUpRepeatedly(CompleteSignup(b, limit, email, t.code, t.now, t.laterFails).0, limit, email, tries[1..])
  }

  /** "Wrong codes run out" is false of sign-up: any number of them, at any times, leave every row as it was,
      and the right code still completes the sign-up afterwards. */
  lemma {:induction false} SignupGuessesNeverRunOut(b: Book, limit: Limit, email: string, tries: seq<Try>,
                                                    right: string, now: int)
    requires Sound(b, limit) && Open(b, email, Signup).Some?
    requires var r := b.rows[Open(b, email, Signup).value];
      && now < r.expiresAt && Matches(r, right)
      && forall i :: 0 <= i < |tries| ==> !Matches(r, tries[i].code)
    ensures SignUpRepeatedly(b, limit, email, tries) == b
    ensures CompleteSignup(SignUpRepeatedly(b, limit, email, tries), limit, email, right, now, false).1
    decreases |tries|
  {
    hide Right, Sound;
    if tries == [] {
      UnderTheLimit(b, limit, email, Signup);
    } else {
      var t := tries[0];
      SignupFailuresLeaveNoTrace(b, limit, email, t.code, t.now, t.laterFails);
      WrongConsume(b, limit, email, Signup, b.rows[Open(b, email, Signup).value].code, t.code, t.now);
      SignupGuessesNeverRunOut(b, limit, email, tries[1..], right, now);
    }
  }

  lemma SignupFailuresLeaveNoTrace(b: Book, limit: Limit, email: string, code: string, now: int, laterFails: bool)
    ensures var (m, ok) := CompleteSignup(b, limit, email, code, now, laterFails);
      (ok ==> |m.uses| == |b.uses| + 1) && (!ok ==> m == b)
  {
  }

  // ---- Reset sessions ----

  /** A session is for a row, and follows its codes: issuing again suspends it, for good unless the new code is
      verified; that opens no other session but this one, which then lasts as long as the new code. */
  lemma SessionFollowsTheRow(b: Book, limit: Limit, email: string, id: nat, code: string, given: string,
                             window: int, expiry: int, issued: int, checked: int, t: int)
    requires Sound(b, limit) && Open(b, email, PasswordReset) == Some(id)
    requires Issue(b, email, PasswordReset, code, issued, window, expiry).1
    ensures var again := Issue(b, email, PasswordReset, code, issued, window, expiry).0;
      var (after, session) := VerifyReset(again, limit, email, given, checked);
      var earlier := Token(id, email);
      && !Redeemable(again, earlier, t)
      && (session.Some? <==> Right(code, given) && checked < issued + expiry)
      && (session.Some? ==> session.value == earlier)
      && (Redeemable(after, earlier, t) <==> session.Some? && t < issued + expiry)
  {
    hide Right, Sound;
    var again := Issue(b, email, PasswordReset, code, issued, window, expiry).0;
    IssueKeeps(b, limit, email, PasswordReset, code, issued, window, expiry);
    KeptSound(b, again, limit);
    TheOpenRow(again, limit, email, PasswordReset, id);
  }

  const SESSION_RUN: seq<Timed> :=
    [Timed(Issuing("ada@corper.ng", PasswordReset, "AAAAAA", 60, 600), 0),
     Timed(VerifyingReset("ada@corper.ng", "AAAAAA"), 10),
     Timed(Issuing("ada@corper.ng", PasswordReset, "BBBBBB", 60, 600), 100),
     Timed(VerifyingReset("ada@corper.ng", "BBBBBB"), 110),
     Timed(RedeemingToken(Token(0, "ada@corper.ng"), true, false), 120)]

  function Fresh(): Book { Book(map[], 0, 0, {}, []) }

  function ResetRow(code: string, at: int, verified: Option<int>, issue: nat): Row {
    Row("ada@corper.ng", PasswordReset, code, at + 600, at, 0, verified, None, issue)
  }

  /** "A session ends with its code" is false: here the session of the first code, issue 0, is redeemed after a
      second one was issued and verified, and uses that one, issue 1. */
  lemma EarlierSessionIsRedeemed(limit: Limit)
    ensures VerifyReset(Run(Fresh(), limit, SESSION_RUN[..1]), limit, "ada@corper.ng", "AAAAAA", 10).1
              == Some(Token(0, "ada@corper.ng"))
    ensures Run(Fresh(), limit, SESSION_RUN).uses == [1]
  {
    var s := SESSION_RUN;
    var b1 := Book(map[0 := ResetRow("AAAAAA", 0, None, 0)], 1, 1, {}, []);
    var b2 := Book(map[0 := ResetRow("AAAAAA", 0, Some(10), 0)], 1, 1, {0}, []);
    var b3 := Book(map[0 := ResetRow("BBBBBB", 100, None, 1)], 1, 2, {0}, []);
    var b4 := Book(map[0 := ResetRow("BBBBBB", 100, Some(110), 1)], 1, 2, {0, 1}, []);
    assert Take(Fresh(), limit, s[0].step, 0) == b1;
    assert Take(b1, limit, s[1].step, 10) == b2;
    assert Take(b2, limit, s[2].step, 100) == b3;
    assert Take(b3, limit, s[3].step, 110) == b4;
    assert Take(b4, limit, s[4].step, 120).uses == [1];
    RunFive(Fresh(), limit, s);
    RunOne(Fresh(), limit, s[..1]);
  }

  lemma RunOne(b: Book, limit: Limit, s: seq<Timed>)
    requires |s| == 1
    ensures Run(b, limit, s) == Take(b, limit, s[0].step, s[0].now)
  {
    hide Take;
    assert s[1..] == [];
  }

  lemma RunFive(b: Book, limit: Limit, s: seq<Timed>)
    requires |s| == 5
    ensures var b1 := Take(b, limit, s[0].step, s[0].now);
      var b2 := Take(b1, limit, s[1].step, s[1].now);
      var b3 := Take(b2, limit, s[2].step, s[2].now);
      var b4 := Take(b3, limit, s[3].step, s[3].now);
      Run(b, limit, s) == Take(b4, limit, s[4].step, s[4].now)
  {
    hide Take;
    var b1 := Take(b, limit, s[0].step, s[0].now);
    var b2 := Take(b1, limit, s[1].step, s[1].now);
    var b3 := Take(b2, limit, s[2].step, s[2].now);
    var b4 := Take(b3, limit, s[3].step, s[3].now);
    assert Run(b, limit, s) == Run(b1, limit, s[1..]);
    assert s[1..][1..] == s[2..] && s[2..][1..] == s[3..] && s[3..][1..] == s[4..];
    assert Run(b1, limit, s[1..]) == Run(b2, limit, s[2..]);
    assert Run(b2, limit, s[2..]) == Run(b3, limit, s[3..]);
    assert Run(b3, limit, s[3..]) == Run(b4, limit, s[4..]);
    RunOne(b4, limit, s[4..]);
  }
}
