/** What each one-time-code step does to the rows, exactly, and when it succeeds. */
module OneTimeCodeEffects {
  import opened Wrappers
  import opened OneTimeCodes

  /** Row `id` is written, and nothing else about the rows. */
  predicate OnlyRow(b: Book, m: Book, id: nat, r: Row) {
    m.rows == b.rows[id := r] && m.issues == b.issues
  }

  /** The open row, if it is in time and under the limit and this is its code. */
  predicate CodeHolds(b: Book, limit: Limit, email: string, purpose: Purpose, code: string, now: int) {
    var open := Open(b, email, purpose);
    && open.Some? && now < b.rows[open.value].expiresAt && b.rows[open.value].attempts < limit
    && |code| == 6 && (forall i :: 0 <= i < 6 ==> Alphanumeric(code[i])) && code == b.rows[open.value].code
  }

  // ---- Issuing ----

  /** A request inside the window is refused and changes nothing. Any other fills the open row anew, or a new
      one: this code, in force until `expiry` from now, no attempts, neither verified nor consumed. */
  lemma IssueDoes(b: Book, email: string, purpose: Purpose, code: string, now: int, window: int, expiry: int)
    ensures var (m, ok) := Issue(b, email, purpose, code, now, window, expiry);
      var open := Open(b, email, purpose);
      && (!ok <==> open.Some? && now - b.rows[open.value].lastSentAt < window)
      && (!ok ==> m == b)
      && (ok ==>
            var id := if open.Some? then open.value else b.next;
            && OnlyRow(b, m.(issues := b.issues), id, m.rows[id]) && id in m.rows
            && m.rows[id].email == email && m.rows[id].purpose == purpose && m.rows[id].code == code
            && m.rows[id].expiresAt == now + expiry && m.rows[id].lastSentAt == now && m.rows[id].attempts == 0
            && m.rows[id].verifiedAt.None? && m.rows[id].consumedAt.None?
            && m.next == b.next + (if open.Some? then 0 else 1))
      && m.presented == b.presented && m.uses == b.uses
  {
    hide Newest;
  }

  // ---- Checking ----

  /** Without an open row nothing happens. One out of time or attempts is closed now. A wrong code is one more
      attempt, and closes the row now if that reaches the limit. A right code writes nothing. */
  lemma CheckDoes(b: Book, limit: Limit, email: string, purpose: Purpose, code: string, now: int)
    ensures var (m, found) := Check(b, limit, email, purpose, code, now);
      var open := Open(b, email, purpose);
      && m.uses == b.uses && m.next == b.next && m.issues == b.issues
      && (found.Some? <==> CodeHolds(b, limit, email, purpose, code, now))
      && (found.Some? ==> found == open && m.rows == b.rows && m.presented == b.presented + {b.rows[open.value].issue})
      && (found.None? ==> m.presented == b.presented)
      && (open.None? ==> m == b)
      && (open.Some? && found.None? ==>
            var r := b.rows[open.value];
            OnlyRow(b, m, open.value,
                    if now >= r.expiresAt || r.attempts >= limit then r.(consumedAt := Some(now))
                    else if r.attempts + 1 >= limit then r.(attempts := r.attempts + 1, consumedAt := Some(now))
                    else r.(attempts := r.attempts + 1)))
  {
    hide Newest;
  }

  /** Consuming succeeds exactly when the code holds, and then the row is consumed now, verified by now, and
      used; otherwise the check is all. */
  lemma ConsumeDoes(b: Book, limit: Limit, email: string, purpose: Purpose, code: string, now: int)
    ensures var (m, ok) := Consume(b, limit, email, purpose, code, now);
      && (ok <==> CodeHolds(b, limit, email, purpose, code, now))
      && (!ok ==> m == Check(b, limit, email, purpose, code, now).0)
      && (ok ==> IsUsed(b, m, Open(b, email, purpose).value, now))
  {
    hide Newest, Check;
    CheckDoes(b, limit, email, purpose, code, now);
  }

  predicate IsUsed(b: Book, m: Book, id: nat, now: int) {
    && id in b.rows
    && var r := b.rows[id];
    && OnlyRow(b, m, id, r.(consumedAt := Some(now),
                            verifiedAt := if r.verifiedAt.Some? then r.verifiedAt else Some(now)))
    && m.uses == b.uses + [b.rows[id].issue] && m.next == b.next
  }

  /** Sign-up succeeds exactly when the code holds and nothing later fails; a failure changes nothing at all. */
  lemma CompleteSignupDoes(b: Book, limit: Limit, email: string, code: string, now: int, laterFails: bool)
    ensures var (m, ok) := CompleteSignup(b, limit, email, code, now, laterFails);
      && (ok <==> CodeHolds(b, limit, email, Signup, code, now) && !laterFails)
      && (!ok ==> m == b)
      && (ok ==> IsUsed(b, m, Open(b, email, Signup).value, now))
  {
    hide Newest, Consume;
    ConsumeDoes(b, limit, email, Signup, code, now);
  }

  // ---- Resetting a password ----

  /** A session opens exactly when the code holds; it names the row, which is verified by now and not used. */
  lemma VerifyResetDoes(b: Book, limit: Limit, email: string, code: string, now: int)
    ensures var (m, session) := VerifyReset(b, limit, email, code, now);
      var open := Open(b, email, PasswordReset);
      && (session.Some? <==> CodeHolds(b, limit, email, PasswordReset, code, now))
      && (session.None? ==> m == Check(b, limit, email, PasswordReset, code, now).0)
      && (session.Some? ==>
            && session.value == Token(open.value, email) && m.uses == b.uses
            && OnlyRow(b, m, open.value,
                       b.rows[open.value].(verifiedAt := if b.rows[open.value].verifiedAt.Some?
                                                         then b.rows[open.value].verifiedAt else Some(now))))
  {
    hide Newest, Check;
    CheckDoes(b, limit, email, PasswordReset, code, now);
    var open := Open(b, email, PasswordReset);
    assert open.Some? ==> b.rows == b.rows[open.value := b.rows[open.value]];
  }

  /** A session is redeemed exactly when it is genuine, the password is a new one, and its row is a verified,
      open reset row of its address, in time; otherwise nothing changes. */
  lemma RedeemDoes(b: Book, token: Token, genuine: bool, samePassword: bool, now: int)
    ensures var (m, ok) := ResetWithToken(b, token, genuine, samePassword, now);
      && (ok <==>
            && genuine && !samePassword && token.id in b.rows
            && b.rows[token.id].email == token.email && b.rows[token.id].purpose == PasswordReset
            && b.rows[token.id].consumedAt.None? && b.rows[token.id].verifiedAt.Some?
            && now < b.rows[token.id].expiresAt)
      && (!ok ==> m == b)
      && (ok ==> IsUsed(b, m, token.id, now) && m.presented == b.presented)
  {
  }

  /** A code resets the password exactly when it holds and the password is a new one; a right code for the
      password already set writes nothing. */
  lemma ResetWithCodeDoes(b: Book, limit: Limit, email: string, code: string, samePassword: bool, now: int)
    ensures var (m, ok) := ResetWithCode(b, limit, email, code, samePassword, now);
      && (ok <==> CodeHolds(b, limit, email, PasswordReset, code, now) && !samePassword)
      && (ok ==> IsUsed(b, m, Open(b, email, PasswordReset).value, now))
      && (!ok ==> m == Check(b, limit, email, PasswordReset, code, now).0)
      && (!ok && CodeHolds(b, limit, email, PasswordReset, code, now) ==> m.rows == b.rows && m.uses == b.uses)
  {
    hide Newest, Check;
    CheckDoes(b, limit, email, PasswordReset, code, now);
  }

  /** A purge deletes exactly the sign-up rows of the addresses. */
  lemma PurgeDoes(b: Book, emails: set<string>)
    ensures var m := Purge(b, emails);
      && (forall id :: id in m.rows <==> id in b.rows && !(b.rows[id].email in emails && b.rows[id].purpose == Signup))
      && (forall id :: id in m.rows ==> m.rows[id] == b.rows[id])
      && m.(rows := b.rows) == b
  {
  }
}
