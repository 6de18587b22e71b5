/** The one-time-code rows as the handlers update them, each method against its specification. */
module OneTimeCodeStore {
  import opened Wrappers
  import opened OneTimeCodes

  class CodeStore {
    const limit: Limit
    var rows: map<nat, Row>
    var next: nat
    var issues: nat
    ghost var presented: set<nat>
    ghost var uses: seq<nat>

    constructor (limit: Limit)
      ensures State() == Book(map[], 0, 0, {}, []) && Sound(State(), limit) && this.limit == limit
    {
      this.limit := limit;
      rows, next, issues, presented, uses := map[], 0, 0, {}, [];
    }

    ghost function State(): Book
      reads this
    {
      Book(rows, next, issues, presented, uses)
    }

    method FindOpen(email: string, purpose: Purpose) returns (r: Option<nat>)
      ensures r == Open(State(), email, purpose)
    {
      var n: nat := next;
      while n > 0
        invariant n <= next && Newest(rows, next, email, purpose) == Newest(rows, n, email, purpose)
      {
        n := n - 1;
        if n in rows && IsOpen(rows[n], email, purpose) { return Some(n); }
      }
      return None;
    }

    method IssueCode(email: string, purpose: Purpose, code: string, now: int, window: int, expiry: int)
      returns (ok: bool)
      modifies this
      ensures (State(), ok) == Issue(old(State()), email, purpose, code, now, window, expiry)
    {
      var existing := FindOpen(email, purpose);
      if existing.Some? && now - rows[existing.value].lastSentAt < window { return false; }
      var id := next;
      if existing.Some? {
        id := existing.value;
      } else {
        next := next + 1;
      }
      rows := rows[id := Row(email, purpose, code, now + expiry, now, 0, None, None, issues)];
      issues := issues + 1;
      return true;
    }

    // ---- One row ----

    method InvalidateRow(id: nat, now: int)
      requires id in rows
      modifies this`rows
      ensures State() == Invalidate(old(State()), id, now)
    {
      if rows[id].consumedAt.Some? { return; }
      rows := rows[id := rows[id].(consumedAt := Some(now))];
    }

    method RegisterFailedAttempt(id: nat, now: int)
      requires id in rows
      modifies this`rows
      ensures State() == RegisterFailed(old(State()), limit, id, now)
    {
      rows := rows[id := rows[id].(attempts := rows[id].attempts + 1)];
      if rows[id].attempts >= limit && rows[id].consumedAt.None? {
        rows := rows[id := rows[id].(consumedAt := Some(now))];
      }
    }

    method MarkRowVerified(id: nat, now: int)
      requires id in rows
      modifies this`rows
      ensures State() == MarkVerified(old(State()), id, now)
    {
      if rows[id].verifiedAt.Some? { return; }
      rows := rows[id := rows[id].(verifiedAt := Some(now))];
    }

    method MarkRowConsumed(id: nat, now: int)
      requires id in rows
      modifies this`rows, this`uses
      ensures State() == MarkConsumed(old(State()), id, now)
    {
      rows := rows[id := rows[id].(consumedAt := Some(now))];
      if rows[id].verifiedAt.None? { rows := rows[id := rows[id].(verifiedAt := Some(now))]; }
      uses := uses + [rows[id].issue];
    }

    // ---- Flows ----

    method GetValidOtp(email: string, purpose: Purpose, code: string, now: int) returns (id: Option<nat>)
      modifies this`rows, this`presented
      ensures (State(), id) == Check(old(State()), limit, email, purpose, code, now)
    {
      id := FindOpen(email, purpose);
      if id.None? { return; }
      if now >= rows[id.value].expiresAt || rows[id.value].attempts >= limit {
        InvalidateRow(id.value, now);
        return None;
      }
      if !Matches(rows[id.value], code) {
        RegisterFailedAttempt(id.value, now);
        return None;
      }
      presented := presented + {rows[id.value].issue};
    }

    method ConsumeValidOtp(email: string, purpose: Purpose, code: string, now: int) returns (ok: bool)
      modifies this`rows, this`presented, this`uses
      ensures (State(), ok) == Consume(old(State()), limit, email, purpose, code, now)
    {
      hide Check;
      var id := GetValidOtp(email, purpose, code, now);
      if id.None? { return false; }
      MarkRowVerified(id.value, now);
      MarkRowConsumed(id.value, now);
      return true;
    }

    /** The transaction: on any failure every row is as it was. */
    method CompleteSignupVerification(email: string, code: string, now: int, laterFails: bool) returns (ok: bool)
      modifies this`rows, this`presented, this`uses
      ensures (State(), ok) == CompleteSignup(old(State()), limit, email, code, now, laterFails)
    {
      hide Consume;
      var savepoint := rows;
      ok := ConsumeValidOtp(email, Signup, code, now);
      if !ok || laterFails {
        rows, presented, uses := savepoint, old(presented), old(uses);
        assert State() == old(State());
        return false;
      }
    }

    method VerifyPasswordResetCode(email: string, code: string, now: int) returns (token: Option<Token>)
      modifies this`rows, this`presented
      ensures (State(), token) == VerifyReset(old(State()), limit, email, code, now)
    {
      hide Check;
      var id := GetValidOtp(email, PasswordReset, code, now);
      if id.None? { return None; }
      token := Some(Token(id.value, rows[id.value].email));
      MarkRowVerified(id.value, now);
    }

    method ResetPasswordWithToken(token: Token, genuine: bool, samePassword: bool, now: int) returns (ok: bool)
      modifies this`rows, this`uses
      ensures (State(), ok) == ResetWithToken(old(State()), token, genuine, samePassword, now)
    {
      if !genuine { return false; }
      if token.id !in rows || !IsOpen(rows[token.id], token.email, PasswordReset) { return false; }
      if now >= rows[token.id].expiresAt || rows[token.id].verifiedAt.None? { return false; }
      if samePassword { return false; }
      MarkRowConsumed(token.id, now);
      return true;
    }

    method ResetPasswordWithCode(email: string, code: string, samePassword: bool, now: int) returns (ok: bool)
      modifies this`rows, this`presented, this`uses
      ensures (State(), ok) == ResetWithCode(old(State()), limit, email, code, samePassword, now)
    {
      hide Check;
      var id := GetValidOtp(email, PasswordReset, code, now);
      if id.None? || samePassword { return false; }
      MarkRowVerified(id.value, now);
      MarkRowConsumed(id.value, now);
      return true;
    }
  }
}
