/** Google connect attempts. Every status transition is one conditional UPDATE; the
    affected-row count decides the winner. The functions say what one statement does
    to the tables, the class performs it in place. */
module OAuthAttempts {
  import opened Common

  type Time = int
  type Id = nat
  type Cipher = string

  datatype Status = Issued | Pending | Completed | Failed

  datatype FailureCode =
    | OauthExpired | ExchangeFailed | ExchangeInterrupted | ScopeMissing | IdentityMissing | RefreshTokenMissing
    | IdTokenInvalid | IdTokenUnverifiable | ActorNotMember | AccountAlreadyConnected

  datatype Attempt = Attempt(
    user: nat, status: Status, code: Option<Cipher>, failure: Option<FailureCode>,
    connection: Option<string>, expires: Time, completedAt: Option<Time>)

  datatype Connection = Connection(access: string, refresh: string, email: string, active: bool)

  /** What a validated exchange returned: the account and its tokens. */
  datatype Exchange = Exchange(sub: string, email: string, access: string, refresh: Option<string>)

  type Attempts = map<Id, Attempt>

  /** The three CHECK constraints of the attempts table. */
  predicate Checks(a: Attempt) {
    && (a.code.Some? ==> a.status.Pending?)
    && (a.status.Failed? <==> a.failure.Some?)
    && (a.status.Completed? ==> a.connection.Some?)
  }

  predicate IsTerminal(a: Attempt) { a.status.Completed? || a.status.Failed? }

  function Fail(a: Attempt, why: FailureCode, now: Time): Attempt {
    a.(status := Failed, failure := Some(why), code := None, completedAt := Some(now))
  }

  /** Rule one: unclaimed, or claimed with its code still stored. */
  predicate Unclaimed(a: Attempt) { a.status.Issued? || (a.status.Pending? && a.code.Some?) }

  /** Rule two: an exchange in flight. */
  predicate InFlight(a: Attempt) { a.status.Pending? && a.code.None? }

  function Expire(a: Attempt, now: Time, grace: Time): Attempt {
    if Unclaimed(a) && a.expires <= now then Fail(a, OauthExpired, now)
    else if InFlight(a) && a.expires <= now - grace then Fail(a, ExchangeInterrupted, now)
    else a
  }

  function ExpireAll(t: Attempts, now: Time, grace: Time): Attempts {
    map id | id in t :: Expire(t[id], now, grace)
  }

  function PurgeAll(t: Attempts, now: Time, retention: Time): Attempts {
    map id | id in t && !(IsTerminal(t[id]) && t[id].expires <= now - retention) :: t[id]
  }

  predicate Claimable(t: Attempts, id: Id, user: nat, now: Time) {
    id in t && t[id].user == user && t[id].status.Issued? && t[id].expires > now
  }

  function Claim(t: Attempts, id: Id, user: nat, code: Cipher, now: Time): Attempts {
    if Claimable(t, id, user, now) then t[id := t[id].(status := Pending, code := Some(code))] else t
  }

  predicate Readable(t: Attempts, id: Id, now: Time) {
    id in t && t[id].status.Pending? && t[id].code.Some? && t[id].expires > now
  }

  /** The compare-and-swap's WHERE clause. */
  predicate StillThere(t: Attempts, id: Id, code: Cipher, now: Time) {
    id in t && t[id].status.Pending? && t[id].code == Some(code) && t[id].expires > now
  }

  function Take(t: Attempts, id: Id, code: Cipher, now: Time): Attempts {
    if StillThere(t, id, code, now) then t[id := t[id].(code := None)] else t
  }

  function MarkFailed(t: Attempts, id: Id, why: FailureCode, now: Time): Attempts {
    if id in t && t[id].status.Pending? then t[id := Fail(t[id], why, now)] else t
  }

  function Complete(t: Attempts, id: Id, sub: string, now: Time): Attempts
    requires id in t
  {
    t[id := t[id].(status := Completed, connection := Some(sub), code := None, completedAt := Some(now))]
  }

  // --- token refresh ---

  /** The WHERE clause of both token writes: ACTIVE, and with the refresh token that was read. */
  predicate TokenUnchanged(cs: map<string, Connection>, sub: string, seen: string) {
    sub in cs && cs[sub].active && cs[sub].refresh == seen
  }

  function RefreshTokens(cs: map<string, Connection>, sub: string, seen: string, access: string, refresh: Option<string>)
    : map<string, Connection>
  {
    if TokenUnchanged(cs, sub, seen)
    then cs[sub := cs[sub].(access := access, refresh := if refresh.Some? then refresh.value else seen)]
    else cs
  }

  function NeedReauth(cs: map<string, Connection>, sub: string, seen: string): map<string, Connection> {
    if TokenUnchanged(cs, sub, seen) then cs[sub := cs[sub].(active := false)] else cs
  }

  // --- the finish ---

  datatype Tables = Tables(attempts: Attempts, connections: map<string, Connection>, audits: nat)

  datatype FinishResult = Finished | FinishRefused | NoLongerPending | Conflict

  /** The reauthorized connection, or the failure. */
  function Reauthorize(c: Connection, x: Exchange): Result<Connection, FailureCode> {
    if x.refresh.None? && !c.active then Err(RefreshTokenMissing)
    else Ok(Connection(x.access, if x.refresh.Some? then x.refresh.value else c.refresh, x.email, true))
  }

  /** _finish_ok as one transaction. `sawConnection` is what its read found; when it
      found none, another attempt may have inserted the account since. */
  function Finish(d: Tables, id: Id, x: Exchange, member: bool, sawConnection: bool, now: Time): (Tables, FinishResult)
    requires sawConnection ==> x.sub in d.connections
  {
    if !member then (d.(attempts := MarkFailed(d.attempts, id, ActorNotMember, now)), FinishRefused)
    else
      var written :=
        if sawConnection then Reauthorize(d.connections[x.sub], x)
        else if x.refresh.None? then Err(RefreshTokenMissing)
        else Ok(Connection(x.access, x.refresh.value, x.email, true));
      if written.Err? then (d.(attempts := MarkFailed(d.attempts, id, written.error, now)), FinishRefused)
      else if !sawConnection && x.sub in d.connections then (d, Conflict)
      else if id !in d.attempts || !d.attempts[id].status.Pending? then (d, NoLongerPending)
      else (Tables(Complete(d.attempts, id, x.sub, now), d.connections[x.sub := written.value], d.audits + 1), Finished)
  }

  /** The tables, updated in place by conditional statements. */
  class OAuthStore {
    var attempts: Attempts
    var connections: map<string, Connection>
    var audits: nat

    function View(): Tables
      reads this
    {
      Tables(attempts, connections, audits)
    }

    /** filter(...).update(...) of both expire rules, row by row. */
    method ExpireAttempts(now: Time, grace: Time)
      modifies this`attempts
      ensures attempts == ExpireAll(old(attempts), now, grace)
    {
      var rest := attempts.Keys;
      while rest != {}
        invariant rest <= attempts.Keys == old(attempts).Keys
        invariant forall id :: id in attempts ==>
          attempts[id] == if id in rest then old(attempts)[id] else Expire(old(attempts)[id], now, grace)
        decreases |rest|
      {
        var id :| id in rest;
        var a := attempts[id];
        if Unclaimed(a) && a.expires <= now {
          attempts := attempts[id := Fail(a, OauthExpired, now)];
        } else if InFlight(a) && a.expires <= now - grace {
          attempts := attempts[id := Fail(a, ExchangeInterrupted, now)];
        }
        rest := rest - {id};
      }
    }

    /** ISSUED to PENDING with the code; the row count says whether this caller claimed it. */
    method CompleteGoogleOauth(id: Id, user: nat, code: Cipher, now: Time) returns (claimed: bool)
      modifies this`attempts
      ensures claimed == Claimable(old(attempts), id, user, now)
      ensures attempts == Claim(old(attempts), id, user, code, now)
    {
      claimed := false;
      if id in attempts {
        var a := attempts[id];
        if a.user == user && a.status.Issued? && a.expires > now {
          attempts := attempts[id := a.(status := Pending, code := Some(code))];
          claimed := true;
        }
      }
    }

    /** The swap half of _take_code. */
    method SwapCode(id: Id, code: Cipher, now: Time) returns (taken: bool)
      modifies this`attempts
      ensures taken == StillThere(old(attempts), id, code, now)
      ensures attempts == Take(old(attempts), id, code, now)
    {
      taken := id in attempts && attempts[id].status.Pending? && attempts[id].code == Some(code) && attempts[id].expires > now;
      if taken { attempts := attempts[id := attempts[id].(code := None)]; }
    }

    method MarkAttemptFailed(id: Id, why: FailureCode, now: Time) returns (changed: bool)
      modifies this`attempts
      ensures changed == (id in old(attempts) && old(attempts)[id].status.Pending?)
      ensures attempts == MarkFailed(old(attempts), id, why, now)
    {
      changed := id in attempts && attempts[id].status.Pending?;
      if changed { attempts := attempts[id := Fail(attempts[id], why, now)]; }
    }

    /** _finish_ok: the connection and its audit row are written first, and rolled
        back with everything else when the attempt turns out not to be PENDING. */
    method FinishOk(id: Id, x: Exchange, member: bool, sawConnection: bool, now: Time) returns (result: FinishResult)
      requires sawConnection ==> x.sub in connections
      modifies this
      ensures (View(), result) == Finish(old(View()), id, x, member, sawConnection, now)
    {
      if !member {
        var _ := MarkAttemptFailed(id, ActorNotMember, now);
        return FinishRefused;
      }
      var beforeConnections, beforeAudits := connections, audits;
      if sawConnection {
        var existing := connections[x.sub];
        if x.refresh.None? && !existing.active {
          var _ := MarkAttemptFailed(id, RefreshTokenMissing, now);
          return FinishRefused;
        }
        existing := existing.(access := x.access);
        if x.refresh.Some? { existing := existing.(refresh := x.refresh.value); }
        existing := existing.(email := x.email, active := true);
        connections := connections[x.sub := existing];
      } else {
        if x.refresh.None? {
          var _ := MarkAttemptFailed(id, RefreshTokenMissing, now);
          return FinishRefused;
        }
        if x.sub in connections { return Conflict; }
        connections := connections[x.sub := Connection(x.access, x.refresh.value, x.email, true)];
      }
      audits := audits + 1;
      if id !in attempts || !attempts[id].status.Pending? {
        connections, audits := beforeConnections, beforeAudits;
        return NoLongerPending;
      }
      attempts := Complete(attempts, id, x.sub, now);
      return Finished;
    }
  }
}
