/** When a refresh token is accepted, and what its acceptance, a refusal and a logout do to the rows,
  * over whole runs.  Conditions and numbers are written out on the rows.
  */
module RotationRuns {
  import opened Basics
  import opened RefreshTokens

  // ---- One rotation ----

  /** The members of a family that were neither used nor revoked and have not expired. */
  function Unspent(s: Sessions, family: Uuid): set<TokenHash> {
    set h | h in s.tokens && s.tokens[h].family == family
      && s.tokens[h].usedAt == None && s.tokens[h].revokedAt == None && s.now < s.tokens[h].expires
  }

  /** The token has not expired, its user is active and of the role asked for, its device is the
    * user's and not revoked, and the hash to be issued is new. */
  predicate Admissible(s: Sessions, t: Token, issued: TokenHash, role: Option<string>) {
    && s.now < t.expires
    && t.user in s.users && s.users[t.user].active && (role == None || role == Some(s.users[t.user].role))
    && t.device in s.devices && s.devices[t.device] == DeviceRow(t.user, false)
    && issued !in s.tokens
  }

  predicate Untouched(t: Token) {
    t.usedAt == None && t.revokedAt == None
  }

  /** The token was used at most thirty seconds ago and its family has one to three live members. */
  predicate Racing(s: Sessions, t: Token) {
    t.usedAt.Some? && s.now <= t.usedAt.value + 30 && 1 <= |Unspent(s, t.family)| <= 3
  }

  lemma {:induction false} UnspentAreActive(s: Sessions, family: Uuid)
    ensures Unspent(s, family) == ActiveMembers(s, family)
  {
  }

  /** A token is accepted exactly when it is admissible and either untouched or racing; it is reported
    * as reused exactly when it was touched and is not racing. */
  lemma {:induction false} RotationIsAcceptedExactly(s: Sessions, h: TokenHash, issued: TokenHash, expires: Time, role: Option<string>)
    ensures var r := RotateTx(s, h, issued, expires, role).1;
      && (h !in s.tokens ==> r == Err(InvalidToken))
      && (h in s.tokens ==>
            var t := s.tokens[h];
            && (r.Ok? <==> Admissible(s, t, issued, role) && (Untouched(t) || Racing(s, t)))
            && (r == Err(TokenReuse) <==> !Untouched(t) && !Racing(s, t))
            && (r.Ok? ==> r.value == Session(t.user, t.device, t.family)))
  {
    hide ActiveMembers, Unspent;
    if h in s.tokens {
      UnspentAreActive(s, s.tokens[h].family);
    }
  }

  /** The refusals, first the first: of a token neither reused nor unknown, and of a login. */
  lemma {:induction false} SessionRefusals(s: Sessions, h: TokenHash, issued: TokenHash, expires: Time, role: Option<string>,
      user: Uuid, device: Uuid)
    ensures h in s.tokens && (Untouched(s.tokens[h]) || Racing(s, s.tokens[h])) ==>
      var t := s.tokens[h]; var r := RotateTx(s, h, issued, expires, role).1;
      if s.now >= t.expires then r == Err(InvalidToken)
      else if t.user !in s.users then r == Err(UserNotFound)
      else if !s.users[t.user].active then r == Err(AccountDisabled)
      else if role.Some? && role.value != s.users[t.user].role then r == Err(InvalidToken)
      else if t.device !in s.devices || s.devices[t.device].owner != t.user then r == Err(InvalidToken)
      else if s.devices[t.device].revoked then r == Err(DeviceRevoked)
      else issued in s.tokens ==> r == Err(DatabaseError)
    ensures
      var r := LoginTx(s, user, device, issued, expires).1;
      if user !in s.users then r == Err(UserNotFound)
      else if !s.users[user].active then r == Err(AccountDisabled)
      else if device in s.devices && s.devices[device].owner != user then r == Err(UserNotFound)
      else if device in s.devices && s.devices[device].revoked then r == Err(DeviceRevoked)
      else issued in s.tokens ==> r == Err(DatabaseError)
  {
    hide ActiveMembers, Unspent;
    if h in s.tokens {
      UnspentAreActive(s, s.tokens[h].family);
    }
  }

  /** The row as it is, or revoked now if it is selected and was not revoked before. */
  function MarkedIf(selected: bool, t: Token, now: Time): Token {
    if selected && t.revokedAt == None then t.(revokedAt := Some(now)) else t
  }

  /** An accepted rotation adds one live member to the family and touches no row but the presented
    * one, which it marks used now unless it already was; detected reuse revokes the family, keeping
    * every earlier mark; any other refusal changes nothing. */
  lemma {:induction false} RotationWrites(s: Sessions, h: TokenHash, issued: TokenHash, expires: Time, role: Option<string>)
    ensures var r := RotateTx(s, h, issued, expires, role);
      && r.0 == s.(tokens := r.0.tokens)
      && (r.1.Ok? ==>
            var t := s.tokens[h];
            && r.0.tokens.Keys == s.tokens.Keys + {issued} && issued !in s.tokens
            && r.0.tokens[issued] == Token(t.user, t.device, t.family, expires, None, None)
            && r.0.tokens[h] == (if Untouched(t) then t.(usedAt := Some(s.now), revokedAt := Some(s.now)) else t)
            && (forall k :: k in s.tokens && k != h ==> r.0.tokens[k] == s.tokens[k]))
      && (r.1 == Err(TokenReuse) ==>
            && h in s.tokens && r.0.tokens.Keys == s.tokens.Keys
            && (forall k :: k in s.tokens ==>
                  r.0.tokens[k] == MarkedIf(s.tokens[k].family == s.tokens[h].family, s.tokens[k], s.now)))
      && (r.1.Err? && r.1 != Err(TokenReuse) ==> r.0 == s)
  {
    hide InGrace;
  }

  // ---- Logins and logouts ----

  /** A login is accepted exactly for an active user on a device that is new or the user's own and
    * unrevoked; it opens a family no token has had, with the one token it issues. */
  lemma {:induction false} LoginIsAcceptedExactly(s: Sessions, user: Uuid, device: Uuid, issued: TokenHash, expires: Time)
    requires FamiliesOk(s)
    ensures var r := LoginTx(s, user, device, issued, expires);
      && (r.1.Ok? <==>
            user in s.users && s.users[user].active && issued !in s.tokens
            && (device in s.devices ==> s.devices[device] == DeviceRow(user, false)))
      && (r.1.Err? ==> r.0 == s)
      && (r.1.Ok? ==>
            && r.1.value == Session(user, device, s.nextId)
            && (forall k :: k in s.tokens ==> s.tokens[k].family != s.nextId)
            && r.0.tokens == s.tokens[issued := Token(user, device, s.nextId, expires, None, None)]
            && device in r.0.devices && r.0.devices[device] == DeviceRow(user, false)
            && (forall d :: d in s.devices ==> d in r.0.devices && r.0.devices[d] == s.devices[d])
            && r.0.users == s.users)
  {
  }

  /** A logout or revocation marks the untouched rows it selects and no others. */
  lemma {:induction false} RevocationWrites(s: Sessions, user: Uuid, device: Option<Uuid>)
    ensures var u := RevokeTx(s, user, device);
      && u == s.(tokens := u.tokens) && u.tokens.Keys == s.tokens.Keys
      && (forall k :: k in s.tokens ==>
            u.tokens[k] == MarkedIf(s.tokens[k].user == user && (device == None || device == Some(s.tokens[k].device)),
                                    s.tokens[k], s.now))
  {
  }

  // ---- A racing request, over runs ----

  /** Row `h` is still `row`, or its whole family is gone. */
  ghost predicate RowStays(s: Sessions, h: TokenHash, row: Token) {
    && HeldBy(s, row.family, row.user, row.device)
    && (|| (h in s.tokens && s.tokens[h] == row)
        || (forall k :: k in s.tokens ==> s.tokens[k].family != row.family))
  }

  lemma {:induction false} UsedRowStays(s: Sessions, e: Event, h: TokenHash, row: Token)
    requires RowStays(s, h, row) && row.revokedAt.Some? && row.usedAt.Some?
    ensures RowStays(Next(s, e), h, row)
  {
    hide InGrace, Admit;
    HolderStays(s, e, row.family, row.user, row.device);
    match e
    case Rotate(presented, issued, expires, role) => RotationWrites(s, presented, issued, expires, role);
    case _ =>
  }

  lemma {:induction false} UsedRowStaysForever(s: Sessions, more: seq<Event>, h: TokenHash, row: Token)
    requires RowStays(s, h, row) && row.revokedAt.Some? && row.usedAt.Some?
    ensures RowStays(Run(s, more), h, row)
  {
    hide RowStays, Next;
    if more != [] {
      UsedRowStaysForever(s, more[..|more| - 1], h, row);
      UsedRowStays(Run(s, more[..|more| - 1]), more[|more| - 1], h, row);
    }
  }

  /** After an accepted rotation of an untouched token, presenting it again within thirty seconds while
    * its family has one to three live members is accepted for the same session, if the token is still
    * admissible; after thirty seconds it is reuse.  Whatever happened in between is of no account. */
  lemma {:induction false} RacingRequestIsAccepted(s0: Sessions, events: seq<Event>, h: TokenHash, issued: TokenHash, expires: Time,
      role: Option<string>, more: seq<Event>, issued': TokenHash, expires': Time, role': Option<string>)
    requires s0.tokens == map[]
    requires var s := Run(s0, events);
      RotateTx(s, h, issued, expires, role).1.Ok? && h in s.tokens && Untouched(s.tokens[h])
    requires var s := Run(s0, events); var u := Run(Next(s, Rotate(h, issued, expires, role)), more);
      h in u.tokens && u.tokens[h].family == s.tokens[h].family
    ensures var s := Run(s0, events); var u := Run(Next(s, Rotate(h, issued, expires, role)), more); var t := s.tokens[h];
      var r := RotateTx(u, h, issued', expires', role').1;
      && (u.now <= s.now + 30 && 1 <= |Unspent(u, t.family)| <= 3 && Admissible(u, t, issued', role') ==>
            r == Ok(Session(t.user, t.device, t.family)) && r == RotateTx(s, h, issued, expires, role).1)
      && (u.now > s.now + 30 ==> r == Err(TokenReuse))
  {
    hide Run, FamiliesOk, RotateTx, HeldBy, Unspent;
    var s := Run(s0, events);
    var t := s.tokens[h];
    var row := t.(usedAt := Some(s.now), revokedAt := Some(s.now));
    RunKeepsFamilies(s0, events);
    var after := Next(s, Rotate(h, issued, expires, role));
    RotationWrites(s, h, issued, expires, role);
    HolderOf(s, h);
    HolderStays(s, Rotate(h, issued, expires, role), t.family, t.user, t.device);
    UsedRowStaysForever(after, more, h, row);
    RotationIsAcceptedExactly(s, h, issued, expires, role);
    RotationIsAcceptedExactly(Run(after, more), h, issued', expires', role');
  }

  lemma {:induction false} HolderOf(s: Sessions, h: TokenHash)
    requires FamiliesOk(s) && h in s.tokens
    ensures HeldBy(s, s.tokens[h].family, s.tokens[h].user, s.tokens[h].device)
  {
  }
}
