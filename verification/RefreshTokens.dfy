/** Refresh-token families: rotation with a grace window, reuse detection and revocation.
  *
  * Every call is one atomic step, and one reading of the clock serves the whole call.
  */
module RefreshTokens {
  import opened Basics

  const GRACE_SECONDS: int := 30
  const FAMILY_ACTIVE_LIMIT: int := 4

  type TokenHash = string

  /** A row of `refresh_tokens`, apart from its unique hash. */
  datatype Token = Token(
    user: Uuid,
    device: Uuid,
    family: Uuid,
    expires: Time,
    usedAt: Option<Time>,
    revokedAt: Option<Time>)

  datatype User = User(active: bool, role: string)

  datatype DeviceRow = DeviceRow(owner: Uuid, revoked: bool)

  /** `nextId` is the source of family identifiers. */
  datatype Sessions = Sessions(
    now: Time,
    nextId: nat,
    tokens: map<TokenHash, Token>,
    users: map<Uuid, User>,
    devices: map<Uuid, DeviceRow>)

  datatype Session = Session(user: Uuid, device: Uuid, family: Uuid)

  datatype SessionError = InvalidToken | TokenReuse | UserNotFound | AccountDisabled | DeviceRevoked | DatabaseError

  // ---- Families ----

  predicate Live(t: Token, now: Time) {
    t.usedAt.None? && t.revokedAt.None? && t.expires > now
  }

  /** The members of a family that could be rotated outright. */
  function ActiveMembers(s: Sessions, family: Uuid): set<TokenHash> {
    set h | h in s.tokens && s.tokens[h].family == family && Live(s.tokens[h], s.now)
  }

  function Revoked(t: Token, now: Time): Token {
    t.(revokedAt := if t.revokedAt.Some? then t.revokedAt else Some(now))
  }

  function RevokeFamily(s: Sessions, family: Uuid): Sessions {
    s.(tokens := map h | h in s.tokens :: if s.tokens[h].family == family then Revoked(s.tokens[h], s.now) else s.tokens[h])
  }

  // ---- Calls ----

  /** The guards a rotation of a current token passes before it writes. */
  function Admit(s: Sessions, t: Token, role: Option<string>): Option<SessionError> {
    if t.expires <= s.now then Some(InvalidToken)
    else if t.user !in s.users then Some(UserNotFound)
    else if !s.users[t.user].active then Some(AccountDisabled)
    else if role.Some? && s.users[t.user].role != role.value then Some(InvalidToken)
    else if t.device !in s.devices || s.devices[t.device].owner != t.user then Some(InvalidToken)
    else if s.devices[t.device].revoked then Some(DeviceRevoked)
    else None
  }

  predicate Spent(t: Token) {
    t.usedAt.Some? || t.revokedAt.Some?
  }

  /** A spent token that a racing request may still rotate. */
  predicate InGrace(s: Sessions, t: Token) {
    && t.usedAt.Some? && s.now - t.usedAt.value <= GRACE_SECONDS
    && 0 < |ActiveMembers(s, t.family)| < FAMILY_ACTIVE_LIMIT
  }

  /** The replacement joins the family; unless this is a grace rotation, the presented token is spent. */
  function Rotated(s: Sessions, presented: TokenHash, issued: TokenHash, expires: Time): Sessions
    requires presented in s.tokens
  {
    var t := s.tokens[presented];
    var kept := if Spent(t) then s.tokens else s.tokens[presented := t.(usedAt := Some(s.now), revokedAt := Some(s.now))];
    s.(tokens := kept[issued := Token(t.user, t.device, t.family, expires, None, None)])
  }

  function RotateTx(s: Sessions, presented: TokenHash, issued: TokenHash, expires: Time, role: Option<string>)
    : (Sessions, Result<Session, SessionError>)
  {
    if presented !in s.tokens then (s, Err(InvalidToken))
    else
      var t := s.tokens[presented];
      if Spent(t) && !InGrace(s, t) then (RevokeFamily(s, t.family), Err(TokenReuse))
      else if Admit(s, t, role).Some? then (s, Err(Admit(s, t, role).value))
      else if issued in s.tokens then (s, Err(DatabaseError))
      else (Rotated(s, presented, issued, expires), Ok(Session(t.user, t.device, t.family)))
  }

  /** `create_login_session`: a login opens a new family. */
  function LoginTx(s: Sessions, user: Uuid, device: Uuid, issued: TokenHash, expires: Time): (Sessions, Result<Session, SessionError>) {
    if user !in s.users then (s, Err(UserNotFound))
    else if !s.users[user].active then (s, Err(AccountDisabled))
    else if device in s.devices && s.devices[device].owner != user then (s, Err(UserNotFound))
    else if device in s.devices && s.devices[device].revoked then (s, Err(DeviceRevoked))
    else if issued in s.tokens then (s, Err(DatabaseError))
    else
      (s.(devices := if device in s.devices then s.devices else s.devices[device := DeviceRow(user, false)],
          tokens := s.tokens[issued := Token(user, device, s.nextId, expires, None, None)],
          nextId := s.nextId + 1),
       Ok(Session(user, device, s.nextId)))
  }

  /** Logout, device revocation, password change and account suspension revoke what they select. */
  function RevokeTx(s: Sessions, user: Uuid, device: Option<Uuid>): Sessions {
    s.(tokens := map h | h in s.tokens ::
      if s.tokens[h].user == user && (device.Some? ==> s.tokens[h].device == device.value)
      then Revoked(s.tokens[h], s.now) else s.tokens[h])
  }

  /** The tables behind the sessions. */
  class Store {
    var now: Time
    var nextId: nat
    var tokens: map<TokenHash, Token>
    var users: map<Uuid, User>
    var devices: map<Uuid, DeviceRow>

    ghost function Contents(): Sessions
      reads this
    {
      Sessions(now, nextId, tokens, users, devices)
    }

    constructor (users: map<Uuid, User>)
      ensures Contents() == Sessions(0, 0, map[], users, map[])
    {
      now, nextId, tokens, this.users, devices := 0, 0, map[], users, map[];
    }

    /** `rotate_refresh_token_inner`. */
    method Rotate(presented: TokenHash, issued: TokenHash, expires: Time, role: Option<string>)
      returns (r: Result<Session, SessionError>)
      modifies this`tokens
      ensures (Contents(), r) == RotateTx(old(Contents()), presented, issued, expires, role)
    {
      if presented !in tokens {
        return Err(InvalidToken);
      }
      var token := tokens[presented];
      var grace := false;
      if token.usedAt.Some? || token.revokedAt.Some? {
        var inWindow := token.usedAt.Some? && now - token.usedAt.value <= GRACE_SECONDS;
        var healthy := false;
        if inWindow {
          var active := |set h | h in tokens && tokens[h].family == token.family && Live(tokens[h], now)|;
          assert active == |ActiveMembers(Contents(), token.family)|;
          healthy := 0 < active < FAMILY_ACTIVE_LIMIT;
        }
        if healthy {
          grace := true;
        } else {
          tokens := map h | h in tokens ::
            if tokens[h].family == token.family then Revoked(tokens[h], now) else tokens[h];
          return Err(TokenReuse);
        }
      }
      if token.expires <= now {
        return Err(InvalidToken);
      }
      if token.user !in users {
        return Err(UserNotFound);
      }
      if !users[token.user].active {
        return Err(AccountDisabled);
      }
      if role.Some? && users[token.user].role != role.value {
        return Err(InvalidToken);
      }
      if token.device !in devices || devices[token.device].owner != token.user {
        return Err(InvalidToken);
      }
      if devices[token.device].revoked {
        return Err(DeviceRevoked);
      }
      var kept := tokens;
      if !grace {
        kept := kept[presented := token.(usedAt := Some(now), revokedAt := Some(now))];
      }
      if issued in kept {
        return Err(DatabaseError);
      }
      tokens := kept[issued := Token(token.user, token.device, token.family, expires, None, None)];
      return Ok(Session(token.user, token.device, token.family));
    }

    /** `create_login_session`. */
    method Login(user: Uuid, device: Uuid, issued: TokenHash, expires: Time) returns (r: Result<Session, SessionError>)
      modifies this
      ensures (Contents(), r) == LoginTx(old(Contents()), user, device, issued, expires)
    {
      if user !in users {
        return Err(UserNotFound);
      }
      if !users[user].active {
        return Err(AccountDisabled);
      }
      if device in devices && devices[device].owner != user {
        return Err(UserNotFound);
      }
      if device in devices && devices[device].revoked {
        return Err(DeviceRevoked);
      }
      if issued in tokens {
        return Err(DatabaseError);
      }
      if device !in devices {
        devices := devices[device := DeviceRow(user, false)];
      }
      var family := nextId;
      nextId := nextId + 1;
      tokens := tokens[issued := Token(user, device, family, expires, None, None)];
      return Ok(Session(user, device, family));
    }

    /** `logout_device` and `logout_device_by_refresh_token`, once the device is known. */
    method Logout(user: Uuid, device: Uuid)
      modifies this`tokens
      ensures Contents() == RevokeTx(old(Contents()), user, Some(device))
    {
      tokens := map h | h in tokens ::
        if tokens[h].user == user && tokens[h].device == device then Revoked(tokens[h], now) else tokens[h];
    }
  }

  // ---- Runs ----

  datatype Event =
    | Wait(seconds: nat)
    | Rotate(presented: TokenHash, issued: TokenHash, expires: Time, role: Option<string>)
    | Login(user: Uuid, device: Uuid, issued: TokenHash, expires: Time)
    | Revoke(user: Uuid, on: Option<Uuid>)
    | ChangeUsers(users: map<Uuid, User>)
    | RevokeDevice(device: Uuid)
    | ForgetUser(user: Uuid)

  function Next(s: Sessions, e: Event): Sessions {
    match e
    case Wait(seconds) => s.(now := s.now + seconds)
    case Rotate(presented, issued, expires, role) => RotateTx(s, presented, issued, expires, role).0
    case Login(user, device, issued, expires) => LoginTx(s, user, device, issued, expires).0
    case Revoke(user, on) => RevokeTx(s, user, on)
    case ChangeUsers(users) => s.(users := users)
    case RevokeDevice(device) =>
      if device in s.devices then s.(devices := s.devices[device := s.devices[device].(revoked := true)]) else s
    case ForgetUser(user) => s.(tokens := map h | h in s.tokens && s.tokens[h].user != user :: s.tokens[h])
  }

  function Run(s: Sessions, events: seq<Event>): Sessions {
    if events == [] then s else Next(Run(s, events[..|events| - 1]), events[|events| - 1])
  }

  predicate SameHolder(a: Token, b: Token) {
    a.family == b.family ==> a.user == b.user && a.device == b.device
  }

  predicate SameRow(a: Token, b: Token) {
    a.family == b.family && a.user == b.user && a.device == b.device
  }

  /** One user and device per family, at most four active members, families from the counter. */
  ghost predicate FamiliesOk(s: Sessions) {
    && (forall h :: h in s.tokens ==> s.tokens[h].family < s.nextId)
    && (forall h, k :: h in s.tokens && k in s.tokens ==> SameHolder(s.tokens[h], s.tokens[k]))
    && (forall family: Uuid :: |ActiveMembers(s, family)| <= 4)
  }

  lemma {:induction false} Fewer(a: set<TokenHash>, b: set<TokenHash>)
    requires a <= b
    ensures |a| <= |b|
  {
    assert b == a + (b - a);
  }

  /** No family gains an active member. */
  ghost predicate Shrinks(s: Sessions, u: Sessions) {
    forall family: Uuid :: ActiveMembers(u, family) <= ActiveMembers(s, family)
  }

  lemma {:induction false} ShrinkingKeeps(s: Sessions, u: Sessions)
    requires FamiliesOk(s) && Shrinks(s, u) && s.nextId <= u.nextId
    requires forall h :: h in u.tokens ==> h in s.tokens && SameRow(s.tokens[h], u.tokens[h])
    ensures FamiliesOk(u)
  {
    forall family: Uuid ensures |ActiveMembers(u, family)| <= FAMILY_ACTIVE_LIMIT {
      Fewer(ActiveMembers(u, family), ActiveMembers(s, family));
    }
  }

  /** How an accepted rotation changes the active members of the families. */
  lemma {:induction false} RotatedMembers(s: Sessions, presented: TokenHash, issued: TokenHash, expires: Time, family: Uuid)
    requires presented in s.tokens && issued !in s.tokens && s.tokens[presented].expires > s.now
    ensures var t := s.tokens[presented]; var u := Rotated(s, presented, issued, expires);
      ActiveMembers(u, family) ==
        if family != t.family then ActiveMembers(s, family)
        else (ActiveMembers(s, family) - if Spent(t) then {} else {presented}) + if expires > s.now then {issued} else {}
    ensures !Spent(s.tokens[presented]) && family == s.tokens[presented].family ==> presented in ActiveMembers(s, family)
  {
  }

  lemma {:induction false} AtMostFour(s: Sessions, family: Uuid)
    requires FamiliesOk(s)
    ensures |ActiveMembers(s, family)| <= FAMILY_ACTIVE_LIMIT
  {
  }

  /** A rotation is accepted only while its family is alive, and never lifts it above the limit. */
  lemma {:induction false} RotationIsBounded(s: Sessions, presented: TokenHash, issued: TokenHash, expires: Time, role: Option<string>)
    requires FamiliesOk(s) && RotateTx(s, presented, issued, expires, role).1.Ok?
    ensures var t := s.tokens[presented]; var r := RotateTx(s, presented, issued, expires, role);
      && presented in s.tokens && ActiveMembers(s, t.family) != {}
      && |ActiveMembers(r.0, t.family)| <= FAMILY_ACTIVE_LIMIT
      && r.1.value == Session(t.user, t.device, t.family)
      && (Spent(t) ==> t.usedAt.Some? && s.now - t.usedAt.value <= GRACE_SECONDS)
  {
    hide FamiliesOk;
    var t := s.tokens[presented];
    assert |ActiveMembers(s, t.family)| <= FAMILY_ACTIVE_LIMIT by {
      AtMostFour(s, t.family);
    }
    RotatedMembers(s, presented, issued, expires, t.family);
    hide ActiveMembers;
    var before := ActiveMembers(s, t.family);
    if Spent(t) {
      assert before - {} == before;
      assert |before + {issued}| <= |before| + 1;
    } else {
      assert |before - {presented}| == |before| - 1;
      assert |(before - {presented}) + {issued}| <= |before|;
    }
  }

  lemma {:induction false} RefusalKeeps(s: Sessions, presented: TokenHash, issued: TokenHash, expires: Time, role: Option<string>)
    requires FamiliesOk(s) && RotateTx(s, presented, issued, expires, role).1.Err?
    ensures FamiliesOk(RotateTx(s, presented, issued, expires, role).0)
  {
    hide Admit, InGrace;
    ShrinkingKeeps(s, RotateTx(s, presented, issued, expires, role).0);
  }

  lemma {:induction false} RotationKeeps(s: Sessions, presented: TokenHash, issued: TokenHash, expires: Time, role: Option<string>)
    requires FamiliesOk(s) && RotateTx(s, presented, issued, expires, role).1.Ok?
    ensures FamiliesOk(RotateTx(s, presented, issued, expires, role).0)
  {
    hide InGrace, ActiveMembers;
    RotationIsBounded(s, presented, issued, expires, role);
    var u := Rotated(s, presented, issued, expires);
    forall family: Uuid ensures |ActiveMembers(u, family)| <= FAMILY_ACTIVE_LIMIT {
      RotatedMembers(s, presented, issued, expires, family);
    }
  }

  lemma {:induction false} LoginMembers(s: Sessions, user: Uuid, device: Uuid, issued: TokenHash, expires: Time, family: Uuid)
    requires FamiliesOk(s)
    ensures ActiveMembers(LoginTx(s, user, device, issued, expires).0, family)
      <= ActiveMembers(s, family) + if family == s.nextId then {issued} else {}
    ensures family >= s.nextId ==> ActiveMembers(s, family) == {}
  {
  }

  lemma {:induction false} LoginIsBounded(s: Sessions, user: Uuid, device: Uuid, issued: TokenHash, expires: Time, family: Uuid)
    requires FamiliesOk(s)
    ensures |ActiveMembers(LoginTx(s, user, device, issued, expires).0, family)| <= FAMILY_ACTIVE_LIMIT
  {
    hide FamiliesOk, LoginTx, ActiveMembers;
    var u := LoginTx(s, user, device, issued, expires).0;
    LoginMembers(s, user, device, issued, expires, family);
    AtMostFour(s, family);
    if family == s.nextId {
      Fewer(ActiveMembers(u, family), {issued});
    } else {
      Fewer(ActiveMembers(u, family), ActiveMembers(s, family));
    }
  }

  lemma {:induction false} LoginKeeps(s: Sessions, user: Uuid, device: Uuid, issued: TokenHash, expires: Time)
    requires FamiliesOk(s)
    ensures FamiliesOk(LoginTx(s, user, device, issued, expires).0)
  {
    hide ActiveMembers;
    forall family: Uuid ensures |ActiveMembers(LoginTx(s, user, device, issued, expires).0, family)| <= FAMILY_ACTIVE_LIMIT {
      LoginIsBounded(s, user, device, issued, expires, family);
    }
  }

  lemma {:induction false} EventKeeps(s: Sessions, e: Event)
    requires FamiliesOk(s)
    ensures FamiliesOk(Next(s, e)) && s.nextId <= Next(s, e).nextId && s.now <= Next(s, e).now
  {
    hide FamiliesOk;
    match e
    case Rotate(presented, issued, expires, role) =>
      if RotateTx(s, presented, issued, expires, role).1.Ok? {
        RotationKeeps(s, presented, issued, expires, role);
      } else {
        RefusalKeeps(s, presented, issued, expires, role);
      }
    case Login(user, device, issued, expires) => LoginKeeps(s, user, device, issued, expires);
    case _ => ShrinkingKeeps(s, Next(s, e));
  }

  /** In every run each family stays on one user and device and has at most four active members. */
  lemma {:induction false} RunKeepsFamilies(s: Sessions, events: seq<Event>)
    requires s.tokens == map[]
    ensures FamiliesOk(Run(s, events)) && s.nextId <= Run(s, events).nextId
  {
    hide FamiliesOk, Next;
    if events == [] {
      NoFamilies(s);
    } else {
      RunKeepsFamilies(s, events[..|events| - 1]);
      EventKeeps(Run(s, events[..|events| - 1]), events[|events| - 1]);
    }
  }

  lemma {:induction false} NoFamilies(s: Sessions)
    requires s.tokens == map[]
    ensures FamiliesOk(s)
  {
    assert forall family: Uuid :: ActiveMembers(s, family) == {};
  }

  /** Every token of the family, present or to come, belongs to `user` on `device`. */
  ghost predicate HeldBy(s: Sessions, family: Uuid, user: Uuid, device: Uuid) {
    && family < s.nextId
    && (forall h :: h in s.tokens && s.tokens[h].family == family ==> s.tokens[h].user == user && s.tokens[h].device == device)
  }

  lemma {:induction false} HolderStays(s: Sessions, e: Event, family: Uuid, user: Uuid, device: Uuid)
    requires HeldBy(s, family, user, device)
    ensures HeldBy(Next(s, e), family, user, device)
  {
    hide InGrace, Admit;
  }

  lemma {:induction false} HolderStaysForever(s: Sessions, more: seq<Event>, family: Uuid, user: Uuid, device: Uuid)
    requires HeldBy(s, family, user, device)
    ensures HeldBy(Run(s, more), family, user, device)
  {
    hide HeldBy, Next;
    if more != [] {
      HolderStaysForever(s, more[..|more| - 1], family, user, device);
      HolderStays(Run(s, more[..|more| - 1]), more[|more| - 1], family, user, device);
    }
  }

  /** A family found at two moments of a run has the same user and device at both. */
  lemma {:induction false} FamilyKeepsHolder(s: Sessions, events: seq<Event>, more: seq<Event>, h: TokenHash, k: TokenHash)
    requires s.tokens == map[]
    requires var u := Run(s, events); var v := Run(u, more);
      h in u.tokens && k in v.tokens && v.tokens[k].family == u.tokens[h].family
    ensures var u := Run(s, events); var v := Run(u, more);
      v.tokens[k].user == u.tokens[h].user && v.tokens[k].device == u.tokens[h].device
  {
    hide Next, Run;
    var u := Run(s, events);
    RunKeepsFamilies(s, events);
    HolderStaysForever(u, more, u.tokens[h].family, u.tokens[h].user, u.tokens[h].device);
  }

  // ---- A dead family ----

  predicate Dead(s: Sessions, family: Uuid) {
    family < s.nextId && ActiveMembers(s, family) == {}
  }

  /** No token of a family without active members is accepted. */
  lemma {:induction false} DeadIsRefused(s: Sessions, family: Uuid, presented: TokenHash, issued: TokenHash, expires: Time, role: Option<string>)
    requires Dead(s, family) && presented in s.tokens && s.tokens[presented].family == family
    ensures RotateTx(s, presented, issued, expires, role).1.Err?
    ensures Dead(RotateTx(s, presented, issued, expires, role).0, family)
  {
    assert presented !in ActiveMembers(s, family);
    assert forall h :: h in ActiveMembers(RotateTx(s, presented, issued, expires, role).0, family) ==>
      h in ActiveMembers(s, family);
  }

  lemma {:induction false} DeadStaysDead(s: Sessions, e: Event, family: Uuid)
    requires FamiliesOk(s) && Dead(s, family)
    ensures Dead(Next(s, e), family)
  {
    match e
    case Rotate(presented, issued, expires, role) =>
      if presented in s.tokens && s.tokens[presented].family == family {
        DeadIsRefused(s, family, presented, issued, expires, role);
      } else {
        forall h | h in ActiveMembers(Next(s, e), family) ensures h in ActiveMembers(s, family) {
        }
      }
    case Login(user, device, issued, expires) => LoginMembers(s, user, device, issued, expires, family);
    case _ =>
      forall h | h in ActiveMembers(Next(s, e), family) ensures h in ActiveMembers(s, family) {
      }
  }

  /** Once a family has no active member, after reuse was detected, a logout or expiry, no token of
    * it is accepted at any later time. */
  lemma {:induction false} DeadForever(s: Sessions, events: seq<Event>, more: seq<Event>, family: Uuid,
      presented: TokenHash, issued: TokenHash, expires: Time, role: Option<string>)
    requires s.tokens == map[] && Dead(Run(s, events), family)
    ensures var u := Run(Run(s, events), more);
      && Dead(u, family)
      && (presented in u.tokens && u.tokens[presented].family == family ==> RotateTx(u, presented, issued, expires, role).1.Err?)
  {
    hide FamiliesOk, Next, Dead;
    var start := Run(s, events);
    RunKeepsFamilies(s, events);
    DeadAfter(start, more, family);
    var u := Run(start, more);
    if presented in u.tokens && u.tokens[presented].family == family {
      DeadIsRefused(u, family, presented, issued, expires, role);
    }
  }

  lemma {:induction false} DeadAfter(s: Sessions, more: seq<Event>, family: Uuid)
    requires FamiliesOk(s) && Dead(s, family)
    ensures FamiliesOk(Run(s, more)) && Dead(Run(s, more), family)
  {
    hide FamiliesOk, Next, Dead;
    if more != [] {
      DeadAfter(s, more[..|more| - 1], family);
      EventKeeps(Run(s, more[..|more| - 1]), more[|more| - 1]);
      DeadStaysDead(Run(s, more[..|more| - 1]), more[|more| - 1], family);
    }
  }

  /** Detected reuse and a logout of its device leave a family dead. */
  lemma {:induction false} ReuseKillsFamily(s: Sessions, presented: TokenHash, issued: TokenHash, expires: Time, role: Option<string>)
    requires FamiliesOk(s) && presented in s.tokens
    ensures RotateTx(s, presented, issued, expires, role).1 == Err(TokenReuse) ==>
      Dead(RotateTx(s, presented, issued, expires, role).0, s.tokens[presented].family)
    ensures Dead(RevokeTx(s, s.tokens[presented].user, Some(s.tokens[presented].device)), s.tokens[presented].family)
    ensures Spent(s.tokens[presented]) && !InGrace(s, s.tokens[presented]) ==> RotateTx(s, presented, issued, expires, role).1 == Err(TokenReuse)
  {
  }
}
