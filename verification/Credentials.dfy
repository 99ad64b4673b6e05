/**
 * First-boot setup, logins, password changes and the sessions and tokens they leave, as interleaved steps. A password
 * is checked outside the transaction, so whatever another caller commits in between is found by the second look inside it.
 */
module Credentials {
  import opened Wrappers

  type UserId = nat
  type SessionId = nat
  type TokenId = nat
  type FlightId = nat
  type Hash = nat
  type Password = string
  type Time = int

  datatype User = User(hash: Hash, active: bool)

  datatype Session = Session(user: UserId, createdAt: Time, expiresAt: Time, seenAt: Time)

  /** A code or an access or refresh token; a revoked token stays in its table. */
  datatype Grant = Grant(user: UserId, isCode: bool, revoked: bool)

  /** An attempt in flight, with the credentials it read; `at` is the step at which it read them. */
  datatype Flight =
    | Login(user: UserId, hash: Hash, active: bool, password: Password, verified: bool, ghost at: nat)
    | Change(user: UserId, keep: SessionId, hash: Hash, password: Password, verified: bool)

  /** Where a session comes from: a login that verified `password` against `hash`, read at step `at`, or the setup. */
  datatype Origin = Origin(hash: Hash, password: Password, at: nat)

  /**
   * The tables, the flights, and what the statements need of the past: the hashes and ids ever used, where each
   * session comes from, the session that the last change of each user kept, and the steps of changes and grants.
   */
  datatype World = World(
    users: map<UserId, User>,
    sessions: map<SessionId, Session>,
    grants: map<TokenId, Grant>,
    flights: map<FlightId, Flight>,
    ghost step: nat,
    ghost usedHashes: set<Hash>,
    ghost usedIds: set<SessionId>,
    ghost origins: map<SessionId, Origin>,
    ghost kept: map<UserId, SessionId>,
    ghost changedAt: map<UserId, nat>,
    ghost grantedAt: map<TokenId, nat>)

  datatype Turn =
    | Setup(u: UserId, hash: Hash, password: Password, id: SessionId, now: Time)
    | AddUser(u: UserId, hash: Hash)
    | ReadForLogin(f: FlightId, u: UserId, password: Password)
    | ReadForChange(f: FlightId, u: UserId, keep: SessionId, password: Password)
    | Verify(f: FlightId)
    | CommitLogin(f: FlightId, id: SessionId, now: Time)
    | CommitChange(f: FlightId, hash: Hash, now: Time)
    | AdminReset(u: UserId, hash: Hash)
    | AdminRevoke(u: UserId, active: bool)
    | Reactivate(u: UserId)
    | IssueGrant(t: TokenId, u: UserId, isCode: bool)
    | DropGrant(t: TokenId)
    | Touch(id: SessionId, now: Time)
    | Revoke(id: SessionId)
    | DeleteExpired(now: Time)

  const IDLE_MS := 7 * 86400000
  const ABSOLUTE_MS := 30 * 86400000

  function FoldedExpiry(createdAt: Time, now: Time): Time {
    if now + IDLE_MS < createdAt + ABSOLUTE_MS then now + IDLE_MS else createdAt + ABSOLUTE_MS
  }

  // ---- The four writes of one revocation ----

  function RevokeSessions(sessions: map<SessionId, Session>, u: UserId, keep: Option<SessionId>)
    : (left: map<SessionId, Session>)
    ensures left.Keys <= sessions.Keys
    ensures forall s :: s in left && left[s].user == u ==> Some(s) == keep
    ensures forall s :: s in sessions && (sessions[s].user != u || Some(s) == keep) ==> s in left && left[s] == sessions[s]
  {
    map s | s in sessions && (sessions[s].user != u || Some(s) == keep) :: sessions[s]
  }

  function RevokeGrants(grants: map<TokenId, Grant>, u: UserId): (left: map<TokenId, Grant>)
    ensures left.Keys <= grants.Keys
    ensures forall t :: t in left && left[t].user == u ==> !left[t].isCode && left[t].revoked
    ensures forall t :: t in grants && grants[t].user != u ==> t in left && left[t] == grants[t]
  {
    map t | t in grants && !(grants[t].user == u && grants[t].isCode) ::
      if grants[t].user == u then grants[t].(revoked := true) else grants[t]
  }

  function RevokeCredentials(w: World, u: UserId, keep: Option<SessionId>): World {
    w.(sessions := RevokeSessions(w.sessions, u, keep), grants := RevokeGrants(w.grants, u),
       kept := if keep.Some? then w.kept[u := keep.value] else w.kept - {u})
  }

  ghost function SetHash(w: World, u: UserId, hash: Hash): World
    requires u in w.users
  {
    w.(users := w.users[u := w.users[u].(hash := hash)], usedHashes := w.usedHashes + {hash},
       changedAt := w.changedAt[u := w.step])
  }

  // ---- Steps ----

  /** New hashes are salted and new session ids random, so neither was ever used before. */
  ghost predicate Enabled(w: World, verify: (Hash, Password) -> bool, t: Turn) {
    match t
    case Setup(_, hash, password, id, _) => hash !in w.usedHashes && id !in w.usedIds && verify(hash, password)
    case AddUser(u, hash) => u !in w.users && hash !in w.usedHashes
    case ReadForLogin(f, u, _) => f !in w.flights && u in w.users
    case ReadForChange(f, u, _, _) => f !in w.flights && u in w.users
    case Verify(f) => f in w.flights
    case CommitLogin(f, id, _) => f in w.flights && w.flights[f].Login? && w.flights[f].verified && id !in w.usedIds
    case CommitChange(f, hash, _) => f in w.flights && w.flights[f].Change? && w.flights[f].verified && hash !in w.usedHashes
    case AdminReset(u, hash) => u in w.users && hash !in w.usedHashes
    case AdminRevoke(u, _) => u in w.users
    case Reactivate(u) => u in w.users
    case IssueGrant(t, u, _) => t !in w.grantedAt && u in w.users
    case _ => true
  }

  ghost function Checked(flight: Flight): Flight {
    match flight
    case Login(user, hash, active, password, _, at) => Login(user, hash, active, password, true, at)
    case Change(user, keep, hash, password, _) => Change(user, keep, hash, password, true)
  }

  /** A wrong password, or at login an inactive user, ends the attempt. */
  ghost function FlightsAfter(flights: map<FlightId, Flight>, verify: (Hash, Password) -> bool, f: FlightId)
    : map<FlightId, Flight>
    requires f in flights
  {
    if verify(flights[f].hash, flights[f].password) && (flights[f].Login? ==> flights[f].active) then
      flights[f := Checked(flights[f])]
    else flights - {f}
  }

  ghost function DoVerify(w: World, verify: (Hash, Password) -> bool, f: FlightId): (w': World)
    requires f in w.flights
    ensures w'.sessions.Keys <= w.sessions.Keys
  {
    w.(flights := FlightsAfter(w.flights, verify, f))
  }

  ghost predicate MayLogIn(w: World, flight: Flight)
    requires flight.Login?
  {
    flight.user in w.users && w.users[flight.user].active && w.users[flight.user].hash == flight.hash
  }

  ghost function DoCommitLogin(w: World, f: FlightId, id: SessionId, now: Time): World
    requires f in w.flights && w.flights[f].Login?
  {
    var flight := w.flights[f];
    if MayLogIn(w, flight) then
      w.(flights := w.flights - {f}, usedIds := w.usedIds + {id},
         sessions := w.sessions[id := Session(flight.user, now, FoldedExpiry(now, now), now)],
         origins := w.origins[id := Origin(flight.hash, flight.password, flight.at)])
    else w.(flights := w.flights - {f}, usedIds := w.usedIds + {id})
  }

  ghost predicate MayChange(w: World, flight: Flight, now: Time)
    requires flight.Change?
  {
    && flight.user in w.users && w.users[flight.user].active && w.users[flight.user].hash == flight.hash
    && flight.keep in w.sessions && w.sessions[flight.keep].user == flight.user && w.sessions[flight.keep].expiresAt > now
  }

  ghost function DoCommitChange(w: World, f: FlightId, hash: Hash, now: Time): (w': World)
    requires f in w.flights && w.flights[f].Change?
    ensures w'.sessions.Keys <= w.sessions.Keys
  {
    var flight := w.flights[f];
    var landed := w.(flights := w.flights - {f});
    if MayChange(w, flight, now) then RevokeCredentials(SetHash(landed, flight.user, hash), flight.user, Some(flight.keep))
    else landed
  }

  ghost function DoAddUser(w: World, u: UserId, hash: Hash): World {
    w.(users := w.users[u := User(hash, true)], usedHashes := w.usedHashes + {hash}, changedAt := w.changedAt[u := w.step])
  }

  /** The first account and its session, unless someone else's account is there by now. */
  ghost function DoSetup(w: World, u: UserId, hash: Hash, password: Password, id: SessionId, now: Time): World {
    if w.users.Keys != {} then w
    else DoAddUser(w, u, hash).(sessions := w.sessions[id := Session(u, now, FoldedExpiry(now, now), now)],
                                usedIds := w.usedIds + {id}, origins := w.origins[id := Origin(hash, password, w.step)])
  }

  ghost function DoSetActive(w: World, u: UserId, active: bool): World
    requires u in w.users
  {
    w.(users := w.users[u := w.users[u].(active := active)])
  }

  /** The slide of a request that came at `now`; it may arrive late. */
  ghost function DoTouch(w: World, id: SessionId, now: Time): (w': World)
    ensures w'.sessions.Keys <= w.sessions.Keys
  {
    if id in w.sessions then
      var session := w.sessions[id];
      w.(sessions := w.sessions[id := session.(seenAt := now, expiresAt := FoldedExpiry(session.createdAt, now))])
    else w
  }

  ghost function DoDeleteExpired(w: World, now: Time): (w': World)
    ensures w'.sessions.Keys <= w.sessions.Keys
  {
    w.(sessions := map s | s in w.sessions && w.sessions[s].expiresAt > now :: w.sessions[s])
  }

  ghost function Effect(w: World, verify: (Hash, Password) -> bool, t: Turn): World
    requires Enabled(w, verify, t)
  {
    match t
    case Setup(u, hash, password, id, now) => DoSetup(w, u, hash, password, id, now)
    case AddUser(u, hash) => DoAddUser(w, u, hash)
    case ReadForLogin(f, u, password) =>
      w.(flights := w.flights[f := Login(u, w.users[u].hash, w.users[u].active, password, false, w.step)])
    case ReadForChange(f, u, keep, password) =>
      w.(flights := w.flights[f := Change(u, keep, w.users[u].hash, password, false)])
    case Verify(f) => DoVerify(w, verify, f)
    case CommitLogin(f, id, now) => DoCommitLogin(w, f, id, now)
    case CommitChange(f, hash, now) => DoCommitChange(w, f, hash, now)
    case AdminReset(u, hash) => RevokeCredentials(SetHash(w, u, hash), u, None)
    case AdminRevoke(u, active) => RevokeCredentials(DoSetActive(w, u, active), u, None)
    case Reactivate(u) => DoSetActive(w, u, true)
    case IssueGrant(t, u, isCode) =>
      w.(grants := w.grants[t := Grant(u, isCode, false)], grantedAt := w.grantedAt[t := w.step])
    case DropGrant(t) => w.(grants := w.grants - {t})
    case Touch(id, now) => DoTouch(w, id, now)
    case Revoke(id) => w.(sessions := w.sessions - {id})
    case DeleteExpired(now) => DoDeleteExpired(w, now)
  }

  ghost function Do(w: World, verify: (Hash, Password) -> bool, t: Turn): World
    requires Enabled(w, verify, t)
  {
    Effect(w, verify, t).(step := w.step + 1)
  }

  // ---- The invariant ----

  ghost predicate UsersFit(w: World) {
    forall u :: u in w.users ==> w.users[u].hash in w.usedHashes && u in w.changedAt && w.changedAt[u] <= w.step
  }

  /** Credentials that are still current were read after the last change. */
  ghost predicate FlightFits(w: World, verify: (Hash, Password) -> bool, flight: Flight)
    requires UsersFit(w)
  {
    && flight.hash in w.usedHashes && (flight.verified ==> verify(flight.hash, flight.password))
    && (flight.Login? ==> flight.at <= w.step)
    && (flight.Login? && flight.user in w.users && w.users[flight.user].hash == flight.hash ==>
          w.changedAt[flight.user] <= flight.at)
  }

  /** A session lasts a week from its last recorded visit, and a month in all. */
  predicate LivesShort(session: Session) {
    session.expiresAt == FoldedExpiry(session.createdAt, session.seenAt)
  }

  /** A session is the one its user's last change kept, or comes from a login that verified the current hash. */
  ghost predicate SessionFits(w: World, verify: (Hash, Password) -> bool, s: SessionId)
    requires s in w.sessions && UsersFit(w)
  {
    var u := w.sessions[s].user;
    && s in w.usedIds && u in w.users && LivesShort(w.sessions[s])
    && ((u in w.kept && w.kept[u] == s)
        || (s in w.origins && w.origins[s].hash == w.users[u].hash && w.changedAt[u] <= w.origins[s].at
            && verify(w.users[u].hash, w.origins[s].password)))
  }

  /** A code, and a token that is not revoked, was granted after the last change. */
  ghost predicate GrantFits(w: World, t: TokenId)
    requires t in w.grants && UsersFit(w)
  {
    && t in w.grantedAt && w.grants[t].user in w.users
    && (w.grants[t].isCode || !w.grants[t].revoked ==> w.changedAt[w.grants[t].user] <= w.grantedAt[t])
  }

  ghost predicate Inv(w: World, verify: (Hash, Password) -> bool) {
    && UsersFit(w)
    && (forall f :: f in w.flights ==> FlightFits(w, verify, w.flights[f]))
    && (forall s :: s in w.sessions ==> SessionFits(w, verify, s))
    && (forall t :: t in w.grants ==> GrantFits(w, t))
  }

  // ---- Every step keeps it ----

  /** What a step leaves to each user: the hash, the step of its last change and the kept session, or a change just now. */
  ghost predicate Frame(w: World, w': World) {
    && w'.step == w.step
    && forall u :: u in w'.changedAt && w'.changedAt[u] != w.step ==>
         && u in w.changedAt && w'.changedAt[u] == w.changedAt[u]
         && (u in w.users ==> u in w'.users && w'.users[u].hash == w.users[u].hash)
         && (u in w'.kept ==> u in w.kept && w.kept[u] == w'.kept[u])
  }

  ghost predicate Keeps(w: World, w': World, verify: (Hash, Password) -> bool) {
    Inv(w', verify) && Frame(w, w')
  }

  lemma AddUserKeeps(w: World, verify: (Hash, Password) -> bool, u: UserId, hash: Hash)
    requires Inv(w, verify) && u !in w.users && hash !in w.usedHashes
    ensures Keeps(w, DoAddUser(w, u, hash), verify)
  {
  }

  lemma SetupKeeps(w: World, verify: (Hash, Password) -> bool, u: UserId, hash: Hash, password: Password, id: SessionId,
                   now: Time)
    requires Inv(w, verify) && Enabled(w, verify, Setup(u, hash, password, id, now))
    ensures Keeps(w, DoSetup(w, u, hash, password, id, now), verify)
    ensures var w' := DoSetup(w, u, hash, password, id, now);
            if w.users.Keys != {} then w' == w
            else w'.users == map[u := User(hash, true)] && id in w'.sessions && w'.sessions[id].user == u && id !in w.sessions
  {
    if w.users.Keys == {} {
      AddUserKeeps(w, verify, u, hash);
      AddSessionKeeps(DoAddUser(w, u, hash), verify, id, u, now, Origin(hash, password, w.step));
    }
  }

  /** A session for someone who gave the right password at a time when it was already current. */
  lemma AddSessionKeeps(w: World, verify: (Hash, Password) -> bool, id: SessionId, u: UserId, now: Time, origin: Origin)
    requires Inv(w, verify) && id !in w.usedIds && u in w.users && w.users[u].hash == origin.hash
    requires w.changedAt[u] <= origin.at && verify(origin.hash, origin.password)
    ensures Keeps(w, w.(sessions := w.sessions[id := Session(u, now, FoldedExpiry(now, now), now)],
                        usedIds := w.usedIds + {id}, origins := w.origins[id := origin]), verify)
  {
    var w' := w.(sessions := w.sessions[id := Session(u, now, FoldedExpiry(now, now), now)],
                 usedIds := w.usedIds + {id}, origins := w.origins[id := origin]);
    forall s | s in w'.sessions
      ensures SessionFits(w', verify, s)
    {
      if s != id {
        assert SessionFits(w, verify, s);
      }
    }
  }

  lemma SetActiveKeeps(w: World, verify: (Hash, Password) -> bool, u: UserId, active: bool)
    requires Inv(w, verify) && u in w.users
    ensures Keeps(w, DoSetActive(w, u, active), verify)
  {
  }

  lemma RevokeAllKeeps(w: World, verify: (Hash, Password) -> bool, u: UserId)
    requires Inv(w, verify)
    ensures Keeps(w, RevokeCredentials(w, u, None), verify)
  {
  }

  /** Stale credentials stay stale: no flight can have read the new hash. */
  lemma SetHashFlights(w: World, verify: (Hash, Password) -> bool, u: UserId, hash: Hash)
    requires Inv(w, verify) && u in w.users && hash !in w.usedHashes
    ensures UsersFit(SetHash(w, u, hash))
    ensures forall f :: f in w.flights ==> FlightFits(SetHash(w, u, hash), verify, w.flights[f])
  {
    forall f | f in w.flights
      ensures FlightFits(SetHash(w, u, hash), verify, w.flights[f])
    {
      assert FlightFits(w, verify, w.flights[f]);
    }
  }

  lemma SetHashKeeps(w: World, verify: (Hash, Password) -> bool, u: UserId, hash: Hash, keep: Option<SessionId>)
    requires Inv(w, verify) && u in w.users && hash !in w.usedHashes
    requires keep.Some? ==> keep.value in w.sessions
    ensures Keeps(w, RevokeCredentials(SetHash(w, u, hash), u, keep), verify)
  {
    SetHashFlights(w, verify, u, hash);
    var w' := RevokeCredentials(SetHash(w, u, hash), u, keep);
    forall s | s in w'.sessions
      ensures SessionFits(w', verify, s)
    {
      assert SessionFits(w, verify, s);
    }
    forall t | t in w'.grants
      ensures GrantFits(w', t)
    {
      assert GrantFits(w, t);
    }
  }

  lemma FlightsKeep(w: World, verify: (Hash, Password) -> bool, flights: map<FlightId, Flight>)
    requires Inv(w, verify) && forall f :: f in flights ==> FlightFits(w, verify, flights[f])
    ensures Keeps(w, w.(flights := flights), verify)
  {
  }

  lemma CommitLoginKeeps(w: World, verify: (Hash, Password) -> bool, f: FlightId, id: SessionId, now: Time)
    requires Inv(w, verify) && f in w.flights && w.flights[f].Login? && w.flights[f].verified && id !in w.usedIds
    ensures Keeps(w, DoCommitLogin(w, f, id, now), verify)
  {
    var flight := w.flights[f];
    assert FlightFits(w, verify, flight);
    FlightsKeep(w, verify, w.flights - {f});
    if MayLogIn(w, flight) {
      AddSessionKeeps(w.(flights := w.flights - {f}), verify, id, flight.user, now,
                      Origin(flight.hash, flight.password, flight.at));
    } else {
      UsedIdKeeps(w.(flights := w.flights - {f}), verify, id);
    }
  }

  lemma UsedIdKeeps(w: World, verify: (Hash, Password) -> bool, id: SessionId)
    requires Inv(w, verify)
    ensures Keeps(w, w.(usedIds := w.usedIds + {id}), verify)
  {
    forall s | s in w.sessions
      ensures SessionFits(w.(usedIds := w.usedIds + {id}), verify, s)
    {
      assert SessionFits(w, verify, s);
    }
  }

  lemma CommitChangeKeeps(w: World, verify: (Hash, Password) -> bool, f: FlightId, hash: Hash, now: Time)
    requires Inv(w, verify) && f in w.flights && w.flights[f].Change? && hash !in w.usedHashes
    ensures Keeps(w, DoCommitChange(w, f, hash, now), verify)
  {
    var flight := w.flights[f];
    FlightsKeep(w, verify, w.flights - {f});
    if MayChange(w, flight, now) {
      SetHashKeeps(w.(flights := w.flights - {f}), verify, flight.user, hash, Some(flight.keep));
    }
  }

  /** Sessions may go or have their times changed. */
  lemma SessionsKeep(w: World, verify: (Hash, Password) -> bool, sessions: map<SessionId, Session>)
    requires Inv(w, verify)
    requires forall s :: s in sessions ==> s in w.sessions && sessions[s].user == w.sessions[s].user && LivesShort(sessions[s])
    ensures Keeps(w, w.(sessions := sessions), verify)
  {
    forall s | s in sessions
      ensures SessionFits(w.(sessions := sessions), verify, s)
    {
      assert SessionFits(w, verify, s);
    }
  }

  lemma IssueKeeps(w: World, verify: (Hash, Password) -> bool, t: TokenId, u: UserId, isCode: bool)
    requires Inv(w, verify) && t !in w.grantedAt && u in w.users
    ensures Keeps(w, w.(grants := w.grants[t := Grant(u, isCode, false)], grantedAt := w.grantedAt[t := w.step]), verify)
  {
  }

  lemma DropKeeps(w: World, verify: (Hash, Password) -> bool, t: TokenId)
    requires Inv(w, verify)
    ensures Keeps(w, w.(grants := w.grants - {t}), verify)
  {
  }

  lemma AdminRevokeKeeps(w: World, verify: (Hash, Password) -> bool, u: UserId, active: bool)
    requires Inv(w, verify) && u in w.users
    ensures Keeps(w, RevokeCredentials(DoSetActive(w, u, active), u, None), verify)
  {
    SetActiveKeeps(w, verify, u, active);
    RevokeAllKeeps(DoSetActive(w, u, active), verify, u);
  }

  lemma ReadKeeps(w: World, verify: (Hash, Password) -> bool, f: FlightId, flight: Flight)
    requires Inv(w, verify) && flight.user in w.users && flight.hash == w.users[flight.user].hash && !flight.verified
    requires flight.Login? ==> flight.at == w.step
    ensures Keeps(w, w.(flights := w.flights[f := flight]), verify)
  {
    FlightsKeep(w, verify, w.flights[f := flight]);
  }

  lemma VerifyKeeps(w: World, verify: (Hash, Password) -> bool, f: FlightId)
    requires Inv(w, verify) && f in w.flights
    ensures Keeps(w, DoVerify(w, verify, f), verify)
  {
    assert FlightFits(w, verify, w.flights[f]);
    FlightsKeep(w, verify, DoVerify(w, verify, f).flights);
  }

  lemma SessionStepKeeps(w: World, verify: (Hash, Password) -> bool, t: Turn)
    requires Inv(w, verify) && (t.Touch? || t.Revoke? || t.DeleteExpired?)
    ensures Keeps(w, Effect(w, verify, t), verify)
  {
    SessionsKeep(w, verify, Effect(w, verify, t).sessions);
  }

  lemma EffectKeeps(w: World, verify: (Hash, Password) -> bool, t: Turn)
    requires Inv(w, verify) && Enabled(w, verify, t)
    ensures Keeps(w, Effect(w, verify, t), verify)
  {
    match t
    case Setup(u, hash, password, id, now) => SetupKeeps(w, verify, u, hash, password, id, now);
    case AddUser(u, hash) => AddUserKeeps(w, verify, u, hash);
    case AdminRevoke(u, active) => AdminRevokeKeeps(w, verify, u, active);
    case Reactivate(u) => SetActiveKeeps(w, verify, u, true);
    case AdminReset(u, hash) => SetHashKeeps(w, verify, u, hash, None);
    case ReadForLogin(f, u, password) =>
      ReadKeeps(w, verify, f, Login(u, w.users[u].hash, w.users[u].active, password, false, w.step));
    case ReadForChange(f, u, keep, password) => ReadKeeps(w, verify, f, Change(u, keep, w.users[u].hash, password, false));
    case Verify(f) => VerifyKeeps(w, verify, f);
    case CommitLogin(f, id, now) => CommitLoginKeeps(w, verify, f, id, now);
    case CommitChange(f, hash, now) => CommitChangeKeeps(w, verify, f, hash, now);
    case IssueGrant(t, u, isCode) => IssueKeeps(w, verify, t, u, isCode);
    case DropGrant(t) => DropKeeps(w, verify, t);
    case Touch(_, _) => SessionStepKeeps(w, verify, t);
    case Revoke(_) => SessionStepKeeps(w, verify, t);
    case DeleteExpired(_) => SessionStepKeeps(w, verify, t);
  }

  lemma NextStepKeeps(w: World, verify: (Hash, Password) -> bool)
    requires Inv(w, verify)
    ensures Inv(w.(step := w.step + 1), verify)
  {
  }

  lemma StepKeeps(w: World, verify: (Hash, Password) -> bool, t: Turn)
    requires Inv(w, verify) && Enabled(w, verify, t)
    ensures Inv(Do(w, verify, t), verify)
  {
    EffectKeeps(w, verify, t);
    NextStepKeeps(Effect(w, verify, t), verify);
  }

  // ---- Over whole runs ----

  ghost predicate Linked(ws: seq<World>, turns: seq<Turn>, verify: (Hash, Password) -> bool, k: nat)
    requires |ws| == |turns| + 1 && k < |turns|
  {
    Enabled(ws[k], verify, turns[k]) && ws[k + 1] == Do(ws[k], verify, turns[k])
  }

  ghost predicate Behaviour(ws: seq<World>, turns: seq<Turn>, verify: (Hash, Password) -> bool) {
    && |ws| == |turns| + 1 && ws[0] == World(map[], map[], map[], map[], 0, {}, {}, map[], map[], map[], map[])
    && forall k {:trigger Linked(ws, turns, verify, k)} :: 0 <= k < |turns| ==> Linked(ws, turns, verify, k)
  }

  lemma {:induction false} BehaviourKeeps(ws: seq<World>, turns: seq<Turn>, verify: (Hash, Password) -> bool, i: nat)
    requires Behaviour(ws, turns, verify) && i <= |turns|
    ensures Inv(ws[i], verify) && ws[i].step == i
  {
    if i > 0 {
      BehaviourKeeps(ws, turns, verify, i - 1);
      assert Linked(ws, turns, verify, i - 1);
      StepKeeps(ws[i - 1], verify, turns[i - 1]);
    }
  }

  /** Step `i` commits a change of the user's password that keeps session `keep`. */
  ghost predicate Changes(ws: seq<World>, turns: seq<Turn>, i: nat, u: UserId, keep: SessionId)
    requires i < |turns| < |ws|
  {
    && turns[i].CommitChange? && turns[i].f in ws[i].flights
    && var flight := ws[i].flights[turns[i].f];
    flight.Change? && flight.user == u && flight.keep == keep && MayChange(ws[i], flight, turns[i].now)
  }

  /** No change or reset of the user's password in between. */
  ghost predicate Undisturbed(ws: seq<World>, i: nat, j: nat, u: UserId)
    requires i < j < |ws|
  {
    u in ws[j].changedAt && ws[j].changedAt[u] == i
  }

  lemma ChangeMarks(ws: seq<World>, turns: seq<Turn>, verify: (Hash, Password) -> bool, i: nat, u: UserId, keep: SessionId)
    requires Behaviour(ws, turns, verify) && i < |turns| && Changes(ws, turns, i, u, keep)
    ensures u in ws[i + 1].changedAt && ws[i + 1].changedAt[u] == i
    ensures u in ws[i + 1].users && ws[i + 1].users[u].hash == turns[i].hash
    ensures u in ws[i + 1].kept && ws[i + 1].kept[u] == keep
  {
    BehaviourKeeps(ws, turns, verify, i);
    assert Linked(ws, turns, verify, i);
  }

  lemma KeptStep(w: World, verify: (Hash, Password) -> bool, t: Turn, i: nat, u: UserId)
    requires Inv(w, verify) && Enabled(w, verify, t) && i < w.step
    requires u in Do(w, verify, t).changedAt && Do(w, verify, t).changedAt[u] == i
    ensures u in w.changedAt && w.changedAt[u] == i
    ensures u in w.users ==> u in Do(w, verify, t).users && Do(w, verify, t).users[u].hash == w.users[u].hash
    ensures u in Do(w, verify, t).kept ==> u in w.kept && w.kept[u] == Do(w, verify, t).kept[u]
  {
    EffectKeeps(w, verify, t);
  }

  /** Only a change or a reset of the user's own gives the user another kept session or another hash. */
  lemma {:induction false} KeptUntilNextChange(ws: seq<World>, turns: seq<Turn>, verify: (Hash, Password) -> bool,
                                               i: nat, j: nat, u: UserId, keep: SessionId)
    requires Behaviour(ws, turns, verify) && i < j <= |turns| && Changes(ws, turns, i, u, keep) && Undisturbed(ws, i, j, u)
    ensures u in ws[j].kept ==> ws[j].kept[u] == keep
    ensures u in ws[j].users && ws[j].users[u].hash == turns[i].hash
    decreases j
  {
    if j == i + 1 {
      ChangeMarks(ws, turns, verify, i, u, keep);
    } else {
      KeptLink(ws, turns, verify, i, j - 1, u);
      KeptUntilNextChange(ws, turns, verify, i, j - 1, u, keep);
    }
  }

  lemma KeptLink(ws: seq<World>, turns: seq<Turn>, verify: (Hash, Password) -> bool, i: nat, k: nat, u: UserId)
    requires Behaviour(ws, turns, verify) && i < k < |turns| && Undisturbed(ws, i, k + 1, u)
    ensures Undisturbed(ws, i, k, u)
    ensures u in ws[k].users ==> u in ws[k + 1].users && ws[k + 1].users[u].hash == ws[k].users[u].hash
    ensures u in ws[k + 1].kept ==> u in ws[k].kept && ws[k].kept[u] == ws[k + 1].kept[u]
  {
    BehaviourKeeps(ws, turns, verify, k);
    assert Linked(ws, turns, verify, k);
    KeptStep(ws[k], verify, turns[k], i, u);
  }

  /**
   * After a change commits, and until the next one, the user's sessions are the kept one and those of logins that read
   * and verified the new hash after it; every code and every live token of the user was granted after it.
   */
  lemma AfterPasswordChange(ws: seq<World>, turns: seq<Turn>, verify: (Hash, Password) -> bool, i: nat, j: nat,
                            u: UserId, keep: SessionId)
    requires Behaviour(ws, turns, verify) && i < j <= |turns| && Changes(ws, turns, i, u, keep) && Undisturbed(ws, i, j, u)
    ensures forall s :: s in ws[j].sessions && ws[j].sessions[s].user == u && s != keep ==>
              && s in ws[j].origins && ws[j].origins[s].hash == turns[i].hash && i <= ws[j].origins[s].at
              && verify(turns[i].hash, ws[j].origins[s].password)
    ensures forall t :: t in ws[j].grants && ws[j].grants[t].user == u && (ws[j].grants[t].isCode || !ws[j].grants[t].revoked) ==>
              t in ws[j].grantedAt && i <= ws[j].grantedAt[t]
  {
    BehaviourKeeps(ws, turns, verify, j);
    KeptUntilNextChange(ws, turns, verify, i, j, u, keep);
    forall s | s in ws[j].sessions && ws[j].sessions[s].user == u && s != keep
      ensures && s in ws[j].origins && ws[j].origins[s].hash == turns[i].hash && i <= ws[j].origins[s].at
              && verify(turns[i].hash, ws[j].origins[s].password)
    {
      assert SessionFits(ws[j], verify, s);
    }
    forall t | t in ws[j].grants && ws[j].grants[t].user == u && (ws[j].grants[t].isCode || !ws[j].grants[t].revoked)
      ensures t in ws[j].grantedAt && i <= ws[j].grantedAt[t]
    {
      assert GrantFits(ws[j], t);
    }
  }

  /** The step commits a login whose credentials are still current, or sets up the very first account. */
  ghost predicate Mints(w: World, t: Turn, s: SessionId, u: UserId) {
    || (&& t.CommitLogin? && t.id == s && t.f in w.flights && w.flights[t.f].Login? && w.flights[t.f].user == u
        && w.flights[t.f].verified && MayLogIn(w, w.flights[t.f]))
    || (t.Setup? && t.id == s && t.u == u && w.users.Keys == {})
  }

  /** Ids, origins and steps of changes only accumulate; a new session was minted. */
  ghost predicate Grows(w: World, t: Turn, w': World) {
    && w'.step == w.step && w.usedIds <= w'.usedIds
    && (forall s :: s in w.usedIds && s in w.origins ==> s in w'.origins && w'.origins[s] == w.origins[s])
    && (forall u :: u in w.changedAt && w.changedAt[u] <= w.step ==>
          u in w'.changedAt && w.changedAt[u] <= w'.changedAt[u] <= w.step)
    && (forall s :: s in w'.sessions ==>
          if s in w.sessions then w'.sessions[s].user == w.sessions[s].user
          else Mints(w, t, s, w'.sessions[s].user) && s !in w.usedIds)
  }

  ghost predicate MarksKept(w: World, w': World) {
    forall u :: u in w.changedAt ==> u in w'.changedAt && (w'.changedAt[u] == w.changedAt[u] || w'.changedAt[u] == w.step)
  }

  lemma MintGrows(w: World, t: Turn, w': World, id: SessionId)
    requires w'.step == w.step && w'.usedIds == w.usedIds + {id} && w.sessions.Keys <= w.usedIds && id !in w.usedIds
    requires MarksKept(w, w') && id in w'.sessions && w'.sessions == w.sessions[id := w'.sessions[id]]
    requires id in w'.origins && w'.origins == w.origins[id := w'.origins[id]] && Mints(w, t, id, w'.sessions[id].user)
    ensures Grows(w, t, w')
  {
  }

  lemma LoginGrows(w: World, verify: (Hash, Password) -> bool, t: Turn)
    requires Enabled(w, verify, t) && t.CommitLogin? && w.sessions.Keys <= w.usedIds
    ensures Grows(w, t, DoCommitLogin(w, t.f, t.id, t.now))
  {
    var w' := DoCommitLogin(w, t.f, t.id, t.now);
    if w'.sessions == w.sessions {
      RestGrows(w, t, w');
    } else {
      MintGrows(w, t, w', t.id);
    }
  }

  lemma SetupGrows(w: World, verify: (Hash, Password) -> bool, t: Turn)
    requires Enabled(w, verify, t) && t.Setup? && w.sessions.Keys <= w.usedIds
    ensures Grows(w, t, DoSetup(w, t.u, t.hash, t.password, t.id, t.now))
  {
    if w.users.Keys == {} {
      MintGrows(w, t, DoSetup(w, t.u, t.hash, t.password, t.id, t.now), t.id);
    }
  }

  lemma ChangeGrows(w: World, t: Turn, u: UserId, hash: Hash, keep: Option<SessionId>)
    requires u in w.users
    ensures Grows(w, t, RevokeCredentials(SetHash(w, u, hash), u, keep))
  {
  }

  /** Steps that add no session and change no password. */
  lemma RestGrows(w: World, t: Turn, w': World)
    requires w'.step == w.step && w.usedIds <= w'.usedIds && w'.origins == w.origins && MarksKept(w, w')
    requires forall s :: s in w'.sessions ==> s in w.sessions && w'.sessions[s].user == w.sessions[s].user
    ensures Grows(w, t, w')
  {
  }

  lemma CommitChangeGrows(w: World, verify: (Hash, Password) -> bool, t: Turn)
    requires Enabled(w, verify, t) && t.CommitChange?
    ensures Grows(w, t, DoCommitChange(w, t.f, t.hash, t.now))
  {
    var flight, landed := w.flights[t.f], w.(flights := w.flights - {t.f});
    if MayChange(w, flight, t.now) {
      ChangeGrows(landed, t, flight.user, t.hash, Some(flight.keep));
    } else {
      RestGrows(w, t, landed);
    }
  }

  lemma AdminGrows(w: World, verify: (Hash, Password) -> bool, t: Turn)
    requires Enabled(w, verify, t) && (t.AdminReset? || t.AdminRevoke? || t.AddUser? || t.Reactivate?)
    ensures Grows(w, t, Effect(w, verify, t))
  {
    if t.AdminReset? {
      ChangeGrows(w, t, t.u, t.hash, None);
    } else {
      RestGrows(w, t, Effect(w, verify, t));
    }
  }

  lemma SessionStepGrows(w: World, verify: (Hash, Password) -> bool, t: Turn)
    requires Enabled(w, verify, t) && (t.Touch? || t.Revoke? || t.DeleteExpired?)
    ensures Grows(w, t, Effect(w, verify, t))
  {
    RestGrows(w, t, Effect(w, verify, t));
  }

  lemma VerifyGrows(w: World, verify: (Hash, Password) -> bool, t: Turn)
    requires Enabled(w, verify, t) && t.Verify?
    ensures Grows(w, t, DoVerify(w, verify, t.f))
  {
    RestGrows(w, t, DoVerify(w, verify, t.f));
  }

  lemma ReadGrows(w: World, verify: (Hash, Password) -> bool, t: Turn)
    requires Enabled(w, verify, t) && (t.ReadForLogin? || t.ReadForChange?)
    ensures Grows(w, t, Effect(w, verify, t))
  {
    RestGrows(w, t, w.(flights := Effect(w, verify, t).flights));
  }

  lemma GrantStepGrows(w: World, verify: (Hash, Password) -> bool, t: Turn)
    requires Enabled(w, verify, t) && (t.IssueGrant? || t.DropGrant?)
    ensures Grows(w, t, Effect(w, verify, t))
  {
    RestGrows(w, t, w.(grants := Effect(w, verify, t).grants, grantedAt := Effect(w, verify, t).grantedAt));
  }

  lemma EffectGrows(w: World, verify: (Hash, Password) -> bool, t: Turn)
    requires Inv(w, verify) && Enabled(w, verify, t)
    ensures Grows(w, t, Effect(w, verify, t))
  {
    SessionIdsUsed(w, verify);
    if t.CommitLogin? {
      LoginGrows(w, verify, t);
    } else if t.Setup? {
      SetupGrows(w, verify, t);
    } else if t.CommitChange? {
      CommitChangeGrows(w, verify, t);
    } else if t.AdminReset? || t.AdminRevoke? || t.AddUser? || t.Reactivate? {
      AdminGrows(w, verify, t);
    } else if t.Touch? || t.Revoke? || t.DeleteExpired? {
      SessionStepGrows(w, verify, t);
    } else if t.Verify? {
      VerifyGrows(w, verify, t);
    } else if t.ReadForLogin? || t.ReadForChange? {
      ReadGrows(w, verify, t);
    } else {
      GrantStepGrows(w, verify, t);
    }
  }

  lemma SessionIdsUsed(w: World, verify: (Hash, Password) -> bool)
    requires Inv(w, verify)
    ensures w.sessions.Keys <= w.usedIds
  {
    forall s | s in w.sessions
      ensures s in w.usedIds
    {
      assert SessionFits(w, verify, s);
    }
  }

  /** Only such a step adds a session: touches and deletions that come late bring none back, and no id comes twice. */
  lemma OnlyLoginMints(w: World, verify: (Hash, Password) -> bool, t: Turn, s: SessionId)
    requires Inv(w, verify) && Enabled(w, verify, t) && s in Do(w, verify, t).sessions
    ensures s in w.sessions ==> Do(w, verify, t).sessions[s].user == w.sessions[s].user
    ensures s !in w.sessions ==> Mints(w, t, s, Do(w, verify, t).sessions[s].user) && s !in w.usedIds
  {
    EffectGrows(w, verify, t);
  }

  /** What a raw session id resolves to. */
  function Authenticate(w: World, id: SessionId, now: Time): Option<UserId> {
    if id !in w.sessions || w.sessions[id].expiresAt <= now then None
    else if w.sessions[id].user !in w.users || !w.users[w.sessions[id].user].active then None
    else Some(w.sessions[id].user)
  }

  ghost predicate Gone(w: World, s: SessionId) {
    s in w.usedIds && s !in w.sessions
  }

  lemma GoneStaysGone(w: World, verify: (Hash, Password) -> bool, t: Turn, s: SessionId)
    requires Inv(w, verify) && Enabled(w, verify, t) && Gone(w, s)
    ensures Gone(Do(w, verify, t), s)
  {
    EffectGrows(w, verify, t);
  }

  lemma {:induction false} GoneForGood(ws: seq<World>, turns: seq<Turn>, verify: (Hash, Password) -> bool, i: nat, j: nat,
                                       s: SessionId)
    requires Behaviour(ws, turns, verify) && i <= j <= |turns| && Gone(ws[i], s)
    ensures Gone(ws[j], s)
    decreases j
  {
    if i < j {
      GoneForGood(ws, turns, verify, i, j - 1, s);
      assert Linked(ws, turns, verify, j - 1);
      BehaviourKeeps(ws, turns, verify, j - 1);
      GoneStaysGone(ws[j - 1], verify, turns[j - 1], s);
    }
  }

  /** A change shuts every session that the user had until then, but the kept one. */
  lemma ChangeShuts(w: World, verify: (Hash, Password) -> bool, t: Turn, s: SessionId)
    requires Inv(w, verify) && Enabled(w, verify, t) && t.CommitChange? && MayChange(w, w.flights[t.f], t.now)
    requires s in w.usedIds && s != w.flights[t.f].keep && (s in w.sessions ==> w.sessions[s].user == w.flights[t.f].user)
    ensures Gone(Do(w, verify, t), s)
  {
  }

  /**
   * A session that the user had when a change committed, and that the change did not keep, never gets through again,
   * whatever happens afterwards; nor does one that was gone by then.
   */
  lemma OldSessionsAreShut(ws: seq<World>, turns: seq<Turn>, verify: (Hash, Password) -> bool, i: nat, j: nat,
                           u: UserId, keep: SessionId, s: SessionId, now: Time)
    requires Behaviour(ws, turns, verify) && i < j <= |turns| && Changes(ws, turns, i, u, keep)
    requires s != keep && if s in ws[i].sessions then ws[i].sessions[s].user == u else s in ws[i].usedIds
    ensures Authenticate(ws[j], s, now) == None
  {
    BehaviourKeeps(ws, turns, verify, i);
    assert Linked(ws, turns, verify, i);
    if s in ws[i].sessions {
      assert SessionFits(ws[i], verify, s);
    }
    ChangeShuts(ws[i], verify, turns[i], s);
    GoneForGood(ws, turns, verify, i + 1, j, s);
  }

  /** Every other session of the user comes from credentials that were read, and a password verified, since step `i`. */
  ghost predicate OnlyLater(w: World, verify: (Hash, Password) -> bool, i: nat, u: UserId, keep: SessionId) {
    && u in w.changedAt && i <= w.changedAt[u]
    && forall s :: s in w.sessions && w.sessions[s].user == u && s != keep ==>
         s in w.origins && i <= w.origins[s].at && verify(w.origins[s].hash, w.origins[s].password)
  }

  lemma MintedLater(w: World, verify: (Hash, Password) -> bool, t: Turn, s: SessionId, u: UserId)
    requires Inv(w, verify) && Enabled(w, verify, t) && Mints(w, t, s, u) && u in w.changedAt && w.changedAt[u] <= w.step
    ensures var w' := Do(w, verify, t);
            s in w'.origins && w.changedAt[u] <= w'.origins[s].at && verify(w'.origins[s].hash, w'.origins[s].password)
  {
    if t.CommitLogin? {
      assert FlightFits(w, verify, w.flights[t.f]);
    }
  }

  lemma OnlyLaterStep(w: World, verify: (Hash, Password) -> bool, t: Turn, i: nat, u: UserId, keep: SessionId)
    requires Inv(w, verify) && Enabled(w, verify, t) && OnlyLater(w, verify, i, u, keep) && w.changedAt[u] <= w.step
    ensures OnlyLater(Do(w, verify, t), verify, i, u, keep) && Do(w, verify, t).changedAt[u] <= w.step
  {
    EffectGrows(w, verify, t);
    var w' := Effect(w, verify, t);
    forall s | s in w'.sessions && w'.sessions[s].user == u && s != keep
      ensures s in w'.origins && i <= w'.origins[s].at && verify(w'.origins[s].hash, w'.origins[s].password)
    {
      if s in w.sessions {
        assert SessionFits(w, verify, s);
      } else {
        MintedLater(w, verify, t, s, u);
      }
    }
  }

  /** From a change on for ever, later changes and resets included, these are the sessions the user can have. */
  lemma {:induction false} OnlyLaterSessions(ws: seq<World>, turns: seq<Turn>, verify: (Hash, Password) -> bool,
                                             i: nat, j: nat, u: UserId, keep: SessionId)
    requires Behaviour(ws, turns, verify) && i < j <= |turns| && Changes(ws, turns, i, u, keep)
    ensures OnlyLater(ws[j], verify, i, u, keep) && ws[j].changedAt[u] < j
    decreases j
  {
    BehaviourKeeps(ws, turns, verify, j - 1);
    assert Linked(ws, turns, verify, j - 1);
    if j == i + 1 {
      ChangeMarks(ws, turns, verify, i, u, keep);
    } else {
      OnlyLaterSessions(ws, turns, verify, i, j - 1, u, keep);
      OnlyLaterStep(ws[j - 1], verify, turns[j - 1], i, u, keep);
    }
  }

  /** Whatever is touched when: a session authenticates only within a week of its last visit and a month of its login. */
  lemma SessionsExpire(ws: seq<World>, turns: seq<Turn>, verify: (Hash, Password) -> bool, i: nat, s: SessionId, now: Time)
    requires Behaviour(ws, turns, verify) && i <= |turns| && Authenticate(ws[i], s, now).Some?
    ensures now < ws[i].sessions[s].seenAt + IDLE_MS && now < ws[i].sessions[s].createdAt + ABSOLUTE_MS
  {
    BehaviourKeeps(ws, turns, verify, i);
    assert SessionFits(ws[i], verify, s);
  }
}
