/**
 * What the credentials are good for: who gets in with a session and for how long, and which logins and password changes
 * go through.
 */
module Sessions {
  import opened Wrappers
  import opened Credentials

  // ---- Who gets in ----

  /** A session authenticates exactly its active user, within a week of its last recorded visit and a month of its login. */
  lemma AuthenticatesIff(ws: seq<World>, turns: seq<Turn>, verify: (Hash, Password) -> bool, i: nat, s: SessionId, u: UserId,
                         now: Time)
    requires Behaviour(ws, turns, verify) && i <= |turns|
    ensures Authenticate(ws[i], s, now) == Some(u) <==>
              && s in ws[i].sessions && ws[i].sessions[s].user == u && u in ws[i].users && ws[i].users[u].active
              && now < ws[i].sessions[s].seenAt + IDLE_MS && now < ws[i].sessions[s].createdAt + ABSOLUTE_MS
  {
    BehaviourKeeps(ws, turns, verify, i);
    if s in ws[i].sessions {
      assert SessionFits(ws[i], verify, s);
    }
  }

  /** The step ends the session: a logout, its expiry, a reset or revocation of its user, or a change that keeps another. */
  ghost predicate Ends(w: World, t: Turn, s: SessionId)
    requires s in w.sessions
  {
    var u := w.sessions[s].user;
    match t
    case Revoke(id) => id == s
    case DeleteExpired(now) => w.sessions[s].expiresAt <= now
    case AdminReset(v, _) => v == u
    case AdminRevoke(v, _) => v == u
    case CommitChange(f, _, now) =>
      && f in w.flights && w.flights[f].Change? && w.flights[f].user == u && w.flights[f].keep != s
      && MayChange(w, w.flights[f], now)
    case _ => false
  }

  /** A step that does not end a session at most records a visit to it. */
  ghost predicate Visited(w: World, t: Turn, s: SessionId, w': World)
    requires s in w.sessions
  {
    && s in w'.sessions
    && w'.sessions[s] ==
         match t
         case Touch(id, now) =>
           if id == s then w.sessions[s].(seenAt := now, expiresAt := FoldedExpiry(w.sessions[s].createdAt, now))
           else w.sessions[s]
         case _ => w.sessions[s]
  }

  // What the single writes leave alone.

  lemma StepIsEffect(w: World, verify: (Hash, Password) -> bool, t: Turn)
    requires Enabled(w, verify, t)
    ensures var w', done := Do(w, verify, t), Effect(w, verify, t);
            w'.users == done.users && w'.sessions == done.sessions && w'.flights == done.flights
  {
  }

  lemma VerifyWrites(w: World, verify: (Hash, Password) -> bool, f: FlightId)
    requires f in w.flights
    ensures DoVerify(w, verify, f).users == w.users && DoVerify(w, verify, f).sessions == w.sessions
    ensures forall g :: g in w.flights && g != f ==>
              g in DoVerify(w, verify, f).flights && DoVerify(w, verify, f).flights[g] == w.flights[g]
  {
  }

  lemma SessionWrites(w: World, id: SessionId, now: Time)
    ensures DoTouch(w, id, now).users == w.users && DoTouch(w, id, now).flights == w.flights
    ensures DoDeleteExpired(w, now).users == w.users && DoDeleteExpired(w, now).flights == w.flights
  {
  }

  lemma MintVisits(w: World, verify: (Hash, Password) -> bool, t: Turn, s: SessionId)
    requires Inv(w, verify) && Enabled(w, verify, t) && s in w.sessions && (t.CommitLogin? || t.Setup?)
    ensures Visited(w, t, s, Effect(w, verify, t))
  {
    assert SessionFits(w, verify, s);
  }

  lemma ChangeEndsOrVisits(w: World, verify: (Hash, Password) -> bool, t: Turn, s: SessionId)
    requires Enabled(w, verify, t) && s in w.sessions && t.CommitChange?
    ensures if Ends(w, t, s) then s !in Effect(w, verify, t).sessions else Visited(w, t, s, Effect(w, verify, t))
  {
  }

  lemma AdminEndsOrVisits(w: World, verify: (Hash, Password) -> bool, t: Turn, s: SessionId)
    requires Enabled(w, verify, t) && s in w.sessions && (t.AdminReset? || t.AdminRevoke?)
    ensures if Ends(w, t, s) then s !in Effect(w, verify, t).sessions else Visited(w, t, s, Effect(w, verify, t))
  {
  }

  lemma SessionStepEndsOrVisits(w: World, verify: (Hash, Password) -> bool, t: Turn, s: SessionId)
    requires Enabled(w, verify, t) && s in w.sessions && (t.Touch? || t.Revoke? || t.DeleteExpired?)
    ensures if Ends(w, t, s) then s !in Effect(w, verify, t).sessions else Visited(w, t, s, Effect(w, verify, t))
  {
  }

  /** What reads, checks, new and reactivated accounts and grants leave alone. */
  lemma SessionsUntouched(w: World, verify: (Hash, Password) -> bool, t: Turn)
    requires Enabled(w, verify, t)
    requires t.AddUser? || t.Reactivate? || t.ReadForLogin? || t.ReadForChange? || t.Verify? || t.IssueGrant? || t.DropGrant?
    ensures Effect(w, verify, t).sessions == w.sessions
  {
    match t
    case AddUser(_, _) =>
    case Reactivate(_) =>
    case ReadForLogin(_, _, _) =>
    case ReadForChange(_, _, _, _) =>
    case Verify(f) => VerifyWrites(w, verify, f);
    case IssueGrant(_, _, _) =>
    case DropGrant(_) =>
  }

  lemma EndsOrVisits(w: World, verify: (Hash, Password) -> bool, t: Turn, s: SessionId)
    requires Inv(w, verify) && Enabled(w, verify, t) && s in w.sessions
    ensures if Ends(w, t, s) then s !in Do(w, verify, t).sessions else Visited(w, t, s, Do(w, verify, t))
  {
    StepIsEffect(w, verify, t);
    if t.CommitLogin? || t.Setup? {
      MintVisits(w, verify, t, s);
    } else if t.CommitChange? {
      ChangeEndsOrVisits(w, verify, t, s);
    } else if t.AdminReset? || t.AdminRevoke? {
      AdminEndsOrVisits(w, verify, t, s);
    } else if t.Touch? || t.Revoke? || t.DeleteExpired? {
      SessionStepEndsOrVisits(w, verify, t, s);
    } else {
      SessionsUntouched(w, verify, t);
    }
  }

  /** Whether an account is active after a step: only an administrator switches it. */
  function ActiveAfter(t: Turn, u: UserId, before: bool): bool {
    match t
    case AdminRevoke(v, active) => if v == u then active else before
    case Reactivate(v) => v == u || before
    case _ => before
  }

  lemma AccountStepSwitches(w: World, verify: (Hash, Password) -> bool, t: Turn, u: UserId)
    requires Enabled(w, verify, t) && u in w.users
    requires t.AddUser? || t.Setup? || t.Reactivate? || t.AdminReset? || t.AdminRevoke?
    ensures u in Effect(w, verify, t).users && Effect(w, verify, t).users[u].active == ActiveAfter(t, u, w.users[u].active)
  {
    match t
    case AddUser(_, _) =>
    case Setup(_, _, _, _, _) =>
    case Reactivate(_) =>
    case AdminReset(_, _) =>
    case AdminRevoke(_, _) =>
  }

  /** A commit, whatever comes of it, ends its attempt and switches no account. */
  lemma LoginEndsAttempt(w: World, f: FlightId, id: SessionId, now: Time)
    requires f in w.flights && w.flights[f].Login?
    ensures DoCommitLogin(w, f, id, now).flights == w.flights - {f} && DoCommitLogin(w, f, id, now).users == w.users
  {
  }

  lemma ChangeEndsAttempt(w: World, f: FlightId, hash: Hash, now: Time)
    requires f in w.flights && w.flights[f].Change?
    ensures DoCommitChange(w, f, hash, now).flights == w.flights - {f}
    ensures forall u :: u in w.users ==>
              u in DoCommitChange(w, f, hash, now).users && DoCommitChange(w, f, hash, now).users[u].active == w.users[u].active
  {
  }

  lemma CommitEndsAttempt(w: World, verify: (Hash, Password) -> bool, t: Turn)
    requires Enabled(w, verify, t) && (t.CommitLogin? || t.CommitChange?)
    ensures Effect(w, verify, t).flights == w.flights - {t.f}
    ensures forall u :: u in w.users ==>
              u in Effect(w, verify, t).users && Effect(w, verify, t).users[u].active == w.users[u].active
  {
    match t
    case CommitLogin(f, id, now) => LoginEndsAttempt(w, f, id, now);
    case CommitChange(f, hash, now) => ChangeEndsAttempt(w, f, hash, now);
  }

  lemma UsersUntouched(w: World, verify: (Hash, Password) -> bool, t: Turn)
    requires Enabled(w, verify, t)
    requires || t.ReadForLogin? || t.ReadForChange? || t.Verify? || t.IssueGrant? || t.DropGrant? || t.Touch? || t.Revoke?
             || t.DeleteExpired?
    ensures Effect(w, verify, t).users == w.users
  {
    match t
    case ReadForLogin(_, _, _) =>
    case ReadForChange(_, _, _, _) =>
    case Verify(f) => VerifyWrites(w, verify, f);
    case IssueGrant(_, _, _) =>
    case DropGrant(_) =>
    case Touch(id, now) => SessionWrites(w, id, now);
    case Revoke(_) =>
    case DeleteExpired(now) => SessionWrites(w, 0, now);
  }

  lemma SwitchedOnlyByAdmin(w: World, verify: (Hash, Password) -> bool, t: Turn, u: UserId)
    requires Enabled(w, verify, t) && u in w.users
    ensures u in Do(w, verify, t).users && Do(w, verify, t).users[u].active == ActiveAfter(t, u, w.users[u].active)
  {
    StepIsEffect(w, verify, t);
    if t.AddUser? || t.Setup? || t.Reactivate? || t.AdminReset? || t.AdminRevoke? {
      AccountStepSwitches(w, verify, t, u);
    } else if t.CommitLogin? || t.CommitChange? {
      CommitEndsAttempt(w, verify, t);
    } else {
      UsersUntouched(w, verify, t);
    }
  }

  /** The last visit that was recorded since the session was minted at step `i`, or the login itself. */
  function LastVisit(turns: seq<Turn>, i: nat, j: nat, s: SessionId): Time
    requires i < j <= |turns| && (turns[i].CommitLogin? || turns[i].Setup?)
    decreases j
  {
    if j == i + 1 then turns[i].now
    else
      match turns[j - 1]
      case Touch(id, now) => if id == s then now else LastVisit(turns, i, j - 1, s)
      case _ => LastVisit(turns, i, j - 1, s)
  }

  /** No step between the two ends the session. */
  ghost predicate NotEnded(ws: seq<World>, turns: seq<Turn>, i: nat, j: nat, s: SessionId)
    requires i < j <= |turns| < |ws|
  {
    forall k :: i < k < j && s in ws[k].sessions ==> !Ends(ws[k], turns[k], s)
  }

  /** What a session minted at step `i` is in state `j`. */
  ghost predicate Lasts(ws: seq<World>, turns: seq<Turn>, i: nat, j: nat, s: SessionId, u: UserId)
    requires i < j <= |turns| < |ws| && (turns[i].CommitLogin? || turns[i].Setup?)
  {
    var seen := LastVisit(turns, i, j, s);
    && s in ws[j].sessions && ws[j].sessions[s] == Session(u, turns[i].now, FoldedExpiry(turns[i].now, seen), seen)
    && u in ws[j].users && ws[j].users[u].active
  }

  lemma MintLasts(ws: seq<World>, turns: seq<Turn>, verify: (Hash, Password) -> bool, i: nat, s: SessionId, u: UserId)
    requires Behaviour(ws, turns, verify) && i < |turns| && Mints(ws[i], turns[i], s, u)
    ensures Lasts(ws, turns, i, i + 1, s, u)
  {
    assert Linked(ws, turns, verify, i);
  }

  lemma LastsOn(ws: seq<World>, turns: seq<Turn>, verify: (Hash, Password) -> bool, i: nat, j: nat, s: SessionId, u: UserId)
    requires Behaviour(ws, turns, verify) && i < j < |turns| && (turns[i].CommitLogin? || turns[i].Setup?)
    requires Lasts(ws, turns, i, j, s, u) && !Ends(ws[j], turns[j], s)
    ensures Lasts(ws, turns, i, j + 1, s, u)
  {
    BehaviourKeeps(ws, turns, verify, j);
    assert Linked(ws, turns, verify, j);
    EndsOrVisits(ws[j], verify, turns[j], s);
    SwitchedOnlyByAdmin(ws[j], verify, turns[j], u);
  }

  lemma {:induction false} MintedLasts(ws: seq<World>, turns: seq<Turn>, verify: (Hash, Password) -> bool, i: nat, j: nat,
                                       s: SessionId, u: UserId)
    requires Behaviour(ws, turns, verify) && i < j <= |turns| && Mints(ws[i], turns[i], s, u) && NotEnded(ws, turns, i, j, s)
    ensures Lasts(ws, turns, i, j, s, u)
    decreases j
  {
    if j == i + 1 {
      MintLasts(ws, turns, verify, i, s, u);
    } else {
      MintedLasts(ws, turns, verify, i, j - 1, s, u);
      LastsOn(ws, turns, verify, i, j - 1, s, u);
    }
  }

  /**
   * From a login with current credentials, or the first setup, until a step ends the session, it authenticates its user
   * at exactly the times within a week of the last recorded visit and a month of the login.
   */
  lemma LoginLasts(ws: seq<World>, turns: seq<Turn>, verify: (Hash, Password) -> bool, i: nat, j: nat, s: SessionId, u: UserId,
                   now: Time)
    requires Behaviour(ws, turns, verify) && i < j <= |turns| && Mints(ws[i], turns[i], s, u) && NotEnded(ws, turns, i, j, s)
    ensures Authenticate(ws[j], s, now) ==
              if now < LastVisit(turns, i, j, s) + IDLE_MS && now < turns[i].now + ABSOLUTE_MS then Some(u) else None
  {
    MintedLasts(ws, turns, verify, i, j, s, u);
  }

  /** A step that ends a session shuts it for good. */
  lemma EndedIsShut(ws: seq<World>, turns: seq<Turn>, verify: (Hash, Password) -> bool, i: nat, j: nat, s: SessionId, now: Time)
    requires Behaviour(ws, turns, verify) && i < j <= |turns| && s in ws[i].sessions && Ends(ws[i], turns[i], s)
    ensures Authenticate(ws[j], s, now) == None
  {
    BehaviourKeeps(ws, turns, verify, i);
    assert Linked(ws, turns, verify, i);
    assert SessionFits(ws[i], verify, s);
    EndsOrVisits(ws[i], verify, turns[i], s);
    EffectGrows(ws[i], verify, turns[i]);
    GoneForGood(ws, turns, verify, i + 1, j, s);
  }

  /** No step in between makes the account active again. */
  predicate NotActivated(turns: seq<Turn>, i: nat, j: nat, u: UserId)
    requires i < j <= |turns|
  {
    forall k :: i < k < j ==> turns[k] != Reactivate(u) && turns[k] != AdminRevoke(u, true)
  }

  lemma {:induction false} StaysInactive(ws: seq<World>, turns: seq<Turn>, verify: (Hash, Password) -> bool, i: nat, j: nat,
                                         u: UserId)
    requires Behaviour(ws, turns, verify) && i < j <= |turns|
    requires turns[i] == AdminRevoke(u, false) && NotActivated(turns, i, j, u)
    ensures u in ws[j].users && !ws[j].users[u].active
    decreases j
  {
    assert Linked(ws, turns, verify, j - 1);
    if j > i + 1 {
      StaysInactive(ws, turns, verify, i, j - 1, u);
      SwitchedOnlyByAdmin(ws[j - 1], verify, turns[j - 1], u);
    }
  }

  /** From its deactivation until it is made active again nobody gets in as the user, by whatever session. */
  lemma DeactivatedIsShut(ws: seq<World>, turns: seq<Turn>, verify: (Hash, Password) -> bool, i: nat, j: nat, u: UserId,
                          s: SessionId, now: Time)
    requires Behaviour(ws, turns, verify) && i < j <= |turns|
    requires turns[i] == AdminRevoke(u, false) && NotActivated(turns, i, j, u)
    ensures Authenticate(ws[j], s, now) != Some(u)
  {
    StaysInactive(ws, turns, verify, i, j, u);
  }

  // ---- Which attempts get through ----

  predicate IsAbout(t: Turn, f: FlightId) {
    (t.Verify? || t.CommitLogin? || t.CommitChange?) && t.f == f
  }

  /** Between the two steps nothing happens to the attempt. */
  predicate LeftAlone(turns: seq<Turn>, i: nat, j: nat, f: FlightId) {
    forall k :: i < k < j && k < |turns| ==> !IsAbout(turns[k], f)
  }

  lemma FlightsUntouched(w: World, verify: (Hash, Password) -> bool, t: Turn)
    requires Enabled(w, verify, t)
    requires || t.Setup? || t.AddUser? || t.AdminReset? || t.AdminRevoke? || t.Reactivate? || t.IssueGrant? || t.DropGrant?
             || t.Touch? || t.Revoke? || t.DeleteExpired?
    ensures Effect(w, verify, t).flights == w.flights
  {
    match t
    case Setup(_, _, _, _, _) =>
    case AddUser(_, _) =>
    case AdminReset(_, _) =>
    case AdminRevoke(_, _) =>
    case Reactivate(_) =>
    case IssueGrant(_, _, _) =>
    case DropGrant(_) =>
    case Touch(id, now) => SessionWrites(w, id, now);
    case Revoke(_) =>
    case DeleteExpired(now) => SessionWrites(w, 0, now);
  }

  lemma OtherReadKept(w: World, verify: (Hash, Password) -> bool, t: Turn, f: FlightId)
    requires Enabled(w, verify, t) && f in w.flights && (t.ReadForLogin? || t.ReadForChange?)
    ensures f in Effect(w, verify, t).flights && Effect(w, verify, t).flights[f] == w.flights[f]
  {
    match t
    case ReadForLogin(_, _, _) =>
    case ReadForChange(_, _, _, _) =>
  }

  lemma FlightKept(w: World, verify: (Hash, Password) -> bool, t: Turn, f: FlightId)
    requires Enabled(w, verify, t) && f in w.flights && !IsAbout(t, f)
    ensures f in Do(w, verify, t).flights && Do(w, verify, t).flights[f] == w.flights[f]
  {
    StepIsEffect(w, verify, t);
    if t.ReadForLogin? || t.ReadForChange? {
      OtherReadKept(w, verify, t, f);
    } else if t.Verify? {
      VerifyWrites(w, verify, t.f);
    } else if t.CommitLogin? || t.CommitChange? {
      CommitEndsAttempt(w, verify, t);
    } else {
      FlightsUntouched(w, verify, t);
    }
  }

  lemma {:induction false} FlightLasts(ws: seq<World>, turns: seq<Turn>, verify: (Hash, Password) -> bool, i: nat, j: nat,
                                       f: FlightId)
    requires Behaviour(ws, turns, verify) && i < j <= |turns| && f in ws[i + 1].flights && LeftAlone(turns, i, j, f)
    ensures f in ws[j].flights && ws[j].flights[f] == ws[i + 1].flights[f]
    decreases j
  {
    if j > i + 1 {
      FlightLasts(ws, turns, verify, i, j - 1, f);
      assert Linked(ws, turns, verify, j - 1);
      FlightKept(ws[j - 1], verify, turns[j - 1], f);
    }
  }

  /** The attempt passes the check exactly with the right password, and at a login for an account active when read. */
  lemma CheckedIff(ws: seq<World>, turns: seq<Turn>, verify: (Hash, Password) -> bool, i: nat, j: nat, f: FlightId, u: UserId,
                   password: Password)
    requires Behaviour(ws, turns, verify) && i < j < |turns| && LeftAlone(turns, i, j, f) && turns[j] == Verify(f)
    requires turns[i].ReadForLogin? || turns[i].ReadForChange?
    requires turns[i].f == f && turns[i].u == u && turns[i].password == password
    ensures u in ws[i].users && f in ws[i + 1].flights
    ensures f in ws[j + 1].flights <==>
              verify(ws[i].users[u].hash, password) && (turns[i].ReadForLogin? ==> ws[i].users[u].active)
    ensures f in ws[j + 1].flights ==> ws[j + 1].flights[f] == Checked(ws[i + 1].flights[f])
  {
    assert Linked(ws, turns, verify, i);
    assert Linked(ws, turns, verify, j);
    FlightLasts(ws, turns, verify, i, j, f);
  }

  /** A checked login gets its session if and only if the account is active and has the password that was checked. */
  lemma LoginGoesThroughIff(ws: seq<World>, turns: seq<Turn>, verify: (Hash, Password) -> bool, i: nat, j: nat, k: nat,
                            f: FlightId, u: UserId, password: Password, s: SessionId, now: Time)
    requires Behaviour(ws, turns, verify) && i < j < k < |turns| && LeftAlone(turns, i, j, f) && LeftAlone(turns, j, k, f)
    requires turns[i] == ReadForLogin(f, u, password) && turns[j] == Verify(f) && turns[k] == CommitLogin(f, s, now)
    requires f in ws[j + 1].flights
    ensures u in ws[i].users
    ensures s in ws[k + 1].sessions <==>
              u in ws[k].users && ws[k].users[u].active && ws[k].users[u].hash == ws[i].users[u].hash
    ensures s in ws[k + 1].sessions ==> Mints(ws[k], turns[k], s, u)
  {
    CheckedIff(ws, turns, verify, i, j, f, u, password);
    assert Linked(ws, turns, verify, i);
    FlightLasts(ws, turns, verify, j, k, f);
    BehaviourKeeps(ws, turns, verify, k);
    SessionIdsUsed(ws[k], verify);
    assert Linked(ws, turns, verify, k);
  }

  /** A checked change sets the new hash and keeps the session that asked, if and only if they still fit; or does nothing. */
  lemma ChangeGoesThroughIff(ws: seq<World>, turns: seq<Turn>, verify: (Hash, Password) -> bool, i: nat, j: nat, k: nat,
                             f: FlightId, u: UserId, keep: SessionId, password: Password, hash: Hash, now: Time)
    requires Behaviour(ws, turns, verify) && i < j < k < |turns| && LeftAlone(turns, i, j, f) && LeftAlone(turns, j, k, f)
    requires turns[i] == ReadForChange(f, u, keep, password) && turns[j] == Verify(f) && turns[k] == CommitChange(f, hash, now)
    requires f in ws[j + 1].flights
    ensures u in ws[i].users
    ensures MayChange(ws[k], Change(u, keep, ws[i].users[u].hash, password, true), now) <==> Changes(ws, turns, k, u, keep)
    ensures if Changes(ws, turns, k, u, keep) then
              && ws[k + 1].users == ws[k].users[u := User(hash, true)]
              && keep in ws[k + 1].sessions && ws[k + 1].sessions[keep] == ws[k].sessions[keep]
            else ws[k + 1] == ws[k].(flights := ws[k].flights - {f}, step := ws[k].step + 1)
  {
    CheckedIff(ws, turns, verify, i, j, f, u, password);
    assert Linked(ws, turns, verify, i);
    FlightLasts(ws, turns, verify, j, k, f);
    assert Linked(ws, turns, verify, k);
  }

  // ---- The visits that are recorded ----

  const TOUCH_THROTTLE_MS := 5 * 60000

  /** The write that a request leaves behind: the session of an inactive user goes, an older visit is replaced. */
  function Aftermath(w: World, s: SessionId, now: Time): Option<Turn> {
    if s !in w.sessions || w.sessions[s].expiresAt <= now || w.sessions[s].user !in w.users then None
    else if !w.users[w.sessions[s].user].active then Some(Revoke(s))
    else if now - w.sessions[s].seenAt >= TOUCH_THROTTLE_MS then Some(Touch(s, now))
    else None
  }

  /** A request that gets in slides the expiry: afterwards less than five minutes of the week are gone. */
  lemma RequestSlides(ws: seq<World>, turns: seq<Turn>, verify: (Hash, Password) -> bool, i: nat, s: SessionId, now: Time)
    requires Behaviour(ws, turns, verify) && i <= |turns| && Authenticate(ws[i], s, now).Some?
    ensures var after := if Aftermath(ws[i], s, now).None? then ws[i] else Do(ws[i], verify, Touch(s, now));
            && (Aftermath(ws[i], s, now).Some? ==> Aftermath(ws[i], s, now) == Some(Touch(s, now)))
            && s in after.sessions && LivesShort(after.sessions[s])
            && now - TOUCH_THROTTLE_MS < after.sessions[s].seenAt
  {
    BehaviourKeeps(ws, turns, verify, i);
    assert SessionFits(ws[i], verify, s);
  }

  /** Whoever comes with the session of an inactive user stays out, and the session goes. */
  lemma InactiveIsRevoked(w: World, verify: (Hash, Password) -> bool, s: SessionId, now: Time)
    requires s in w.sessions && w.sessions[s].user in w.users && !w.users[w.sessions[s].user].active
    requires now < w.sessions[s].expiresAt
    ensures Authenticate(w, s, now) == None && Aftermath(w, s, now) == Some(Revoke(s))
    ensures s !in Do(w, verify, Revoke(s)).sessions
  {
  }
}
