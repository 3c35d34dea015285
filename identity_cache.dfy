/** The client's cache of domain users, by user id and by session id, fed by
    identity-update messages from the server. */
module IdentityCache {
  import opened Ops

  datatype DomainUserType = Normal | Anonymous | Convergence

  /** A user id; its guid string is taken to identify it uniquely, so maps
      keyed by guid are keyed by the id itself here. */
  datatype DomainUserId = DomainUserId(userType: DomainUserType, username: string)

  /** A user as it is cached.  Profile fields other than the display name
      and e-mail are not part of this model. */
  datatype DomainUser = DomainUser(userId: DomainUserId, displayName: Option<string>, email: Option<string>)

  /** The user a session belongs to, as the update message names it. */
  datatype SessionUser = SessionUser(userType: DomainUserType, username: string)

  /** An identity-update message, with absent fields already defaulted to
      empty: users in message order, and the user of each session. */
  datatype IdentityUpdate = IdentityUpdate(users: seq<DomainUser>, sessions: map<string, SessionUser>)

  /** `Map.get`: the value under `key`, if any. */
  function Find<K, V>(m: map<K, V>, key: K): (r: Option<V>)
    ensures r.Some? <==> key in m
    ensures r.Some? ==> r.value == m[key]
  {
    if key in m then Some(m[key]) else None
  }

  /** The cache of users after storing each incoming user in turn. */
  function WithUsers(users: map<DomainUserId, DomainUser>, incoming: seq<DomainUser>): map<DomainUserId, DomainUser>
  {
    if incoming == [] then users
    else
      var last := incoming[|incoming| - 1];
      WithUsers(users, incoming[..|incoming| - 1])[last.userId := last]
  }

  /** The position of the last incoming user with this id, or -1. */
  function LastIndex(incoming: seq<DomainUser>, id: DomainUserId): (r: int)
    ensures -1 <= r < |incoming|
    ensures r == -1 <==> forall i :: 0 <= i < |incoming| ==> incoming[i].userId != id
    ensures r >= 0 ==> incoming[r].userId == id && forall j :: r < j < |incoming| ==> incoming[j].userId != id
  {
    if incoming == [] then -1
    else if incoming[|incoming| - 1].userId == id then |incoming| - 1
    else LastIndex(incoming[..|incoming| - 1], id)
  }

  /** After the users of one message are stored, a user id finds the last
      user of the message with that id; an id the message does not mention
      finds what it found before. */
  lemma {:induction false} WithUsersLookup(users: map<DomainUserId, DomainUser>, incoming: seq<DomainUser>, id: DomainUserId)
    ensures Find(WithUsers(users, incoming), id) ==
      if LastIndex(incoming, id) >= 0 then Some(incoming[LastIndex(incoming, id)]) else Find(users, id)
  {
    if incoming != [] {
      var init := incoming[..|incoming| - 1];
      WithUsersLookup(users, init, id);
      if incoming[|incoming| - 1].userId != id {
        assert LastIndex(incoming, id) == LastIndex(init, id);
      }
    }
  }

  /** The cache key a session's user is looked up under. */
  function Guid(u: SessionUser): (id: DomainUserId)
    ensures id.userType == u.userType && id.username == u.username
  {
    DomainUserId(u.userType, u.username)
  }

  class IdentityCache {
    var users: map<DomainUserId, DomainUser>
    /** A session may be stored with no user, when its user was not cached
        at the time. */
    var sessions: map<string, Option<DomainUser>>

    constructor ()
      ensures users == map[] && sessions == map[]
    {
      users := map[];
      sessions := map[];
    }

    function GetUserForSession(sessionId: string): (r: Option<DomainUser>)
      reads this
      ensures sessionId !in sessions ==> r == None
      ensures sessionId in sessions ==> r == sessions[sessionId]
    {
      if sessionId in sessions then sessions[sessionId] else None
    }

    function GetUser(userId: DomainUserId): (r: Option<DomainUser>)
      reads this
      ensures r.Some? <==> userId in users
      ensures r.Some? ==> r.value == users[userId]
    {
      Find(users, userId)
    }

    /** Store the message's users, in order, and then its sessions, each
        resolved against the users as they are after the first step. */
    method ProcessIdentityUpdate(update: IdentityUpdate)
      modifies this
      ensures users == WithUsers(old(users), update.users)
      ensures sessions.Keys == old(sessions).Keys + update.sessions.Keys
      ensures forall sid :: sid in update.sessions ==> sessions[sid] == Find(users, Guid(update.sessions[sid]))
      ensures forall sid :: sid in old(sessions) && sid !in update.sessions ==> sessions[sid] == old(sessions)[sid]
    {
      var i := 0;
      while i < |update.users|
        invariant 0 <= i <= |update.users|
        invariant users == WithUsers(old(users), update.users[..i])
        invariant sessions == old(sessions)
      {
        var domainUser := update.users[i];
        assert update.users[..i + 1][..i] == update.users[..i];
        users := users[domainUser.userId := domainUser];
        i := i + 1;
      }
      assert update.users[..i] == update.users;

      var done: set<string> := {};
      while done != update.sessions.Keys
        invariant done <= update.sessions.Keys
        invariant users == WithUsers(old(users), update.users)
        invariant sessions.Keys == old(sessions).Keys + done
        invariant forall sid :: sid in done ==> sessions[sid] == Find(users, Guid(update.sessions[sid]))
        invariant forall sid :: sid in old(sessions) && sid !in done ==> sessions[sid] == old(sessions)[sid]
        decreases |update.sessions.Keys - done|
      {
        var sessionId :| sessionId in update.sessions.Keys - done;
        var domainUser := Find(users, Guid(update.sessions[sessionId]));
        sessions := sessions[sessionId := domainUser];
        done := done + {sessionId};
      }
    }
  }

  /** A session resolves to a user delivered in the same message. */
  lemma SessionFindsUserOfSameMessage(update: IdentityUpdate, oldUsers: map<DomainUserId, DomainUser>, sid: string, i: int)
    requires sid in update.sessions && 0 <= i < |update.users|
    requires update.users[i].userId == Guid(update.sessions[sid])
    ensures Find(WithUsers(oldUsers, update.users), Guid(update.sessions[sid])).Some?
  {
    WithUsersLookup(oldUsers, update.users, Guid(update.sessions[sid]));
  }
}
