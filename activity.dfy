/** An activity: the sessions that have joined it, grouped by user, and the
    join/leave events it emits.  A user-level event fires only when a user's
    first session joins or last session leaves. */
module Activity {

  datatype RemoteSession = RemoteSession(userId: string, sessionId: string)

  datatype EventName = UserJoined | UserLeft | SessionJoined | SessionLeft

  datatype ActivityEvent = ActivityEvent(name: EventName, activityId: string, userId: string, sessionId: string, local: bool)

  /** How a session-left message was handled: a user with no session list
      makes the handler fail before it changes anything. */
  datatype LeaveOutcome = Handled | UnknownUser

  // ---------------------------------------------------------------------
  // Specification functions

  /** The sessions of the listed users, user after user. */
  function Flatten(userIds: seq<string>, byUser: map<string, seq<RemoteSession>>): seq<RemoteSession>
    requires forall u :: u in userIds ==> u in byUser
  {
    if userIds == [] then []
    else Flatten(userIds[..|userIds| - 1], byUser) + byUser[userIds[|userIds| - 1]]
  }

  /** The number of sessions of the listed users. */
  function TotalSessions(userIds: seq<string>, byUser: map<string, seq<RemoteSession>>): nat
    requires forall u :: u in userIds ==> u in byUser
  {
    if userIds == [] then 0
    else TotalSessions(userIds[..|userIds| - 1], byUser) + |byUser[userIds[|userIds| - 1]]|
  }

  lemma {:induction false} FlattenLength(userIds: seq<string>, byUser: map<string, seq<RemoteSession>>)
    requires forall u :: u in userIds ==> u in byUser
    ensures |Flatten(userIds, byUser)| == TotalSessions(userIds, byUser)
  {
    if userIds != [] {
      FlattenLength(userIds[..|userIds| - 1], byUser);
    }
  }

  /** A session is listed by Flatten exactly when one of the listed users has
      it. */
  lemma {:induction false} FlattenMembership(userIds: seq<string>, byUser: map<string, seq<RemoteSession>>, s: RemoteSession)
    requires forall u :: u in userIds ==> u in byUser
    ensures s in Flatten(userIds, byUser) <==> exists u :: u in userIds && s in byUser[u]
  {
    if userIds != [] {
      var init, last := userIds[..|userIds| - 1], userIds[|userIds| - 1];
      FlattenMembership(init, byUser, s);
      assert userIds == init + [last];
      if s in byUser[last] {
        assert last in userIds;
      }
      if exists u :: u in userIds && s in byUser[u] {
        var u :| u in userIds && s in byUser[u];
        assert u in init || u == last;
      }
    }
  }

  /** What `_sessionLeft`'s `forEach` with an in-place `splice` leaves of a
      session list: an entry for the session is removed, and the entry that
      slides into its place is then not visited. */
  function SpliceMatches(sessions: seq<RemoteSession>, sessionId: string): seq<RemoteSession>
  {
    if sessions == [] then []
    else if sessions[0].sessionId == sessionId then
      (if |sessions| == 1 then [] else [sessions[1]] + SpliceMatches(sessions[2..], sessionId))
    else [sessions[0]] + SpliceMatches(sessions[1..], sessionId)
  }

  /** The list without any entry for the session. */
  function WithoutSession(sessions: seq<RemoteSession>, sessionId: string): (r: seq<RemoteSession>)
    ensures forall s :: s in r <==> s in sessions && s.sessionId != sessionId
  {
    if sessions == [] then []
    else if sessions[0].sessionId == sessionId then WithoutSession(sessions[1..], sessionId)
    else [sessions[0]] + WithoutSession(sessions[1..], sessionId)
  }

  /** At most one entry of the list belongs to the session. */
  predicate AtMostOnce(sessions: seq<RemoteSession>, sessionId: string) {
    forall i, j :: 0 <= i < j < |sessions| && sessions[i].sessionId == sessionId ==> sessions[j].sessionId != sessionId
  }

  /** When a session appears at most once in its user's list, the splice loop
      removes exactly that session. */
  lemma {:induction false} SpliceRemovesSingleEntry(sessions: seq<RemoteSession>, sessionId: string)
    requires AtMostOnce(sessions, sessionId)
    ensures SpliceMatches(sessions, sessionId) == WithoutSession(sessions, sessionId)
  {
    if sessions == [] {
    } else if sessions[0].sessionId == sessionId {
      if |sessions| > 1 {
        // every later entry belongs to another session
        forall i | 0 <= i < |sessions[1..]|
          ensures sessions[1..][i].sessionId != sessionId
        {
          assert sessions[1..][i] == sessions[i + 1];
        }
        NoneRemoved(sessions[1..], sessionId);
        assert sessions[1..][1..] == sessions[2..];
      }
    } else {
      assert AtMostOnce(sessions[1..], sessionId) by {
        forall i, j | 0 <= i < j < |sessions[1..]| && sessions[1..][i].sessionId == sessionId
          ensures sessions[1..][j].sessionId != sessionId
        {
          assert sessions[1..][i] == sessions[i + 1];
        }
      }
      SpliceRemovesSingleEntry(sessions[1..], sessionId);
    }
  }

  /** A list with no entry for the session is left as it is. */
  lemma {:induction false} NoneRemoved(sessions: seq<RemoteSession>, sessionId: string)
    requires forall i :: 0 <= i < |sessions| ==> sessions[i].sessionId != sessionId
    ensures WithoutSession(sessions, sessionId) == sessions
    ensures SpliceMatches(sessions, sessionId) == sessions
  {
    if sessions != [] {
      NoneRemoved(sessions[1..], sessionId);
    }
  }

  /** As written, two entries for the same session in a row survive as one:
      the second is never visited. */
  lemma DuplicateEntrySurvives(userId: string, sessionId: string)
    ensures var twice := [RemoteSession(userId, sessionId), RemoteSession(userId, sessionId)];
      SpliceMatches(twice, sessionId) == [RemoteSession(userId, sessionId)] &&
      WithoutSession(twice, sessionId) == []
  {
    var twice := [RemoteSession(userId, sessionId), RemoteSession(userId, sessionId)];
    assert twice[2..] == [];
    assert twice[1..] == [RemoteSession(userId, sessionId)];
    assert twice[1..][1..] == [];
    assert WithoutSession(twice[1..], sessionId) == WithoutSession(twice[1..][1..], sessionId);
  }

  /** The ordered user ids are exactly the keys of the map, each once. */
  ghost predicate KeyOrder(userIds: seq<string>, byUser: map<string, seq<RemoteSession>>) {
    (forall u :: u in userIds <==> u in byUser) &&
    DistinctIds(userIds)
  }

  /** The sequence without one of its elements. */
  function RemoveValue(s: seq<string>, x: string): (r: seq<string>)
    ensures forall y :: y in r <==> y in s && y != x
  {
    if s == [] then []
    else if s[0] == x then RemoveValue(s[1..], x)
    else
      var rest := RemoveValue(s[1..], x);
      assert forall y :: y in rest ==> y in s[1..];
      [s[0]] + rest
  }

  predicate DistinctIds(s: seq<string>) {
    forall i, j :: 0 <= i < j < |s| ==> s[i] != s[j]
  }

  /** Removing a user id keeps the ids distinct. */
  lemma {:induction false} RemoveValueDistinct(s: seq<string>, x: string)
    requires DistinctIds(s)
    ensures DistinctIds(RemoveValue(s, x))
  {
    if s != [] {
      assert DistinctIds(s[1..]) by {
        forall i, j | 0 <= i < j < |s[1..]| ensures s[1..][i] != s[1..][j] {
          assert s[1..][i] == s[i + 1] && s[1..][j] == s[j + 1];
        }
      }
      RemoveValueDistinct(s[1..], x);
      if s[0] != x {
        var rest := RemoveValue(s[1..], x);
        assert s[0] !in s[1..] by {
          forall i | 0 <= i < |s[1..]| ensures s[1..][i] != s[0] {
            assert s[1..][i] == s[i + 1];
          }
        }
        assert RemoveValue(s, x) == [s[0]] + rest;
        forall i, j | 0 <= i < j < |[s[0]] + rest| ensures ([s[0]] + rest)[i] != ([s[0]] + rest)[j] {
          if i == 0 {
            assert ([s[0]] + rest)[j] == rest[j - 1];
            assert rest[j - 1] in rest;
          } else {
            assert ([s[0]] + rest)[i] == rest[i - 1] && ([s[0]] + rest)[j] == rest[j - 1];
          }
        }
      }
    }
  }

  class Activity {
    const id: string
    /** The id of this client's own session: events about it are local. */
    const localSessionId: string

    /** The keys of `joinedSessionsByUserId` in insertion order. */
    var userIds: seq<string>
    var joinedSessionsByUserId: map<string, seq<RemoteSession>>
    var joined: bool
    var open: bool
    /** Every event emitted so far, oldest first. */
    var events: seq<ActivityEvent>

    ghost predicate Valid()
      reads this
    {
      KeyOrder(userIds, joinedSessionsByUserId)
    }

    /** No user is kept with an empty session list. */
    ghost predicate NoEmptyLists()
      reads this
    {
      forall u :: u in joinedSessionsByUserId ==> joinedSessionsByUserId[u] != []
    }

    constructor (id: string, localSessionId: string, userIds: seq<string>, joinedSessionsByUserId: map<string, seq<RemoteSession>>)
      requires KeyOrder(userIds, joinedSessionsByUserId)
      ensures Valid()
      ensures this.id == id && this.localSessionId == localSessionId
      ensures this.userIds == userIds && this.joinedSessionsByUserId == joinedSessionsByUserId
      ensures !joined && open && events == []
    {
      this.id := id;
      this.localSessionId := localSessionId;
      this.userIds := userIds;
      this.joinedSessionsByUserId := joinedSessionsByUserId;
      joined := false;
      open := true;
      events := [];
    }

    function Event(name: EventName, userId: string, sessionId: string): (e: ActivityEvent)
      reads this
      ensures e.local <==> sessionId == localSessionId
    {
      ActivityEvent(name, id, userId, sessionId, sessionId == localSessionId)
    }

    /** `_sessionJoined`: `userId` is the user the session id names. */
    method SessionJoinedHandler(sessionId: string, userId: string)
      requires Valid()
      modifies this
      ensures Valid()
      ensures joinedSessionsByUserId == old(joinedSessionsByUserId)[userId :=
        (if userId in old(joinedSessionsByUserId) then old(joinedSessionsByUserId)[userId] else []) +
        [RemoteSession(userId, sessionId)]]
      ensures userIds == if userId in old(joinedSessionsByUserId) then old(userIds) else old(userIds) + [userId]
      ensures events == old(events) +
        (if userId in old(joinedSessionsByUserId) then [] else [Event(UserJoined, userId, sessionId)]) +
        [Event(SessionJoined, userId, sessionId)]
      ensures old(NoEmptyLists()) ==> NoEmptyLists()
      ensures joined == old(joined) && open == old(open)
    {
      var fireUserEvent := false;
      var userSessions: seq<RemoteSession>;
      if userId !in joinedSessionsByUserId {
        fireUserEvent := true;
        userSessions := [];
        userIds := userIds + [userId];
      } else {
        userSessions := joinedSessionsByUserId[userId];
      }
      userSessions := userSessions + [RemoteSession(userId, sessionId)];
      joinedSessionsByUserId := joinedSessionsByUserId[userId := userSessions];
      if fireUserEvent {
        events := events + [Event(UserJoined, userId, sessionId)];
      }
      events := events + [Event(SessionJoined, userId, sessionId)];
    }

    /** `_sessionLeft`: `userId` is the user the session id names. */
    method SessionLeftHandler(sessionId: string, userId: string) returns (outcome: LeaveOutcome)
      requires Valid()
      modifies this
      ensures Valid()
      ensures outcome == UnknownUser <==> userId !in old(joinedSessionsByUserId)
      ensures outcome == UnknownUser ==>
        joinedSessionsByUserId == old(joinedSessionsByUserId) && userIds == old(userIds) && events == old(events)
      ensures outcome == Handled ==>
        var rest := SpliceMatches(old(joinedSessionsByUserId)[userId], sessionId);
        (rest == [] ==> joinedSessionsByUserId == old(joinedSessionsByUserId) - {userId} &&
                        userIds == RemoveValue(old(userIds), userId)) &&
        (rest != [] ==> joinedSessionsByUserId == old(joinedSessionsByUserId)[userId := rest] &&
                        userIds == old(userIds)) &&
        events == old(events) +
          (if rest == [] then [Event(UserLeft, userId, sessionId)] else []) +
          [Event(SessionLeft, userId, sessionId)]
      ensures old(NoEmptyLists()) ==> NoEmptyLists()
      ensures joined == old(joined) && open == old(open)
    {
      if userId !in joinedSessionsByUserId {
        return UnknownUser;
      }
      var fireUserEvent := false;
      var userSessions := RemoveVisited(joinedSessionsByUserId[userId], sessionId);
      if |userSessions| == 0 {
        fireUserEvent := true;
        joinedSessionsByUserId := joinedSessionsByUserId - {userId};
        RemoveValueDistinct(userIds, userId);
        userIds := RemoveValue(userIds, userId);
      } else {
        joinedSessionsByUserId := joinedSessionsByUserId[userId := userSessions];
      }
      if fireUserEvent {
        events := events + [Event(UserLeft, userId, sessionId)];
      }
      events := events + [Event(SessionLeft, userId, sessionId)];
      outcome := Handled;
    }

    /** This client's join request succeeded. */
    method JoinSucceeded(localUserId: string)
      requires Valid()
      modifies this
      ensures Valid() && joined && open == old(open)
      ensures joinedSessionsByUserId == old(joinedSessionsByUserId)[localUserId :=
        (if localUserId in old(joinedSessionsByUserId) then old(joinedSessionsByUserId)[localUserId] else []) +
        [RemoteSession(localUserId, localSessionId)]]
      ensures userIds == if localUserId in old(joinedSessionsByUserId) then old(userIds) else old(userIds) + [localUserId]
      ensures events == old(events) +
        (if localUserId in old(joinedSessionsByUserId) then [] else [Event(UserJoined, localUserId, localSessionId)]) +
        [Event(SessionJoined, localUserId, localSessionId)]
      ensures old(NoEmptyLists()) ==> NoEmptyLists()
    {
      joined := true;
      SessionJoinedHandler(localSessionId, localUserId);
    }

    /** This client's leave request succeeded. */
    method LeaveSucceeded(localUserId: string) returns (outcome: LeaveOutcome)
      requires Valid()
      modifies this
      ensures Valid() && !joined && open == old(open)
      ensures outcome == UnknownUser <==> localUserId !in old(joinedSessionsByUserId)
      ensures outcome == UnknownUser ==>
        joinedSessionsByUserId == old(joinedSessionsByUserId) && userIds == old(userIds) && events == old(events)
      ensures outcome == Handled ==>
        var rest := SpliceMatches(old(joinedSessionsByUserId)[localUserId], localSessionId);
        (rest == [] ==> joinedSessionsByUserId == old(joinedSessionsByUserId) - {localUserId} &&
                        userIds == RemoveValue(old(userIds), localUserId)) &&
        (rest != [] ==> joinedSessionsByUserId == old(joinedSessionsByUserId)[localUserId := rest] &&
                        userIds == old(userIds)) &&
        events == old(events) +
          (if rest == [] then [Event(UserLeft, localUserId, localSessionId)] else []) +
          [Event(SessionLeft, localUserId, localSessionId)]
      ensures old(NoEmptyLists()) ==> NoEmptyLists()
    {
      joined := false;
      outcome := SessionLeftHandler(localSessionId, localUserId);
    }

    /** `close()`: the activity is neither open nor joined from the moment
        the close request is sent. */
    method Close()
      modifies this
      ensures !open && !joined
      ensures joinedSessionsByUserId == old(joinedSessionsByUserId) && userIds == old(userIds)
      ensures events == old(events)
    {
      open := false;
      joined := false;
    }

    function Joined(): (r: bool)
      reads this
    {
      joined
    }

    function Opened(): (r: bool)
      reads this
    {
      open
    }

    /** Every joined session, user after user in key order. */
    method JoinedSessions() returns (result: seq<RemoteSession>)
      requires Valid()
      ensures result == Flatten(userIds, joinedSessionsByUserId)
      ensures |result| == TotalSessions(userIds, joinedSessionsByUserId)
    {
      result := [];
      var i := 0;
      while i < |userIds|
        invariant 0 <= i <= |userIds|
        invariant result == Flatten(userIds[..i], joinedSessionsByUserId)
      {
        var sessions := joinedSessionsByUserId[userIds[i]];
        var j := 0;
        while j < |sessions|
          invariant 0 <= j <= |sessions|
          invariant result == Flatten(userIds[..i], joinedSessionsByUserId) + sessions[..j]
        {
          result := result + [sessions[j]];
          j := j + 1;
        }
        assert userIds[..i + 1][..i] == userIds[..i];
        i := i + 1;
      }
      assert userIds[..i] == userIds;
      FlattenLength(userIds, joinedSessionsByUserId);
    }

    /** A copy of the sessions by user: the same keys and the same lists. */
    method JoinedSessionsByUserId() returns (result: map<string, seq<RemoteSession>>)
      requires Valid()
      ensures result.Keys == joinedSessionsByUserId.Keys
      ensures forall u :: u in result ==> result[u] == joinedSessionsByUserId[u]
    {
      result := map[];
      var i := 0;
      while i < |userIds|
        invariant 0 <= i <= |userIds|
        invariant forall u :: u in result <==> u in userIds[..i]
        invariant forall u :: u in result ==> result[u] == joinedSessionsByUserId[u]
      {
        var userId := userIds[i];
        var sessions: seq<RemoteSession> := [];
        var j := 0;
        while j < |joinedSessionsByUserId[userId]|
          invariant 0 <= j <= |joinedSessionsByUserId[userId]|
          invariant sessions == joinedSessionsByUserId[userId][..j]
        {
          sessions := sessions + [joinedSessionsByUserId[userId][j]];
          j := j + 1;
        }
        result := result[userId := sessions];
        assert userIds[..i + 1] == userIds[..i] + [userId];
        i := i + 1;
      }
      assert userIds[..i] == userIds;
    }
  }

  /** Part way through the splice loop at visit index `k`: what is still to
      be visited, spliced, gives `target` after the entries already kept. */
  ghost predicate Progress(target: seq<RemoteSession>, list: seq<RemoteSession>, k: nat, sessionId: string) {
    k <= |list| + 1 &&
    (k <= |list| ==> target == list[..k] + SpliceMatches(list[k..], sessionId)) &&
    (k == |list| + 1 ==> target == list)
  }

  /** One visit of the loop keeps `Progress`. */
  lemma ProgressStep(target: seq<RemoteSession>, list: seq<RemoteSession>, k: nat, sessionId: string)
    requires Progress(target, list, k, sessionId) && k < |list|
    ensures Progress(target, if list[k].sessionId == sessionId then list[..k] + list[k + 1..] else list, k + 1, sessionId)
  {
    var prefix, tail := list[..k], list[k..];
    assert tail[1..] == list[k + 1..];
    if list[k].sessionId == sessionId {
      var next := list[..k] + list[k + 1..];
      assert next[..k] == prefix;
      if k + 1 <= |next| {
        assert next[..k + 1] == prefix + [tail[1]];
        assert next[k + 1..] == tail[2..];
      } else {
        assert next == prefix;
      }
    } else {
      assert list[..k + 1] == prefix + [tail[0]];
    }
  }

  /** The `forEach` loop of `_sessionLeft` over a user's session list, with
      its in-place `splice`: after a removal the visit index still moves on. */
  method RemoveVisited(sessions: seq<RemoteSession>, sessionId: string) returns (list: seq<RemoteSession>)
    ensures list == SpliceMatches(sessions, sessionId)
  {
    list := sessions;
    var k := 0;
    assert list[..0] == [] && list[0..] == list;
    while k < |list|
      invariant Progress(SpliceMatches(sessions, sessionId), list, k, sessionId)
      decreases |list| + 1 - k
    {
      ProgressStep(SpliceMatches(sessions, sessionId), list, k, sessionId);
      if list[k].sessionId == sessionId {
        list := list[..k] + list[k + 1..];
      }
      k := k + 1;
    }
    if k == |list| {
      assert list[..k] == list && list[k..] == [];
    }
  }
}
