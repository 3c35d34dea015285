/** The request-free logic of the chat service: checking the options of a
    new channel, choosing the channel class for a channel type, and turning
    the server's channel data into channel info. */
module ChatService {
  import opened Ops
  import opened IdentityCache

  /** A member as `create` accepts it: a full user id, or a plain username
      that stands for a normal user. */
  datatype DomainUserIdentifier = UserId(id: DomainUserId) | Username(name: string)

  datatype CreateChatChannelOptions = CreateChatChannelOptions(
    channelType: string,
    membership: string,
    id: Option<string>,
    name: Option<string>,
    topic: Option<string>,
    members: Option<seq<DomainUserIdentifier>>,
    ignoreExistsError: bool)

  /** Why `create` refuses its options, one per check, in the order the
      checks are made. */
  datatype CreateError =
    | OptionsMissing
    | InvalidType(channelType: string)
    | InvalidMembership(membership: string)
    | RoomMustBePublic
    | EmptyId

  /** The create-channel request sent to the server. */
  datatype CreateChatChannelRequest = CreateChatChannelRequest(
    channelId: Option<string>,
    channelType: string,
    membership: string,
    name: Option<string>,
    topic: Option<string>,
    members: seq<DomainUserId>)

  datatype CreateResult = Request(request: CreateChatChannelRequest) | Rejected(error: CreateError)

  /** The user id a member identifier names. */
  function MemberId(m: DomainUserIdentifier): (id: DomainUserId)
    ensures m.UserId? ==> id == m.id
    ensures m.Username? ==> id == DomainUserId(Normal, m.name)
  {
    match m
    case UserId(id) => id
    case Username(name) => DomainUserId(Normal, name)
  }

  function MemberIds(members: seq<DomainUserIdentifier>): (ids: seq<DomainUserId>)
    ensures |ids| == |members|
    ensures forall i :: 0 <= i < |members| ==> ids[i] == MemberId(members[i])
  {
    if members == [] then [] else [MemberId(members[0])] + MemberIds(members[1..])
  }

  /** The channel types and memberships a new channel may have. */
  predicate AcceptedKind(channelType: string, membership: string) {
    (channelType, membership) in {("group", "public"), ("group", "private"), ("room", "public")}
  }

  /** `create` up to the request: the options are checked in turn, and the
      first failing check decides the error. */
  function Create(options: Option<CreateChatChannelOptions>): (r: CreateResult)
    ensures options.None? ==> r == Rejected(OptionsMissing)
    ensures r.Request? <==>
      options.Some? && AcceptedKind(options.value.channelType, options.value.membership) &&
      (options.value.id.None? || options.value.id.value != "")
    ensures options.Some? && options.value.channelType != "group" && options.value.channelType != "room" ==>
      r == Rejected(InvalidType(options.value.channelType))
    ensures (options.Some? && (options.value.channelType == "group" || options.value.channelType == "room") &&
             options.value.membership != "public" && options.value.membership != "private") ==>
      r == Rejected(InvalidMembership(options.value.membership))
    ensures options.Some? && options.value.channelType == "room" && options.value.membership == "private" ==>
      r == Rejected(RoomMustBePublic)
    ensures options.Some? && AcceptedKind(options.value.channelType, options.value.membership) &&
            options.value.id == Some("") ==>
      r == Rejected(EmptyId)
    ensures r.Request? ==>
      var o := options.value;
      r.request.channelId == o.id && r.request.channelType == o.channelType &&
      r.request.membership == o.membership && r.request.name == o.name && r.request.topic == o.topic &&
      r.request.members == MemberIds(if o.members.Some? then o.members.value else [])
  {
    if options.None? then Rejected(OptionsMissing)
    else
      var o := options.value;
      if o.channelType != "group" && o.channelType != "room" then Rejected(InvalidType(o.channelType))
      else if o.membership != "public" && o.membership != "private" then Rejected(InvalidMembership(o.membership))
      else if o.channelType == "room" && o.membership == "private" then Rejected(RoomMustBePublic)
      else if o.id.Some? && o.id.value == "" then Rejected(EmptyId)
      else
        var members := if o.members.Some? then o.members.value else [];
        Request(CreateChatChannelRequest(o.id, o.channelType, o.membership, o.name, o.topic, MemberIds(members)))
  }

  /** A direct channel cannot be created through `create`, whatever its
      membership. */
  lemma DirectChannelsRejected(options: CreateChatChannelOptions)
    requires options.channelType == "direct"
    ensures Create(Some(options)) == Rejected(InvalidType("direct"))
  {
  }

  // ---------------------------------------------------------------------
  // Channel info

  datatype ChatChannelMemberData = ChatChannelMemberData(user: DomainUserId, maxSeenEventNumber: int)

  /** The server's description of a channel; times are integer
      milliseconds. */
  datatype ChatChannelInfoData = ChatChannelInfoData(
    id: string,
    channelType: string,
    membership: string,
    name: string,
    topic: string,
    createdTime: int,
    lastEventTime: int,
    lastEventNumber: int,
    members: seq<ChatChannelMemberData>)

  /** A member as the client sees it: the cached user, if any. */
  datatype ChatChannelMember = ChatChannelMember(user: Option<DomainUser>, maxSeenEventNumber: int)

  datatype ChatChannelInfo = ChatChannelInfo(
    channelId: string,
    channelType: string,
    channelMembership: string,
    name: string,
    topic: string,
    createdTime: int,
    lastEventTime: int,
    lastEventNumber: int,
    maxSeenEventNumber: int,
    members: seq<ChatChannelMember>)

  /** The position of the last member that is the local user, or -1. */
  function LastLocal(members: seq<ChatChannelMemberData>, localUserId: DomainUserId): (r: int)
    ensures -1 <= r < |members|
    ensures r == -1 <==> forall i :: 0 <= i < |members| ==> members[i].user != localUserId
    ensures r >= 0 ==>
      members[r].user == localUserId && (forall j :: r < j < |members| ==> members[j].user != localUserId)
  {
    if members == [] then -1
    else if members[|members| - 1].user == localUserId then |members| - 1
    else LastLocal(members[..|members| - 1], localUserId)
  }

  /** The event number the local user has seen up to: that of its last
      entry among the members, or -1 when it is not a member. */
  function MaxSeen(members: seq<ChatChannelMemberData>, localUserId: DomainUserId): int {
    var k := LastLocal(members, localUserId);
    if k >= 0 then members[k].maxSeenEventNumber else -1
  }

  /** `_createChannelInfo`: one member entry per member of the data, in
      order, with the user looked up in the identity cache. */
  method CreateChannelInfo(channelData: ChatChannelInfoData, localUserId: DomainUserId, cache: IdentityCache)
    returns (info: ChatChannelInfo)
    ensures info.maxSeenEventNumber == MaxSeen(channelData.members, localUserId)
    ensures |info.members| == |channelData.members|
    ensures forall i :: 0 <= i < |channelData.members| ==>
      info.members[i] == ChatChannelMember(cache.GetUser(channelData.members[i].user), channelData.members[i].maxSeenEventNumber)
    ensures info.channelId == channelData.id && info.channelType == channelData.channelType
    ensures info.channelMembership == channelData.membership
    ensures info.name == channelData.name && info.topic == channelData.topic
    ensures info.createdTime == channelData.createdTime && info.lastEventTime == channelData.lastEventTime
    ensures info.lastEventNumber == channelData.lastEventNumber
  {
    var maxEvent := -1;
    var members: seq<ChatChannelMember> := [];
    var i := 0;
    while i < |channelData.members|
      invariant 0 <= i <= |channelData.members|
      invariant maxEvent == MaxSeen(channelData.members[..i], localUserId)
      invariant |members| == i
      invariant forall j :: 0 <= j < i ==>
        members[j] == ChatChannelMember(cache.GetUser(channelData.members[j].user), channelData.members[j].maxSeenEventNumber)
    {
      var member := channelData.members[i];
      assert channelData.members[..i + 1][..i] == channelData.members[..i];
      if member.user == localUserId {
        maxEvent := member.maxSeenEventNumber;
      }
      var user := cache.GetUser(member.user);
      members := members + [ChatChannelMember(user, member.maxSeenEventNumber)];
      i := i + 1;
    }
    assert channelData.members[..i] == channelData.members;
    info := ChatChannelInfo(channelData.id, channelData.channelType, channelData.membership, channelData.name,
      channelData.topic, channelData.createdTime, channelData.lastEventTime, channelData.lastEventNumber,
      maxEvent, members);
  }

  /** The maximum seen event number is -1 exactly when the local user is
      not a member, provided no member reports -1 itself. */
  lemma MaxSeenWithoutLocalUser(members: seq<ChatChannelMemberData>, localUserId: DomainUserId)
    requires forall i :: 0 <= i < |members| ==> members[i].maxSeenEventNumber >= 0
    ensures MaxSeen(members, localUserId) == -1 <==> forall i :: 0 <= i < |members| ==> members[i].user != localUserId
  {
  }

  /** A later entry for the local user overrides an earlier one. */
  lemma {:induction false} MaxSeenLastEntryWins(members: seq<ChatChannelMemberData>, more: seq<ChatChannelMemberData>,
                                                localUserId: DomainUserId)
    ensures MaxSeen(members + more, localUserId) ==
      if LastLocal(more, localUserId) >= 0 then MaxSeen(more, localUserId) else MaxSeen(members, localUserId)
  {
    if more != [] {
      var init := more[..|more| - 1];
      MaxSeenLastEntryWins(members, init, localUserId);
      assert (members + more)[..|members + more| - 1] == members + init;
    } else {
      assert members + more == members;
    }
  }

  // ---------------------------------------------------------------------
  // Channel class by type

  datatype ChatChannel = DirectChatChannel(info: ChatChannelInfo) | GroupChatChannel(info: ChatChannelInfo) | ChatRoomChannel(info: ChatChannelInfo)

  datatype ChannelResult = Channel(channel: ChatChannel) | InvalidChannelType(channelType: string)

  /** `_createChannel`: the channel class follows the channel type; any other
      type is an error. */
  function CreateChannel(info: ChatChannelInfo): (r: ChannelResult)
    ensures r.InvalidChannelType? <==> info.channelType !in {"direct", "group", "room"}
    ensures r.InvalidChannelType? ==> r.channelType == info.channelType
    ensures r.Channel? ==> r.channel.info == info
    ensures r.Channel? ==>
      (r.channel.DirectChatChannel? <==> info.channelType == "direct") &&
      (r.channel.GroupChatChannel? <==> info.channelType == "group") &&
      (r.channel.ChatRoomChannel? <==> info.channelType == "room")
  {
    if info.channelType == "direct" then Channel(DirectChatChannel(info))
    else if info.channelType == "group" then Channel(GroupChatChannel(info))
    else if info.channelType == "room" then Channel(ChatRoomChannel(info))
    else InvalidChannelType(info.channelType)
  }
}
