# Convergence client core, modelled in Dafny

This project models the synchronous logic of the Convergence JavaScript
client, a real-time collaboration library, and proves properties about it.
It covers the following parts:

- **Operational transformation.** These are the pairwise transformation
  functions (OTFs) that reconcile a server operation `s` with a concurrent
  client operation `c` on the same model node. They cover set-dominance
  (a whole-value Set beats an Insert, Remove, Replace, AddProperty,
  SetProperty or Add), same-value Set/Set, property-key resolution for
  RemoveProperty against SetProperty, and Add/Add pass-through. Operations
  are immutable records; the no-op copy and `StringSetOperation.copy` are
  modelled with them (`Ops`, `Xform`).
- **Array move classification** (`ArrayMoveHelper`). This covers the
  direction of a move, its index range, and where an index falls relative
  to that range.
- **The reference map** (`ReferenceMap`). This is a store of model
  references (cursors, selections) keyed by session and then by key, updated
  in place.
- **Activities** (`Activity`). An activity keeps each user's joined
  sessions. It fires a user-level event only on a user's first join and
  last leave.
- **The identity cache** (`IdentityCache`). This holds users by id and
  sessions by session id, fed by update messages.
- **Chat service helpers** (`ChatService`). These are the option checks of
  `create`, the channel class chosen for a channel type, and the channel
  info built from server data, including the local user's maximum seen
  event number.
- **Rich text** (`RichText`). This covers a node's parent, its index, its
  path and root, and its attributes. It also covers the text length of a
  fragment and of an object.

Code that keeps state (the reference map, activities, the identity cache,
rich-text nodes) is modelled as classes whose methods update fields, with
loops where the source loops. Code without state (the transformation
functions, the move helper, the option checks) is modelled as functions.

### Reference semantics for convergence

The document tree that applies operations is not part of this model.
`Xform.Apply` therefore gives each operation a plain meaning on a node
value:
- a no-op leaves the value unchanged;
- an index must be in range;
- AddProperty needs an absent key;
- SetProperty and RemoveProperty need a present key.

Each OTF is then proved to converge: applying `s` and then the transformed
client operation gives the same value as applying `c` and then the
transformed server operation. This is proved for operations that are not
no-ops and that each apply to the common starting value (`Xform.Concurrent`).
For a no-op input the transformation functions would still, for example,
let a no-op Set cancel a live Insert. The dispatcher, which is not part of
this model, is taken to skip no-op inputs.

### Behaviour modelled as written

- `_sessionLeft` removes a session from its user's list by calling `splice`
  inside `forEach`. After each removal the entry that slides into the freed
  slot is not visited. `Activity.SpliceMatches` models exactly this.
  `Activity.SpliceRemovesSingleEntry` proves it agrees with removing the
  session whenever the session appears at most once. `Activity.DuplicateEntrySurvives`
  shows that two entries for the same session in a row leave one behind.
- `_sessionLeft` for a user with no session list fails before it changes
  anything. The model returns `UnknownUser` and leaves the state unchanged.
- `DateSetSetOTF`, for equal timestamps, builds both sides of its result
  from `s`. `ArraySetSetOTF` builds its client side from `c`.
  `Xform.DateSetSetClientSideIsClientCopy` shows the difference cannot be
  seen when both operations target the same node, which is the only way the
  function is called.

## Model

| member | source | states |
|---|---|---|
| Ops.TypeOf | src/main/ts/model/ot/ops/StringSetOperation.ts:12-13 | an operation has the STRING_VALUE type exactly when it is a string Set |
| Ops.CopyNoOp | src/main/ts/model/ot/xform/array/ArraySetSetOTF.ts:10 | `copy({noOp: true})` gives a no-op with the same id, variant, fields and operation type |
| Ops.NewStringSetOperation | src/main/ts/model/ot/ops/StringSetOperation.ts:12-15 | a constructed string Set has type STRING_VALUE and the given id, noOp and value |
| Ops.Update | src/main/ts/model/ot/ops/StringSetOperation.ts:19-21 | an update that is defined replaces the current value; an undefined one keeps it |
| Ops.Copy | src/main/ts/model/ot/ops/StringSetOperation.ts:17-22 | each field of the copy comes from the updates where they are defined and from the original otherwise; the result is a new string Set |
| Ops.CopyNoUpdatesIsIdentity | src/main/ts/model/ot/ops/StringSetOperation.ts:17-22 | `copy({})` equals the original field by field |
| Ops.CopyNoOpUpdate | src/main/ts/model/ot/ops/StringSetOperation.ts:17-22 | `copy({noOp: true})` changes only the flag |
| Ops.CopyValueUpdate | src/main/ts/model/ot/ops/StringSetOperation.ts:17-22 | `copy({value: v})` changes only the value |
| Ops.CopyIdempotent | src/main/ts/model/ot/ops/StringSetOperation.ts:17-22 | copying twice with the same updates is copying once |
| Xform.ObjectRemovePropertySetPropertyOTF | src/main/model/ot/xform/object/ObjectRemovePropertySetPropertyOTF.ts:27-36 | different properties: both operations unchanged; same property: the server Remove becomes a no-op and the client SetProperty becomes an AddProperty with the same id, flag, property and value |
| Xform.ObjectRemovePropertySetPropertyConverges | src/main/model/ot/xform/object/ObjectRemovePropertySetPropertyOTF.ts:27-36 | the transformed pair converges on every object where both operations apply |
| Xform.ObjectSetPropertySetOTF | src/main/ts/model/ot/xform/object/ObjectSetPropertySetOTF.ts:7-9 | the server SetProperty becomes a no-op that keeps everything else, and the client Set passes unchanged |
| Xform.ObjectSetPropertySetConverges | src/main/ts/model/ot/xform/object/ObjectSetPropertySetOTF.ts:7-9 | the client's object Set wins on both sides |
| Xform.ObjectSetAddPropertyOTF | src/main/ts/model/ot/xform/object/ObjectSetAddPropertyOTF.ts:7-9 | the server Set passes unchanged, and the client AddProperty becomes a no-op that keeps everything else |
| Xform.ObjectSetAddPropertyConverges | src/main/ts/model/ot/xform/object/ObjectSetAddPropertyOTF.ts:7-9 | the server's object Set wins on both sides |
| Xform.DateSetSetOTF | src/main/model/ot/xform/date/DateSetSetOTF.ts:24-31 | equal milliseconds: both sides are no-op copies of `s`; different: `s` passes and `c` becomes a no-op; the client side is always a no-op that keeps `c`'s value |
| Xform.DateSetSetClientSideIsClientCopy | src/main/model/ot/xform/date/DateSetSetOTF.ts:27 | for operations on the same node, the client side equals the no-op copy of `c` |
| Xform.DateSetSetConverges | src/main/model/ot/xform/date/DateSetSetOTF.ts:24-31 | both sides end at the server's date |
| Xform.ArraySetSetOTF | src/main/ts/model/ot/xform/array/ArraySetSetOTF.ts:7-14 | the client side is always the no-op copy of `c`; the server side is `s` unless the values are equal, when it is the no-op copy of `s` (no-op iff equal) |
| Xform.ArraySetSetConverges | src/main/ts/model/ot/xform/array/ArraySetSetOTF.ts:7-14 | both sides end at the server's array |
| Xform.ArrayReplaceSetOTF | src/main/ts/model/ot/xform/array/ArrayReplaceSetOTF.ts:11-13 | the server Replace becomes a no-op keeping id, index and value; the client Set passes unchanged |
| Xform.ArrayReplaceSetConverges | src/main/ts/model/ot/xform/array/ArrayReplaceSetOTF.ts:11-13 | both sides end at the client's array |
| Xform.ArrayInsertSetOTF | src/main/ts/model/ot/xform/array/ArrayInsertSetOTF.ts:11-13 | the server Insert becomes a no-op keeping id, index and value; the client Set passes unchanged |
| Xform.ArrayInsertSetConverges | src/main/ts/model/ot/xform/array/ArrayInsertSetOTF.ts:11-13 | both sides end at the client's array |
| Xform.ArraySetInsertOTF | src/main/ts/model/ot/xform/array/ArraySetInsertOTF.ts:11-13 | the server Set passes unchanged; the client Insert becomes a no-op keeping id, index and value |
| Xform.ArraySetInsertConverges | src/main/ts/model/ot/xform/array/ArraySetInsertOTF.ts:11-13 | both sides end at the server's array |
| Xform.ArraySetInsertMirrorsInsertSet | src/main/ts/model/ot/xform/array/ArraySetInsertOTF.ts:11-13 | A-SI is A-IS with server and client exchanged |
| Xform.ArraySetRemoveOTF | src/main/ts/model/ot/xform/array/ArraySetRemoveOTF.ts:11-13 | the server Set passes unchanged; the client Remove becomes a no-op keeping id and index |
| Xform.ArraySetRemoveConverges | src/main/ts/model/ot/xform/array/ArraySetRemoveOTF.ts:11-13 | both sides end at the server's array |
| Xform.StringSetInsertOTF | src/main/ts/model/ot/xform/string/StringSetInsertOTF.ts:7-9 | the server Set passes unchanged; the client Insert becomes a no-op keeping id, index and text |
| Xform.StringSetInsertConverges | src/main/ts/model/ot/xform/string/StringSetInsertOTF.ts:7-9 | both sides end at the server's string |
| Xform.StringInsertSetOTF | src/main/ts/model/ot/xform/string/StringInsertSetOTF.ts:7-9 | the server Insert becomes a no-op keeping id, index and text; the client Set passes unchanged |
| Xform.StringInsertSetConverges | src/main/ts/model/ot/xform/string/StringInsertSetOTF.ts:7-9 | both sides end at the client's string |
| Xform.StringInsertSetMirrorsSetInsert | src/main/ts/model/ot/xform/string/StringInsertSetOTF.ts:7-9 | S-IS is S-SI with server and client exchanged |
| Xform.StringRemoveSetOTF | src/main/ts/model/ot/xform/string/StringRemoveSetOTF.ts:7-9 | the server Remove becomes a no-op keeping id, index and removed text; the client Set passes unchanged |
| Xform.StringRemoveSetConverges | src/main/ts/model/ot/xform/string/StringRemoveSetOTF.ts:7-9 | both sides end at the client's string |
| Xform.StringSetRemoveOTF | src/main/ts/model/ot/xform/string/StringSetRemoveOTF.ts:7-9 | the server Set passes unchanged; the client Remove becomes a no-op keeping id, index and removed text |
| Xform.StringSetRemoveConverges | src/main/ts/model/ot/xform/string/StringSetRemoveOTF.ts:7-9 | both sides end at the server's string |
| Xform.StringSetRemoveMirrorsRemoveSet | src/main/ts/model/ot/xform/string/StringSetRemoveOTF.ts:7-9 | S-SR is S-RS with server and client exchanged |
| Xform.NumberSetAddOTF | src/main/ts/model/ot/xform/number/NumberSetAddOTF.ts:6-9 | the server Set passes unchanged; the client Add becomes a no-op keeping id and delta |
| Xform.NumberSetAddConverges | src/main/ts/model/ot/xform/number/NumberSetAddOTF.ts:6-9 | both sides end at the server's number |
| Xform.NumberAddAddOTF | src/main/ts/model/ot/xform/number/NumberAddAddOTF.ts:6-8 | both Adds pass unchanged, flags included |
| Xform.NumberAddAddConverges | src/main/ts/model/ot/xform/number/NumberAddAddOTF.ts:6-8 | applying the two Adds in either order gives the start value plus both deltas |
| ArrayMoveHelper.IsForwardMove | src/main/ts/model/ot/xform/array/ArrayMoveHelper.ts:16-18 | a forward move is one whose from index is the lower end of a range of more than one index |
| ArrayMoveHelper.IsBackwardMoveMove | src/main/ts/model/ot/xform/array/ArrayMoveHelper.ts:28-30 | a backward move is one whose to index is the lower end of a range of more than one index |
| ArrayMoveHelper.IsIdentityMove | src/main/ts/model/ot/xform/array/ArrayMoveHelper.ts:40-42 | an identity move is one whose range is a single index |
| ArrayMoveHelper.GetMoveDirection | src/main/ts/model/ot/xform/array/ArrayMoveHelper.ts:51-59 | the direction is Forward, Backward or Identity exactly when the matching predicate holds |
| ArrayMoveHelper.ExactlyOneDirection | src/main/ts/model/ot/xform/array/ArrayMoveHelper.ts:16-42 | every move satisfies exactly one of the three direction predicates |
| ArrayMoveHelper.GetRangeMin | src/main/ts/model/ot/xform/array/ArrayMoveHelper.ts:128-130 | the minimum is at most both indices and is one of them |
| ArrayMoveHelper.GetRangeMax | src/main/ts/model/ot/xform/array/ArrayMoveHelper.ts:139-141 | the maximum is at least both indices and is one of them |
| ArrayMoveHelper.RangeByDirection | src/main/ts/model/ot/xform/array/ArrayMoveHelper.ts:16-42 | min <= max; a forward move spans from..to, a backward one to..from, an identity move a single index |
| ArrayMoveHelper.IndexBeforeRange | src/main/ts/model/ot/xform/array/ArrayMoveHelper.ts:70-72 | an index is before the range exactly when it is below both ends of the move |
| ArrayMoveHelper.IndexAfterRange | src/main/ts/model/ot/xform/array/ArrayMoveHelper.ts:83-85 | an index is after the range exactly when it is above both ends of the move |
| ArrayMoveHelper.IndexWithinRange | src/main/ts/model/ot/xform/array/ArrayMoveHelper.ts:98-100 | an index is within the range exactly when it lies strictly between from and to, in either direction |
| ArrayMoveHelper.IndexClassification | src/main/ts/model/ot/xform/array/ArrayMoveHelper.ts:70-100 | before, within and after are pairwise exclusive; an index is in none of them exactly when it is an end of the range |
| ArrayMoveHelper.IdentityMoveContainsNothing | src/main/ts/model/ot/xform/array/ArrayMoveHelper.ts:98-100 | no index is within the range of an identity move |
| ArrayMoveHelper.ReversedMoveSameRange | src/main/ts/model/ot/xform/array/ArrayMoveHelper.ts:70-100 | exchanging from and to keeps min, max and the three index predicates, and flips forward into backward |
| ArrayMoveHelper.GetRangeIndexRelationship | src/main/ts/model/ot/xform/array/ArrayMoveHelper.ts:102-104 | the range utility is given the lower then the higher end of the move, whichever of from and to that is, and the index |
| ArrayMoveHelper.GetRangeRelationship | src/main/ts/model/ot/xform/array/ArrayMoveHelper.ts:116-119 | the range utility is given each move's lower then higher end, whichever of from and to that is |
| ArrayMoveHelper.RangeRelationshipBySpan | src/main/ts/model/ot/xform/array/ArrayMoveHelper.ts:116-119 | the relationship of two moves depends only on each move's (min, max) |
| ReferenceMap.DistinctConcat | src/main/ts/model/reference/ReferenceMap.ts:53-62 | joining two duplicate-free lists with no common element gives a duplicate-free list |
| ReferenceMap.CollectKeys | src/main/ts/model/reference/ReferenceMap.ts:55-61 | the references of one session's table under the chosen keys, each exactly once |
| ReferenceMap.CollectSessions | src/main/ts/model/reference/ReferenceMap.ts:53-62 | the stored references of the chosen sessions that match the key filter, each exactly once |
| ReferenceMap.ReferenceMap.constructor | src/main/ts/model/reference/ReferenceMap.ts:9-11 | a new map is empty |
| ReferenceMap.ReferenceMap.Put | src/main/ts/model/reference/ReferenceMap.ts:13-28 | an occupied slot fails and changes nothing; otherwise the reference is stored, found by `get`, and no other slot changes |
| ReferenceMap.ReferenceMap.Get | src/main/ts/model/reference/ReferenceMap.ts:30-37 | found exactly when the session and the key are present; what is found is the stored reference of that session and key |
| ReferenceMap.ReferenceMap.GetAll | src/main/ts/model/reference/ReferenceMap.ts:39-65 | a session filter for an absent session fails; otherwise the result holds every stored reference that the filter selects, each exactly once, and an empty map lists nothing |
| ReferenceMap.ReferenceMap.RemoveAll | src/main/ts/model/reference/ReferenceMap.ts:67-69 | the map is empty afterwards |
| ReferenceMap.ReferenceMap.Remove | src/main/ts/model/reference/ReferenceMap.ts:71-80 | the result is what `get` found before; afterwards `get` finds nothing there, every other slot is unchanged, and the session's table stays |
| ReferenceMap.ReferenceMap.RemoveBySession | src/main/ts/model/reference/ReferenceMap.ts:82-84 | the session's references are all gone and other sessions are unchanged |
| ReferenceMap.ReferenceMap.RemoveByKey | src/main/ts/model/reference/ReferenceMap.ts:86-91 | the key is gone from every session, sessions stay, and other keys are unchanged |
| ReferenceMap.GetFindsStored | src/main/ts/model/reference/ReferenceMap.ts:30-37 | every stored reference is found again under its own session and key |
| Activity.FlattenLength | src/main/ts/activity/Activity.ts:115-124 | the list of all joined sessions is as long as the per-user lists together |
| Activity.FlattenMembership | src/main/ts/activity/Activity.ts:115-124 | a session is listed exactly when some user's list holds it |
| Activity.WithoutSession | src/main/ts/activity/Activity.ts:224-228 | the reference removal keeps exactly the entries of other sessions |
| Activity.SpliceRemovesSingleEntry | src/main/ts/activity/Activity.ts:224-228 | the splice loop removes exactly the session when it appears at most once |
| Activity.NoneRemoved | src/main/ts/activity/Activity.ts:224-228 | a list without the session is left as it is |
| Activity.DuplicateEntrySurvives | src/main/ts/activity/Activity.ts:224-228 | with two entries for the session in a row, one survives the splice loop |
| Activity.RemoveValue | src/main/ts/activity/Activity.ts:232 | deleting a user key keeps exactly the other keys |
| Activity.RemoveValueDistinct | src/main/ts/activity/Activity.ts:232 | the remaining keys stay distinct |
| Activity.ProgressStep | src/main/ts/activity/Activity.ts:224-228 | each visit of the splice loop keeps the loop's progress relation |
| Activity.RemoveVisited | src/main/ts/activity/Activity.ts:224-228 | the in-place loop leaves exactly `SpliceMatches` of the list |
| Activity.Activity.constructor | src/main/ts/activity/Activity.ts:42-60 | a new activity holds the given sessions, is open, and is not joined |
| Activity.Activity.Event | src/main/ts/activity/Activity.ts:197-215 | an event is local exactly when it concerns this client's own session |
| Activity.Activity.SessionJoinedHandler | src/main/ts/activity/Activity.ts:183-217 | the session is appended to its user's list, created if needed; USER_JOINED is emitted only for a new user, before SESSION_JOINED; no user is left with an empty list |
| Activity.Activity.SessionLeftHandler | src/main/ts/activity/Activity.ts:219-256 | an unknown user fails and changes nothing; otherwise the list is spliced, the user is deleted (with USER_LEFT) when the list empties, SESSION_LEFT is emitted last, and no user is left with an empty list |
| Activity.Activity.JoinSucceeded | src/main/ts/activity/Activity.ts:82-85 | the activity is joined; this client's session is appended to the local user's list (the user is added when new), USER_JOINED is emitted only for a new user, then SESSION_JOINED |
| Activity.Activity.LeaveSucceeded | src/main/ts/activity/Activity.ts:101-103 | the activity is not joined; this client's session is spliced out of the local user's list, the user is deleted with USER_LEFT when the list empties, SESSION_LEFT follows; an unknown local user changes nothing |
| Activity.Activity.Close | src/main/ts/activity/Activity.ts:138-145 | the activity is neither open nor joined, and the sessions are unchanged |
| Activity.Activity.JoinedSessions | src/main/ts/activity/Activity.ts:115-124 | the result is the users' lists concatenated in key order, as long as the lists together |
| Activity.Activity.JoinedSessionsByUserId | src/main/ts/activity/Activity.ts:126-136 | the copy has the same users and the same lists |
| IdentityCache.Find | src/main/ts/identity/IdentityCache.ts:37-39 | the value under a key, or nothing when the key is absent |
| IdentityCache.LastIndex | src/main/ts/identity/IdentityCache.ts:42-45 | the position of the last message user with an id, or -1 when there is none |
| IdentityCache.WithUsersLookup | src/main/ts/identity/IdentityCache.ts:42-45 | after storing a message's users, an id finds the last user of the message with that id; an id the message does not mention finds what it found before |
| IdentityCache.Guid | src/main/ts/identity/IdentityCache.ts:48-50 | a session's user is looked up under the id with the type and username the message gives |
| IdentityCache.IdentityCache.constructor | src/main/ts/identity/IdentityCache.ts:23-25 | a new cache is empty |
| IdentityCache.IdentityCache.GetUserForSession | src/main/ts/identity/IdentityCache.ts:33-35 | an unknown session finds no user; a known one finds what was stored for it |
| IdentityCache.IdentityCache.GetUser | src/main/ts/identity/IdentityCache.ts:37-39 | the user stored under the id, or nothing |
| IdentityCache.IdentityCache.ProcessIdentityUpdate | src/main/ts/identity/IdentityCache.ts:41-53 | the users are stored in message order; then each session of the message maps to its user as cached after that step, or to nothing; other sessions are unchanged |
| IdentityCache.SessionFindsUserOfSameMessage | src/main/ts/identity/IdentityCache.ts:42-52 | a session resolves to a user delivered in the same message |
| ChatService.MemberId | src/main/ts/chat/ChatService.ts:178-184 | a user id is kept, and a plain username names a normal user |
| ChatService.MemberIds | src/main/ts/chat/ChatService.ts:178-184 | the member ids are mapped one for one, in order |
| ChatService.Create | src/main/ts/chat/ChatService.ts:156-194 | missing options, a type other than group or room, a membership other than public or private, a private room and an empty id are rejected in that order; a request is built exactly for group/public, group/private and room/public with no empty id, and it carries the options' fields |
| ChatService.DirectChannelsRejected | src/main/ts/chat/ChatService.ts:161-163 | a direct channel is rejected for its type |
| ChatService.LastLocal | src/main/ts/chat/ChatService.ts:309-313 | the position of the last member that is the local user, or -1 when there is none |
| ChatService.CreateChannelInfo | src/main/ts/chat/ChatService.ts:306-331 | the maximum seen event number is the last local member's, or -1; the members are mapped one for one, in order, with the user taken from the identity cache; the other fields are copied |
| ChatService.MaxSeenWithoutLocalUser | src/main/ts/chat/ChatService.ts:307-313 | when no member reports -1, the result is -1 exactly when the local user is not a member |
| ChatService.MaxSeenLastEntryWins | src/main/ts/chat/ChatService.ts:309-313 | a later entry for the local user overrides an earlier one |
| ChatService.CreateChannel | src/main/ts/chat/ChatService.ts:284-300 | direct, group and room give the matching channel class over the same info; any other type is an error naming it |
| RichText.IndexOf | src/main/ts/model/rt/richtext/RichTextNode.ts:24 | the first position of an element, or -1 exactly when it is absent |
| RichText.RemoveFirstOccurrence | src/main/ts/model/rt/richtext/RichTextNode.ts:32-37 | removing a node at its index takes out exactly one copy of it |
| RichText.RichTextNode.constructor | src/main/ts/model/rt/richtext/RichTextNode.ts:8-12 | a new node has the given parent, and the given attributes or an empty map |
| RichText.RichTextNode.SetParent | src/main/ts/model/rt/richtext/RichTextNode.ts:18-20 | the parent is replaced and nothing else changes |
| RichText.RichTextNode.Index | src/main/ts/model/rt/richtext/RichTextNode.ts:22-30 | -1 without a parent; otherwise the node's position among the parent's children, or -1 when it is not among them |
| RichText.RichTextNode.RemoveChild | src/main/ts/model/rt/richtext/RichTextNode.ts:34 | the child at the index is taken out |
| RichText.RichTextNode.RemoveFromParent | src/main/ts/model/rt/richtext/RichTextNode.ts:32-37 | the node is taken out of its parent's children at its index and has no parent; its own children and attributes, and the old parent's parent and attributes, stay; a detached node is unchanged |
| RichText.RichTextNode.Path | src/main/ts/model/rt/richtext/RichTextNode.ts:39-61 | a root's path is empty; a path exists exactly when the parent has one and holds the node, and it is then the parent's path followed by the index |
| RichText.RichTextNode.Root | src/main/ts/model/rt/richtext/RichTextNode.ts:63-69 | a root is its own root; a node without a parent has none; otherwise it is the parent's root; whatever is found is a root element |
| RichText.NavigateAppend | src/main/ts/model/rt/richtext/RichTextNode.ts:58 | following a path one index further goes to that child |
| RichText.PathLeadsHere | src/main/ts/model/rt/richtext/RichTextNode.ts:39-69 | a node with a path has a root, and following the path down from the root reaches the node |
| RichText.RichTextNode.GetAttribute | src/main/ts/model/rt/richtext/RichTextNode.ts:87-89 | the stored value, or undefined |
| RichText.RichTextNode.HasAttribute | src/main/ts/model/rt/richtext/RichTextNode.ts:83-85 | true exactly when the key holds a value other than undefined |
| RichText.RichTextNode.SetAttribute | src/main/ts/model/rt/richtext/RichTextNode.ts:79-81 | afterwards the key reads the value, it is present exactly when the value is defined, and other keys read as before |
| RichText.RichTextNode.RemoveAttribute | src/main/ts/model/rt/richtext/RichTextNode.ts:91-93 | afterwards the key is absent, and other keys read as before |
| RichText.RichTextNode.Attributes | src/main/ts/model/rt/richtext/RichTextNode.ts:75-77 | the copy reads the same as the node's attributes |
| RichText.RichTextNode.TextContentLength | src/main/ts/model/rt/richtext/model/RichTextObject.ts:9-11 | an object counts 1; another node counts its own length |
| RichText.ObjectTextContentLength | src/main/ts/model/rt/richtext/model/RichTextObject.ts:9-11 | an object's text length is 1 |
| RichText.ObjectContentType | src/main/ts/model/rt/richtext/model/RichTextObject.ts:13-15 | an object's type is OBJECT |
| RichText.ObjectIsA | src/main/ts/model/rt/richtext/model/RichTextObject.ts:17-19 | true exactly for OBJECT |
| RichText.ObjectIsItsType | src/main/ts/model/rt/richtext/model/RichTextObject.ts:13-19 | an object is of its own type and of no other |
| RichText.SumLengthsAppend | src/main/ts/model/rt/richtext/model/RichTextFragement.ts:16-20 | the text length of a concatenation is the sum of the lengths |
| RichText.SumLengthsOfObjects | src/main/ts/model/rt/richtext/model/RichTextFragement.ts:16-20 | a list of objects is as long in text as it has nodes |
| RichText.RichTextFragment.constructor | src/main/ts/model/rt/richtext/model/RichTextFragement.ts:8-10 | the fragment holds exactly the given children |
| RichText.RichTextFragment.GetChildren | src/main/ts/model/rt/richtext/model/RichTextFragement.ts:12-14 | the fragment's children, all of them, in order |
| RichText.RichTextFragment.TextContentLength | src/main/ts/model/rt/richtext/model/RichTextFragement.ts:16-20 | the sum of the children's text lengths, 0 with no children |

## Left out

- Requests, promises, Deferreds and rxjs streams are left out. This covers the ChatService request methods, the request sent by `create` and its already-exists recovery, the promise handling in `Activity.join`, `leave` and `close`, the close callback, and the IdentityCache constructor's subscription. Only the state updates these callbacks make are modelled (`JoinSucceeded`, `LeaveSucceeded`).
- `Activity._handleMessage` is left out. It only dispatches to the session handlers, which are modelled, and to the activity state map, which is not part of this model.
- The transformation dispatcher, the document tree that applies operations, and the reconciliation queue are left out because their code is not part of this model. `Xform.Apply` is a reference semantics written for the convergence lemmas.
- Convergence is proved only for operations that are not no-ops. The transformation functions do not look at the incoming flag; skipping no-op inputs is taken to be the dispatcher's job.
- Numbers are integers and dates are integer milliseconds. Float addition is not associative, so Add/Add convergence would not hold for floats.
- `EqualsUtil.deepEquals` is modelled as value equality.
- The range utilities that `getRangeIndexRelationship` and `getRangeRelationship` call are function parameters, because their code is not part of this model.
- `SessionIdParser.parseUserId` becomes a `userId` argument of the session handlers.
- `DomainUserId.toGuid` and `DomainUserId.guid` are taken to agree and to be injective, so maps are keyed by the user id itself.
- `toDomainUser` and the message's protocol encoding are left out: an update carries finished users.
- `RichTextElement.getChildIndex` and `removeChild` are not part of this model. They are modelled as the first position among the children and removal at that position.
- `RichTextRootElement` is not part of this model. A root's path is taken as empty and its root as itself.
- The text lengths of node kinds other than objects are a per-node constant. Their subclasses are not part of this model.
- Key order is left out in several places:
  - `ReferenceMap.ReferenceMap.GetAll` does not promise the source's order of results (sessions, then keys, in insertion order); it promises the set of results and that each appears once.
  - Activity keeps the insertion order of user keys. JavaScript lists integer-like keys first, which is not modelled.
  - The identity cache's session loop does not depend on key order, since every session key is distinct.
- ReferenceMap.ReferenceMap.Put: session ids and keys are assumed not to be property names that a plain JavaScript object already has (`constructor`, `toString`, `__proto__` and the like). For such a key the source's `{}` tables behave differently, for example `put` of key `constructor` into a new session reports that the reference already exists; the model stores it.
- ReferenceMap.ReferenceMap.Get: under the same assumption; for a key such as `toString` the source returns an inherited function where the model finds nothing.
- ReferenceMap.ReferenceMap.GetAll: under the same assumption; a session id `__proto__` is never listed by the source.
- ReferenceMap.ReferenceMap.RemoveByKey: under the same assumption about keys.
- Node documents, `toString`, and the event `src` field are left out. They carry no behaviour worth proving.
- RangeTransformer, the Quill adapter, the historical-operations request envelope, event classes, declaration files and stubs are not part of this model. They delegate to code outside it or have no behaviour.
- Aliasing is left out: `Activity.Activity.JoinedSessionsByUserId`, `RichText.RichTextNode.Attributes` and `RichText.RichTextFragment.GetChildren` return values, so mutating the result cannot reach the object. In the source, `getChildren` returns the fragment's own array, so there a caller could change it.
- Path termination uses a ghost depth per node. The parent chain of a node whose path or root is asked for must have strictly decreasing depths (`ChainOk`). This is stronger than the chain being finite and acyclic: `SetParent` updates only the moved node's own depth, so after a subtree is re-parented its descendants may fail `ChainOk` even though the tree is still well formed, and `Path`, `Root` and `PathLeadsHere` then say nothing about them.
