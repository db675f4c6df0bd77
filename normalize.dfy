/**
 * The response normaliser of src/Api.ts: the pure helpers that turn raw
 * payloads into domain values. `parseInstanceAccessTag` and `parseLocation`
 * are private methods of `Api` in the source but use no field of it, so they
 * are module-level functions here.
 */
module Normalize {
  import opened Wrappers
  import opened Data
  import opened ApiResponses
  import JsString

  /** JavaScript truthiness of an optional string: present and non-empty. */
  predicate Truthy(field: Option<string>)
  {
    field.Some? && field.value != ""
  }

  /** `hasLocation`: the payload owns a `location` field. */
  predicate HasLocation(data: UserPayload)
  {
    !data.Bare?
  }

  function BaseOf(data: UserPayload): BaseUserResponse
  {
    match data
    case Bare(b) => b
    case Located(l) => l.base
    case Full(f) => f.base
  }

  /** `data.instanceId`; `None` stands for `undefined` on shapes without the field. */
  function InstanceIdField(data: UserPayload): Option<string>
  {
    if data.Full? then Some(data.full.instanceId) else None
  }

  /**
   * `formatUserResponse(data, location)`: a non-null hint is the location;
   * otherwise the location comes from `worldId`/`instanceId`, but only when the
   * payload has a `location` field and a truthy `instanceId`.
   */
  function FormatUserResponse(data: UserPayload, location: Option<InstanceId>): (u: User)
    ensures location.Some? ==> u.location == location
    ensures location.None? ==>
      (u.location.Some? <==> HasLocation(data) && Truthy(InstanceIdField(data)))
    ensures location.None? && u.location.Some? ==>
      data.Full? && u.location.value == InstanceId(data.full.worldId, data.full.instanceId)
    ensures u.id == BaseOf(data).id
    ensures u.userName == BaseOf(data).username
    ensures u.displayName == BaseOf(data).displayName
    ensures u.avatar == Image(BaseOf(data).currentAvatarImageUrl, BaseOf(data).currentAvatarThumbnailImageUrl)
  {
    var where :=
      if location.Some? then location
      else if HasLocation(data) && Truthy(InstanceIdField(data))
      then Some(InstanceId(data.full.worldId, data.full.instanceId))
      else None;
    var b := BaseOf(data);
    User(b.id, b.username, b.displayName,
         Image(b.currentAvatarImageUrl, b.currentAvatarThumbnailImageUrl), where)
  }

  /**
   * `parseInstanceAccessTag`: an ordered decision table, first match wins.
   * Each tag is characterised by the flags alone.
   */
  function ParseInstanceAccessTag(data: InstanceResponse): (tag: AccessTag)
    ensures tag == FriendsPlus <==> Truthy(data.hidden) && !data.friends && !data.isPrivate
    ensures tag == Friends <==> data.friends && !data.isPrivate
    ensures tag == AccessTag.Invite <==> data.isPrivate && !Truthy(data.canRequestInvite)
    ensures tag == InvitePlus <==> data.isPrivate && Truthy(data.canRequestInvite)
    ensures tag == Public <==> !Truthy(data.hidden) && !data.friends && !data.isPrivate
  {
    if Truthy(data.hidden) && !data.friends && !data.isPrivate then FriendsPlus
    else if data.friends && !data.isPrivate then Friends
    else if data.isPrivate && !Truthy(data.canRequestInvite) then AccessTag.Invite
    else if data.isPrivate && Truthy(data.canRequestInvite) then InvitePlus
    else Public
  }

  /** The `world:instance` text that `inviteUser` sends as a location. */
  function FormatLocation(id: InstanceId): string
  {
    id.world + ":" + id.instance
  }

  /**
   * `parseLocation`: null without a `:`; otherwise the world is the text before
   * the first `:` and the instance the text between it and the next `:` (or
   * the end) -- `split(':')[1]` drops anything after a second `:`.
   */
  function ParseLocation(location: string): (r: Option<InstanceId>)
    ensures r.None? <==> ':' !in location
    ensures r.Some? ==> ':' !in r.value.world && ':' !in r.value.instance
    ensures r.Some? ==>
      var n := |FormatLocation(r.value)|;
      n <= |location| && location[..n] == FormatLocation(r.value) &&
      (n == |location| || location[n] == ':')
  {
    if JsString.IndexOf(location, ':') == -1 then None
    else
      var parts := JsString.Split(location, ':');
      ParsedPrefix(parts);
      Some(InstanceId(parts[0], parts[1]))
  }

  /** A colon-joined text starts with its first two parts joined by a colon. */
  lemma ParsedPrefix(parts: seq<string>)
    requires |parts| >= 2
    ensures
      var s := JsString.Join(parts, ':');
      var n := |parts[0]| + 1 + |parts[1]|;
      n <= |s| && s[..n] == parts[0] + ":" + parts[1] && (n == |s| || s[n] == ':')
  {
    var s := JsString.Join(parts, ':');
    JsString.JoinFirst(parts, ':');
    JsString.JoinFirst(parts[1..], ':');
    var t := JsString.Join(parts[1..], ':');
    assert s == parts[0] + ":" + t;
    assert t[..|parts[1]|] == parts[1];
  }

  /** Round trip: the location `inviteUser` emits parses back to the same instance id. */
  lemma {:induction false} LocationRoundTrip(id: InstanceId)
    requires ':' !in id.world && ':' !in id.instance
    ensures ParseLocation(FormatLocation(id)) == Some(id)
  {
    var s := FormatLocation(id);
    assert s == JsString.Join([id.world, id.instance], ':');
    JsString.SplitJoin([id.world, id.instance], ':');
    assert s[|id.world|] == ':';
  }

  /**
   * The converse direction: a parsed location formats back to the original
   * text exactly when nothing follows the instance part.
   */
  lemma {:induction false} FormatParsedLocation(location: string)
    requires ':' in location
    ensures ParseLocation(location).Some?
    ensures FormatLocation(ParseLocation(location).value) == location <==>
      ':' !in location[|ParseLocation(location).value.world| + 1..]
  {
    var id := ParseLocation(location).value;
    var n := |FormatLocation(id)|;
    var w := |id.world|;
    assert location[..n] == FormatLocation(id);
    assert location[w] == ':';
    assert location[w + 1..n] == id.instance;
    if n < |location| {
      assert location[w + 1..][n - w - 1] == ':';
    } else {
      assert location[w + 1..] == id.instance;
    }
  }

  /** A location string names the instance it was built from. */
  lemma ParseLocationExample()
    ensures ParseLocation("wrld_123:instance_id_5") == Some(InstanceId("wrld_123", "instance_id_5"))
  {
    var id := InstanceId("wrld_123", "instance_id_5");
    assert ':' !in id.world by {
      forall i | 0 <= i < |id.world| ensures id.world[i] != ':' { }
    }
    assert ':' !in id.instance by {
      forall i | 0 <= i < |id.instance| ensures id.instance[i] != ':' { }
    }
    LocationRoundTrip(id);
    assert FormatLocation(id) == "wrld_123:instance_id_5";
  }

  /** A status without a colon ("offline") is no location at all. */
  lemma OfflineHasNoLocation()
    ensures ParseLocation("offline") == None
  {
    assert ':' !in "offline" by {
      forall i | 0 <= i < |"offline"| ensures "offline"[i] != ':' { }
    }
  }

  /** Text after a second colon is dropped: only the first two segments survive. */
  lemma {:induction false} SecondColonTruncates()
    ensures ParseLocation("wrld_1:abc:def") == Some(InstanceId("wrld_1", "abc"))
  {
    var s := "wrld_1:abc:def";
    var parts := ["wrld_1", "abc", "def"];
    assert s == JsString.Join(parts, ':');
    JsString.SplitJoin(parts, ':');
    assert s[6] == ':';
  }

  /** The three decision-table examples: hidden alone, private alone, no flag. */
  lemma AccessTagExamples(users: seq<BaseUserResponse>, nonce: Option<string>)
    ensures ParseInstanceAccessTag(InstanceResponse(false, false, users, Some("1"), None, nonce)) == FriendsPlus
    ensures ParseInstanceAccessTag(InstanceResponse(true, false, users, None, None, nonce)) == AccessTag.Invite
    ensures ParseInstanceAccessTag(InstanceResponse(false, false, users, None, None, nonce)) == Public
  {
  }

  /** The world projection shared by `getWorldById` and `getWorldInfoById`; the id is the requested one. */
  function WorldInfoOf(id: WorldId, data: WorldResponse): WorldInfo
  {
    WorldInfo(id, data.name, data.description, data.featured, data.authorId, data.authorName,
              data.capacity, data.tags, Image(data.imageUrl, data.thumbnailImageUrl))
  }

  /** Pairs the world id with each `(suffix, count)` server tuple, in order. */
  function PairWithWorld(id: WorldId, servers: seq<(string, int)>): (entries: seq<(InstanceId, int)>)
    ensures |entries| == |servers|
    ensures forall i :: 0 <= i < |servers| ==>
      entries[i].0 == InstanceId(id, servers[i].0) && entries[i].1 == servers[i].1
    decreases |servers|
  {
    if servers == [] then []
    else [(InstanceId(id, servers[0].0), servers[0].1)] + PairWithWorld(id, servers[1..])
  }

  /** The server tuples behind a list of instance entries: the inverse of `PairWithWorld`. */
  function Unpair(entries: seq<(InstanceId, int)>): (servers: seq<(string, int)>)
    decreases |entries|
  {
    if entries == [] then []
    else [(entries[0].0.instance, entries[0].1)] + Unpair(entries[1..])
  }

  lemma {:induction false} UnpairPairWithWorld(id: WorldId, servers: seq<(string, int)>)
    ensures Unpair(PairWithWorld(id, servers)) == servers
    decreases |servers|
  {
    if servers != [] {
      UnpairPairWithWorld(id, servers[1..]);
      assert PairWithWorld(id, servers)[1..] == PairWithWorld(id, servers[1..]);
    }
  }

  /**
   * `getWorldById`'s mapping: the requested id, the copied fields, and one
   * instance entry per server tuple keyed by `{world: id, instance: suffix}`.
   */
  function WorldOf(id: WorldId, data: WorldResponse): (w: World)
    ensures Info(w) == WorldInfoOf(id, data)
    ensures w.id == id
    ensures |w.instances| == |data.instances|
    ensures forall i :: 0 <= i < |data.instances| ==>
      w.instances[i] == (InstanceId(id, data.instances[i].0), data.instances[i].1)
    ensures Unpair(w.instances) == data.instances
  {
    UnpairPairWithWorld(id, data.instances);
    World(id, data.name, data.description, data.featured, data.authorId, data.authorName,
          data.capacity, data.tags, Image(data.imageUrl, data.thumbnailImageUrl),
          PairWithWorld(id, data.instances))
  }

  /** The example world `wrld_1` with servers `abc` (3 users) and `def` (empty). */
  lemma WorldExample(data: WorldResponse)
    requires data.instances == [("abc", 3), ("def", 0)]
    ensures WorldOf("wrld_1", data).instances ==
      [(InstanceId("wrld_1", "abc"), 3), (InstanceId("wrld_1", "def"), 0)]
  {
  }

  /**
   * `getInstanceById`'s mapping: every user is formatted with the requested
   * instance as location hint; the tag comes from the decision table.
   */
  function InstanceOf(id: InstanceId, data: InstanceResponse): (inst: Instance)
    ensures inst.id == id
    ensures |inst.users| == |data.users|
    ensures forall i :: 0 <= i < |data.users| ==>
      inst.users[i].location == Some(id) &&
      inst.users[i].id == data.users[i].id &&
      inst.users[i].userName == data.users[i].username
    ensures forall i :: 0 <= i < |data.users| ==> inst.users[i] == FormatUserResponse(Bare(data.users[i]), Some(id))
    ensures inst.access == ParseInstanceAccessTag(data)
    ensures inst.nonce == data.nonce
  {
    var users := seq(|data.users|, i requires 0 <= i < |data.users| =>
      FormatUserResponse(Bare(data.users[i]), Some(id)));
    Instance(id, users, data.nonce, ParseInstanceAccessTag(data))
  }

  /**
   * `getFriends`' mapping: each entry is formatted with its parsed location
   * string as hint. An entry has no `instanceId`, so a string without a colon
   * leaves the friend without a location.
   */
  function FriendsOf(entries: seq<LocationUserResponse>): (friends: seq<User>)
    ensures |friends| == |entries|
    ensures forall i :: 0 <= i < |entries| ==>
      friends[i].location == ParseLocation(entries[i].location) &&
      friends[i].id == entries[i].base.id &&
      friends[i].userName == entries[i].base.username
    ensures forall i :: 0 <= i < |entries| ==>
      friends[i] == FormatUserResponse(Located(entries[i]), ParseLocation(entries[i].location))
  {
    seq(|entries|, i requires 0 <= i < |entries| =>
      FormatUserResponse(Located(entries[i]), ParseLocation(entries[i].location)))
  }

  /** `acceptAllFriendRequests`' filter: the friend-request notifications, in order. */
  function FriendRequests(ns: seq<NotificationResponse>): (frs: seq<NotificationResponse>)
    ensures |frs| <= |ns|
    ensures forall n :: n in frs <==> n in ns && n.kind == FriendRequest
    ensures |frs| == |ns| <==> forall i :: 0 <= i < |ns| ==> ns[i].kind == FriendRequest
    decreases |ns|
  {
    if ns == [] then []
    else if ns[0].kind == FriendRequest then [ns[0]] + FriendRequests(ns[1..])
    else FriendRequests(ns[1..])
  }

  /**
   * Every friend request is kept as often as it occurs, and nothing else is
   * kept; so the number kept is the number of friend requests in `ns`.
   */
  lemma {:induction false} FriendRequestsMultiplicity(ns: seq<NotificationResponse>)
    ensures forall n :: multiset(FriendRequests(ns))[n] == if n.kind == FriendRequest then multiset(ns)[n] else 0
    decreases |ns|
  {
    if ns != [] {
      assert ns == [ns[0]] + ns[1..];
      FriendRequestsMultiplicity(ns[1..]);
    }
  }

  /** A single notification is kept exactly when it is a friend request. */
  lemma FriendRequestsOne(n: NotificationResponse)
    ensures FriendRequests([n]) == if n.kind == FriendRequest then [n] else []
  {
    assert [n][1..] == [];
  }

  /**
   * The filter works piece by piece: the friend requests of a concatenation
   * are those of the first part followed by those of the second. With
   * `FriendRequestsOne` this fixes the order of the kept notifications.
   */
  lemma {:induction false} FriendRequestsAppend(p: seq<NotificationResponse>, q: seq<NotificationResponse>)
    ensures FriendRequests(p + q) == FriendRequests(p) + FriendRequests(q)
    decreases |p|
  {
    if p == [] {
      assert p + q == q;
    } else {
      var pq := p + q;
      assert pq[0] == p[0] && pq[1..] == p[1..] + q;
      FriendRequestsAppend(p[1..], q);
      if p[0].kind == FriendRequest {
        calc {
          FriendRequests(pq);
          [p[0]] + FriendRequests(p[1..] + q);
          [p[0]] + (FriendRequests(p[1..]) + FriendRequests(q));
          ([p[0]] + FriendRequests(p[1..])) + FriendRequests(q);
        }
      }
    }
  }

  /** The ids of a list of notifications. */
  function Ids(ns: seq<NotificationResponse>): (ids: seq<string>)
    ensures |ids| == |ns|
    ensures forall i :: 0 <= i < |ns| ==> ids[i] == ns[i].id
  {
    seq(|ns|, i requires 0 <= i < |ns| => ns[i].id)
  }
}
