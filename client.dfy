/**
 * The `Api` client object of src/Api.ts: credentials, the lazily fetched API
 * key and two read-through caches, over an abstract transport. The ghost
 * `log` records every request the client issues, so that "no request" and
 * "exactly one request" can be stated. Each method runs as one atomic step
 * and is proved against the matching function of `Pipeline`.
 */
module Client {
  import opened Wrappers
  import opened Data
  import opened ApiResponses
  import opened Normalize
  import opened Pipeline
  import opened AcceptAll

  class Api {
    const credentials: Credentials
    /** The transport: the reply to the n-th request this client issues. */
    const server: Server
    var apiKey: string
    var cachedCurrentUser: Option<Promise<User>>
    var cachedWorldInfo: map<WorldId, Promise<WorldInfo>>
    /** How many requests have been issued; the serial of the next one. */
    var sent: nat
    /** Every request issued so far, in order. */
    ghost var log: seq<HttpRequest>

    ghost predicate Valid()
      reads this
    {
      sent == |log|
    }

    /** The part of the client a request changes, as the request functions see it. */
    ghost function Snapshot(): State
      reads this
    {
      State(log, apiKey)
    }

    /** A new client holds no key, no cached value and has sent nothing. */
    constructor (credentials: Credentials, server: Server)
      ensures Valid()
      ensures this.credentials == credentials && this.server == server
      ensures apiKey == "" && cachedCurrentUser == None && cachedWorldInfo == map[]
      ensures log == []
    {
      this.credentials := credentials;
      this.server := server;
      apiKey := "";
      cachedCurrentUser := None;
      cachedWorldInfo := map[];
      sent := 0;
      log := [];
    }

    /**
     * `baseRequest`: throws without credentials, before anything is sent;
     * otherwise sends one request to the URL with `apiKey=<key>` appended.
     */
    method BaseRequest(url: string, verb: HttpMethod, body: Body) returns (c: Call<Payload>)
      requires Valid()
      modifies this`sent, this`log
      ensures Valid()
      ensures
        var e := BaseRequestSpec(credentials, server, old(Snapshot()), url, verb, body);
        c == e.result && Snapshot() == e.after
    {
      if credentials.username == "" || credentials.password == "" {
        return Threw(NoCredentials);
      }
      var r := HttpRequest(verb, WithApiKey(url, apiKey), body);
      var reply := server(sent, r);
      sent := sent + 1;
      log := log + [r];
      c := Returned(Settle(reply, r.url));
    }

    /**
     * `ensureApiKey`: nothing to do when a key is held; otherwise fetch the
     * config and store its `clientApiKey` if the fetch succeeds.
     */
    method EnsureApiKey() returns (c: Call<()>)
      requires Valid()
      modifies this`apiKey, this`sent, this`log
      ensures Valid()
      ensures
        var e := EnsureApiKeySpec(credentials, server, old(Snapshot()));
        c == e.result && Snapshot() == e.after
    {
      if apiKey != "" {
        return Returned(Fulfilled(()));
      }
      var b := BaseRequest(ConfigUrl(), Get, NoBody);
      match b
      case Threw(x) =>
        c := Threw(x);
      case Returned(Rejected(x)) =>
        c := Returned(Rejected(x));
      case Returned(Fulfilled(p)) =>
        if p.ConfigBody? {
          apiKey := p.clientApiKey;
          c := Returned(Fulfilled(()));
        } else {
          c := Returned(Rejected(UnexpectedShape));
        }
    }

    /** `request`: make sure of the key, then `baseRequest` in a continuation. */
    method Request(url: string, verb: HttpMethod, body: Body) returns (c: Call<Payload>)
      requires Valid()
      modifies this`apiKey, this`sent, this`log
      ensures Valid()
      ensures
        var e := RequestSpec(credentials, server, old(Snapshot()), url, verb, body);
        c == e.result && Snapshot() == e.after
    {
      var k := EnsureApiKey();
      match k
      case Threw(x) =>
        c := Threw(x);
      case Returned(Rejected(x)) =>
        c := Returned(Rejected(x));
      case Returned(Fulfilled(_)) =>
        var b := BaseRequest(url, verb, body);
        c := Returned(Async(b));
    }

    method GetUserByName(name: string) returns (c: Call<User>)
      requires Valid()
      modifies this`apiKey, this`sent, this`log
      ensures Valid()
      ensures
        var e := RequestSpec(credentials, server, old(Snapshot()), UserByNameUrl(name), Get, NoBody);
        c == ThenWith(e.result, AsUser, None) && Snapshot() == e.after
    {
      var r := Request(UserByNameUrl(name), Get, NoBody);
      c := ThenWith(r, AsUser, None);
    }

    method GetInstanceById(id: InstanceId) returns (c: Call<Instance>)
      requires Valid()
      modifies this`apiKey, this`sent, this`log
      ensures Valid()
      ensures
        var e := RequestSpec(credentials, server, old(Snapshot()), InstanceUrl(id), Get, NoBody);
        c == ThenWith(e.result, AsInstance, id) && Snapshot() == e.after
    {
      var r := Request(InstanceUrl(id), Get, NoBody);
      c := ThenWith(r, AsInstance, id);
    }

    method GetWorldById(id: WorldId) returns (c: Call<World>)
      requires Valid()
      modifies this`apiKey, this`sent, this`log
      ensures Valid()
      ensures
        var e := RequestSpec(credentials, server, old(Snapshot()), WorldUrl(id), Get, NoBody);
        c == ThenWith(e.result, AsWorld, id) && Snapshot() == e.after
    {
      var r := Request(WorldUrl(id), Get, NoBody);
      c := ThenWith(r, AsWorld, id);
    }

    /**
     * `getWorldInfoById`: a cached id returns its stored promise and sends
     * nothing; otherwise the promise of a new request is stored under the id
     * (a rejected one too) unless the call threw.
     */
    method GetWorldInfoById(id: WorldId) returns (c: Call<WorldInfo>)
      requires Valid()
      modifies this`apiKey, this`sent, this`log, this`cachedWorldInfo
      ensures Valid()
      ensures id in old(cachedWorldInfo) ==>
        c == Returned(old(cachedWorldInfo)[id]) && Snapshot() == old(Snapshot()) &&
        cachedWorldInfo == old(cachedWorldInfo)
      ensures id !in old(cachedWorldInfo) ==>
        var e := RequestSpec(credentials, server, old(Snapshot()), WorldUrl(id), Get, NoBody);
        c == ThenWith(e.result, AsWorldInfo, id) && Snapshot() == e.after &&
        cachedWorldInfo == if c.Returned? then old(cachedWorldInfo)[id := c.promise] else old(cachedWorldInfo)
    {
      if id in cachedWorldInfo {
        return Returned(cachedWorldInfo[id]);
      }
      var r := Request(WorldUrl(id), Get, NoBody);
      c := ThenWith(r, AsWorldInfo, id);
      if c.Returned? {
        cachedWorldInfo := cachedWorldInfo[id := c.promise];
      }
    }

    /** `getCurrentUser`: the same read-through discipline for a single slot. */
    method GetCurrentUser() returns (c: Call<User>)
      requires Valid()
      modifies this`apiKey, this`sent, this`log, this`cachedCurrentUser
      ensures Valid()
      ensures old(cachedCurrentUser).Some? ==>
        c == Returned(old(cachedCurrentUser).value) && Snapshot() == old(Snapshot()) &&
        cachedCurrentUser == old(cachedCurrentUser)
      ensures old(cachedCurrentUser).None? ==>
        var e := RequestSpec(credentials, server, old(Snapshot()), CurrentUserUrl(), Get, NoBody);
        c == ThenWith(e.result, AsUser, None) && Snapshot() == e.after &&
        cachedCurrentUser == if c.Returned? then Some(c.promise) else None
    {
      if cachedCurrentUser.Some? {
        return Returned(cachedCurrentUser.value);
      }
      var r := Request(CurrentUserUrl(), Get, NoBody);
      c := ThenWith(r, AsUser, None);
      if c.Returned? {
        cachedCurrentUser := Some(c.promise);
      }
    }

    method GetFriends() returns (c: Call<seq<User>>)
      requires Valid()
      modifies this`apiKey, this`sent, this`log
      ensures Valid()
      ensures
        var e := RequestSpec(credentials, server, old(Snapshot()), FriendsUrl(), Get, NoBody);
        c == Then(e.result, AsFriends) && Snapshot() == e.after
    {
      var r := Request(FriendsUrl(), Get, NoBody);
      c := Then(r, AsFriends);
    }

    method SendNotification(userId: string, kind: NotificationType, message: string, details: Option<Details>)
      returns (c: Call<Payload>)
      requires Valid()
      modifies this`apiKey, this`sent, this`log
      ensures Valid()
      ensures
        var e := RequestSpec(credentials, server, old(Snapshot()), NotificationUrl(userId), Post,
                             NotificationBody(kind, details, message));
        c == e.result && Snapshot() == e.after
    {
      c := Request(NotificationUrl(userId), Post, NotificationBody(kind, details, message));
    }

    /** `inviteUser`: an `invite` notification whose details carry `world:instance`. */
    method InviteUser(userId: string, instance: InstanceId, message: string) returns (c: Call<Payload>)
      requires Valid()
      modifies this`apiKey, this`sent, this`log
      ensures Valid()
      ensures
        var e := RequestSpec(credentials, server, old(Snapshot()), NotificationUrl(userId), Post,
                             InviteBody(instance, message));
        c == e.result && Snapshot() == e.after
    {
      c := SendNotification(userId, NotificationType.Invite, message,
                            Some(InviteDetails(instance.world + ":" + instance.instance)));
    }

    method SendFriendRequest(userId: string) returns (c: Call<Payload>)
      requires Valid()
      modifies this`apiKey, this`sent, this`log
      ensures Valid()
      ensures
        var e := RequestSpec(credentials, server, old(Snapshot()), FriendRequestUrl(userId), Post, NoBody);
        c == e.result && Snapshot() == e.after
    {
      c := Request(FriendRequestUrl(userId), Post, NoBody);
    }

    method AcceptFriendRequest(notificationId: string) returns (c: Call<Payload>)
      requires Valid()
      modifies this`apiKey, this`sent, this`log
      ensures Valid()
      ensures
        var e := AcceptVia(credentials, server)(old(Snapshot()), notificationId);
        c == e.result && Snapshot() == e.after
    {
      c := Request(AcceptUrl(notificationId), Put, NoBody);
    }

    method DeleteNotification(notificationId: string) returns (c: Call<Payload>)
      requires Valid()
      modifies this`apiKey, this`sent, this`log
      ensures Valid()
      ensures
        var e := RequestSpec(credentials, server, old(Snapshot()),
                             NotificationActionUrl(notificationId, "hide"), Put, NoBody);
        c == e.result && Snapshot() == e.after
    {
      c := Request(NotificationActionUrl(notificationId, "hide"), Put, NoBody);
    }

    method MarkNotificationAsRead(notificationId: string) returns (c: Call<Payload>)
      requires Valid()
      modifies this`apiKey, this`sent, this`log
      ensures Valid()
      ensures
        var e := RequestSpec(credentials, server, old(Snapshot()),
                             NotificationActionUrl(notificationId, "see"), Put, NoBody);
        c == e.result && Snapshot() == e.after
    {
      c := Request(NotificationActionUrl(notificationId, "see"), Put, NoBody);
    }

    method GetNotifications(kind: Option<NotificationType>) returns (c: Call<seq<NotificationResponse>>)
      requires Valid()
      modifies this`apiKey, this`sent, this`log
      ensures Valid()
      ensures
        var e := RequestSpec(credentials, server, old(Snapshot()), NotificationsUrl(kind), Get, NoBody);
        c == Then(e.result, AsNotifications) && Snapshot() == e.after
    {
      var r := Request(NotificationsUrl(kind), Get, NoBody);
      c := Then(r, AsNotifications);
    }

    /**
     * The fan-out of `acceptAllFriendRequests`: accept each id in turn; the
     * first rejection wins, otherwise the result is how many were accepted.
     */
    method AcceptEach(ids: seq<string>) returns (c: Call<nat>)
      requires Valid()
      modifies this`apiKey, this`sent, this`log
      ensures Valid()
      ensures
        var e := AcceptFrom(AcceptVia(credentials, server), old(Snapshot()), ids, 0, None);
        c == e.result && Snapshot() == e.after
    {
      ghost var whole := AcceptFrom(AcceptVia(credentials, server), Snapshot(), ids, 0, None);
      var i := 0;
      var failed: Option<ApiError> := None;
      while i < |ids|
        invariant 0 <= i <= |ids|
        invariant Valid()
        invariant AcceptFrom(AcceptVia(credentials, server), Snapshot(), ids, i, failed) == whole
        decreases |ids| - i
      {
        ghost var before := Snapshot();
        var r := AcceptFriendRequest(ids[i]);
        ghost var step := AcceptVia(credentials, server)(before, ids[i]);
        if r.Threw? {
          AcceptStepThrew(AcceptVia(credentials, server), before, ids, i, failed, step);
          return Returned(Rejected(r.error));
        }
        AcceptStepReturned(AcceptVia(credentials, server), before, ids, i, failed, step);
        failed := FirstFailure(failed, r.promise);
        i := i + 1;
      }
      c := Returned(if failed.Some? then Rejected(failed.value) else Fulfilled(|ids|));
    }

    /**
     * `acceptAllFriendRequests`: list friend requests, accept each one, and
     * resolve to how many there were.
     */
    method AcceptAllFriendRequests() returns (c: Call<nat>)
      requires Valid()
      modifies this`apiKey, this`sent, this`log
      ensures Valid()
      ensures
        var e := AcceptAllSpec(credentials, server, old(Snapshot()));
        c == e.result && Snapshot() == e.after
    {
      var g := GetNotifications(Some(FriendRequest));
      match g
      case Threw(x) =>
        c := Threw(x);
      case Returned(Rejected(x)) =>
        c := Returned(Rejected(x));
      case Returned(Fulfilled(ns)) =>
        c := AcceptEach(Ids(FriendRequests(ns)));
    }
  }

  /**
   * Two lookups of the same world: once the first has returned a promise,
   * the second returns that same promise and sends nothing, so the pair
   * sends at most the one request of the first lookup.
   */
  method WorldInfoLookedUpTwice(api: Api, id: WorldId) returns (first: Call<WorldInfo>, second: Call<WorldInfo>)
    requires api.Valid()
    modifies api
    ensures api.Valid()
    ensures first.Returned? ==> second == first
    ensures id in old(api.cachedWorldInfo) ==> api.log == old(api.log)
    ensures first.Returned? && id !in old(api.cachedWorldInfo) ==>
      api.log == RequestSpec(api.credentials, api.server, old(api.Snapshot()), WorldUrl(id), Get, NoBody).after.log
  {
    first := api.GetWorldInfoById(id);
    ghost var afterFirst := api.log;
    second := api.GetWorldInfoById(id);
    assert first.Returned? ==> api.log == afterFirst;
  }
}
