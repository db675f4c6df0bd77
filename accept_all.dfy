/**
 * `acceptAllFriendRequests` of src/Api.ts as a pure function: list the
 * friend-request notifications, accept each one, count them. The accept
 * calls are started one after another; the `Promise.all` that joins them is
 * read as "the first rejection in list order wins".
 */
module AcceptAll {
  import opened Wrappers
  import opened ApiResponses
  import opened Normalize
  import opened Pipeline

  function AcceptUrl(notificationId: string): string
  {
    NotificationActionUrl(notificationId, "accept")
  }

  /** The keyed request `acceptFriendRequest(id)` sends, as a function of the id. */
  function KeyedAccept(key: string): string -> HttpRequest
  {
    id => HttpRequest(Put, WithApiKey(AcceptUrl(id), key), NoBody)
  }

  /** One request per id, in the order of the ids. */
  function RequestsFor(ids: seq<string>, req: string -> HttpRequest): (rs: seq<HttpRequest>)
    ensures |rs| == |ids|
    ensures forall j :: 0 <= j < |ids| ==> rs[j] == req(ids[j])
    decreases |ids|
  {
    if ids == [] then [] else [req(ids[0])] + RequestsFor(ids[1..], req)
  }

  /** The accept requests for a list of notification ids under a fixed key. */
  function AcceptRequests(ids: seq<string>, key: string): seq<HttpRequest>
  {
    RequestsFor(ids, KeyedAccept(key))
  }

  /** The first rejection among the accepts settled so far. */
  function FirstFailure(failed: Option<ApiError>, p: Promise<Payload>): Option<ApiError>
  {
    if failed.None? && p.Rejected? then Some(p.reason) else failed
  }

  /** One `acceptFriendRequest` call as a function of the client state and the notification id. */
  type AcceptCall = (State, string) -> Effect<Payload>

  /** The accept call `acceptFriendRequest(id)` makes through `request`. */
  function AcceptVia(creds: Credentials, server: Server): AcceptCall
  {
    (s: State, id: string) => RequestSpec(creds, server, s, AcceptUrl(id), Put, NoBody)
  }

  /**
   * The accept fan-out from position `i` on, given the first rejection seen so
   * far: one accept call per id, in order. A synchronous throw aborts the
   * fan-out and rejects; otherwise the first rejection wins, and when all are
   * fulfilled the result is the number of ids.
   */
  function AcceptFrom(accept: AcceptCall, s: State, ids: seq<string>, i: nat, failed: Option<ApiError>): (e: Effect<nat>)
    requires i <= |ids|
    ensures e.result.Returned?
    ensures e.result.promise.Fulfilled? ==> e.result.promise.value == |ids| && failed.None?
    ensures failed.Some? ==> e.result.promise.Rejected?
    decreases |ids| - i
  {
    if i == |ids| then
      Effect(Returned(if failed.Some? then Rejected(failed.value) else Fulfilled(|ids|)), s)
    else
      var r := accept(s, ids[i]);
      if r.result.Threw? then Effect(Returned(Rejected(r.result.error)), r.after)
      else AcceptFrom(accept, r.after, ids, i + 1, FirstFailure(failed, r.result.promise))
  }

  /** A synchronous throw `r` at `ids[i]` ends the fan-out with a rejection. */
  lemma AcceptStepThrew(accept: AcceptCall, s: State, ids: seq<string>, i: nat, failed: Option<ApiError>,
                        r: Effect<Payload>)
    requires i < |ids| && r == accept(s, ids[i]) && r.result.Threw?
    ensures AcceptFrom(accept, s, ids, i, failed) == Effect(Returned(Rejected(r.result.error)), r.after)
  {
  }

  /** Otherwise the fan-out goes on from the state the call `r` for `ids[i]` left. */
  lemma AcceptStepReturned(accept: AcceptCall, s: State, ids: seq<string>, i: nat, failed: Option<ApiError>,
                           r: Effect<Payload>)
    requires i < |ids| && r == accept(s, ids[i]) && r.result.Returned?
    ensures AcceptFrom(accept, s, ids, i, failed) ==
            AcceptFrom(accept, r.after, ids, i + 1, FirstFailure(failed, r.result.promise))
  {
  }

  /**
   * When every call made with the key keeps it and fulfils, the fan-out
   * resolves to the number of ids.
   */
  lemma {:induction false} AcceptAllFulfilled(accept: AcceptCall, s: State, ids: seq<string>, i: nat)
    requires i <= |ids|
    requires forall t: State, id :: t.key == s.key ==>
               accept(t, id).result.Returned? && accept(t, id).result.promise.Fulfilled? &&
               accept(t, id).after.key == t.key
    ensures AcceptFrom(accept, s, ids, i, None).result == Returned(Fulfilled(|ids|))
    decreases |ids| - i
  {
    if i < |ids| {
      var r := accept(s, ids[i]);
      AcceptStepReturned(accept, s, ids, i, None, r);
      AcceptAllFulfilled(accept, r.after, ids, i + 1);
    }
  }

  /**
   * When every call made with the key keeps it and sends just its own
   * request, the fan-out sends exactly one request per id, in order, and
   * leaves the key as it was.
   */
  lemma {:induction false} AcceptIssuesOnePerId(accept: AcceptCall, req: string -> HttpRequest, s: State,
                                                ids: seq<string>, i: nat, failed: Option<ApiError>)
    requires i <= |ids|
    requires forall t: State, id :: t.key == s.key ==>
               accept(t, id).result.Returned? && accept(t, id).after == State(t.log + [req(id)], t.key)
    ensures AcceptFrom(accept, s, ids, i, failed).after == State(s.log + RequestsFor(ids[i..], req), s.key)
    decreases |ids| - i
  {
    if i == |ids| {
      assert s.log + RequestsFor(ids[i..], req) == s.log;
    } else {
      var r := accept(s, ids[i]);
      AcceptStepReturned(accept, s, ids, i, failed, r);
      AcceptIssuesOnePerId(accept, req, r.after, ids, i + 1, FirstFailure(failed, r.result.promise));
      assert ids[i..][1..] == ids[i + 1..];
      assert s.log + RequestsFor(ids[i..], req) == s.log + [req(ids[i])] + RequestsFor(ids[i + 1..], req);
    }
  }

  /** With credentials and a key, each accept call sends just its own keyed request and keeps the key. */
  lemma AcceptViaWithKey(creds: Credentials, server: Server, s: State, id: string)
    requires HasCredentials(creds) && s.key != ""
    ensures
      var r := AcceptVia(creds, server)(s, id);
      r.result.Returned? && r.after == State(s.log + [KeyedAccept(s.key)(id)], s.key) &&
      r.result.promise == Settle(server(|s.log|, KeyedAccept(s.key)(id)), KeyedAccept(s.key)(id).url)
  {
    RequestWithKey(creds, server, s, AcceptUrl(id), Put, NoBody);
  }

  /** The fan-out through `acceptFriendRequest` with credentials and a key. */
  lemma AcceptViaKeeps(creds: Credentials, server: Server, s: State, ids: seq<string>)
    ensures
      var e := AcceptFrom(AcceptVia(creds, server), s, ids, 0, None);
      HasCredentials(creds) && s.key != "" ==> e.after == State(s.log + AcceptRequests(ids, s.key), s.key)
  {
    if HasCredentials(creds) && s.key != "" {
      forall t: State, id | t.key == s.key
        ensures AcceptVia(creds, server)(t, id).result.Returned? &&
                AcceptVia(creds, server)(t, id).after == State(t.log + [KeyedAccept(s.key)(id)], t.key)
      {
        AcceptViaWithKey(creds, server, t, id);
      }
      AcceptIssuesOnePerId(AcceptVia(creds, server), KeyedAccept(s.key), s, ids, 0, None);
      assert ids[0..] == ids;
    }
  }

  /** The request that lists pending friend requests. */
  function ListFriendRequests(creds: Credentials, server: Server, s: State): Effect<Payload>
  {
    RequestSpec(creds, server, s, NotificationsUrl(Some(FriendRequest)), Get, NoBody)
  }

  /**
   * What `acceptAllFriendRequests` does with the outcome of
   * `getNotifications`: keep the notifications of type `friendrequest`,
   * accept each through `accept` from state `s`, and count them. A failed
   * listing fails the whole call and sends nothing more.
   */
  function AfterListing(accept: AcceptCall, listed: Call<seq<NotificationResponse>>, s: State): (e: Effect<nat>)
    ensures e.result.Returned? && e.result.promise.Fulfilled? ==>
      listed.Returned? && listed.promise.Fulfilled? &&
      e.result.promise.value == |FriendRequests(listed.promise.value)|
    ensures listed.Returned? ==> e.result.Returned?
    ensures listed.Threw? ==> e == Effect(Threw(listed.error), s)
    ensures listed.Returned? && listed.promise.Rejected? ==>
      e == Effect(Returned(Rejected(listed.promise.reason)), s)
  {
    match listed
    case Threw(x) => Effect(Threw(x), s)
    case Returned(Rejected(x)) => Effect(Returned(Rejected(x)), s)
    case Returned(Fulfilled(ns)) => AcceptFrom(accept, s, Ids(FriendRequests(ns)), 0, None)
  }

  /**
   * `acceptAllFriendRequests()` from client state `s`. Like every call
   * through `request`, it throws only when the key must be fetched and a
   * credential is missing, and then it sends nothing.
   */
  function AcceptAllSpec(creds: Credentials, server: Server, s: State): (e: Effect<nat>)
    ensures e.result.Threw? <==> s.key == "" && !HasCredentials(creds)
    ensures e.result.Threw? ==> e == Effect(Threw(NoCredentials), s)
  {
    var g := ListFriendRequests(creds, server, s);
    AfterListing(AcceptVia(creds, server), Then(g.result, AsNotifications), g.after)
  }

  /** The listing request `acceptAllFriendRequests()` sends under key `key`. */
  function ListingRequest(key: string): HttpRequest
  {
    HttpRequest(Get, WithApiKey(NotificationsUrl(Some(FriendRequest)), key), NoBody)
  }

  /**
   * With credentials and a key, `acceptAllFriendRequests()` sends the listing
   * request and then exactly one accept per friend request listed, in order,
   * and keeps the key.
   */
  lemma AcceptAllSends(creds: Credentials, server: Server, s: State)
    ensures
      var g := ListFriendRequests(creds, server, s);
      var e := AcceptAllSpec(creds, server, s);
      HasCredentials(creds) && s.key != "" && g.result.promise.Fulfilled? &&
      g.result.promise.value.NotificationsBody? ==>
        e.after == State(s.log + [ListingRequest(s.key)] + AcceptRequests(Ids(FriendRequests(g.result.promise.value.notifications)), s.key),
                         s.key)
  {
    var g := ListFriendRequests(creds, server, s);
    RequestWithKey(creds, server, s, NotificationsUrl(Some(FriendRequest)), Get, NoBody);
    if HasCredentials(creds) && s.key != "" && g.result.promise.Fulfilled? && g.result.promise.value.NotificationsBody? {
      AcceptViaKeeps(creds, server, g.after, Ids(FriendRequests(g.result.promise.value.notifications)));
    }
  }

  /**
   * With credentials and a key, when the server answers the first request
   * sent (the listing, a GET) with the notifications `ns` and answers every
   * PUT (the accepts) without an error field, `acceptAllFriendRequests()`
   * resolves to the number of friend requests in `ns`.
   */
  lemma AcceptAllCounts(creds: Credentials, server: Server, s: State, ns: seq<NotificationResponse>)
    requires HasCredentials(creds) && s.key != ""
    requires forall r: HttpRequest :: r.verb == Get ==> server(|s.log|, r) == Json(None, NotificationsBody(ns))
    requires forall n: nat, r: HttpRequest :: r.verb == Put ==> server(n, r).Json? && server(n, r).error.None?
    ensures AcceptAllSpec(creds, server, s).result == Returned(Fulfilled(|FriendRequests(ns)|))
  {
    var g := ListFriendRequests(creds, server, s);
    RequestWithKey(creds, server, s, NotificationsUrl(Some(FriendRequest)), Get, NoBody);
    assert Then(g.result, AsNotifications) == Returned(Fulfilled(ns));
    var accept := AcceptVia(creds, server);
    forall t: State, id | t.key == g.after.key
      ensures accept(t, id).result.Returned? && accept(t, id).result.promise.Fulfilled? &&
              accept(t, id).after.key == t.key
    {
      AcceptViaWithKey(creds, server, t, id);
    }
    AcceptAllFulfilled(accept, g.after, Ids(FriendRequests(ns)), 0);
  }
}
