/**
 * The request pipeline of src/Api.ts as pure functions: what one call of
 * `baseRequest`, `ensureApiKey` or `request` returns, which HTTP requests it
 * issues, and what the API key is afterwards, given the client's credentials,
 * the transport and the key before the call. The class `Client.Api` is proved
 * against these functions.
 *
 * A call either throws synchronously (`Threw`) or returns a promise; each call
 * runs as one atomic step, so the promise is given by its settled outcome.
 */
module Pipeline {
  import opened Wrappers
  import opened Data
  import opened ApiResponses
  import opened Normalize
  import JsString

  datatype Credentials = Credentials(username: string, password: string)

  /** Both credentials are truthy, i.e. non-empty. */
  predicate HasCredentials(c: Credentials)
  {
    c.username != "" && c.password != ""
  }

  datatype HttpMethod = Get | Post | Put

  /** The `details` object of a notification, before serialisation. */
  datatype Details = InviteDetails(worldId: string) | OtherDetails(serialized: string)

  datatype Body =
    | NoBody
    | NotificationBody(kind: NotificationType, details: Option<Details>, message: string)

  /** One outbound request, with the URL as `baseRequest` builds it (before the proxy hook). */
  datatype HttpRequest = HttpRequest(verb: HttpMethod, url: string, body: Body)

  /**
   * What the transport hands back: a failure of `fetch` or of `response.json()`,
   * or a parsed body whose `error` field, when truthy, is given serialised.
   */
  datatype Reply = NetworkFailure | Json(error: Option<string>, payload: Payload)

  /** The transport: the reply to the n-th request the client issues. */
  type Server = (nat, HttpRequest) -> Reply

  datatype ApiError =
    | NoCredentials                       // 'No credentials set'
    | TransportFailure                    // fetch or JSON parsing failed
    | Upstream(error: string, url: string) // the body carried an error field
    | UnexpectedShape                     // the body is not of the shape the endpoint reads

  datatype Promise<+T> = Fulfilled(value: T) | Rejected(reason: ApiError)

  datatype Call<+T> = Threw(error: ApiError) | Returned(promise: Promise<T>)

  /** What a call reads and changes of the client: every request issued so far, in order, and the API key. */
  datatype State = State(log: seq<HttpRequest>, key: string)

  /** A call's outcome and the client state after it. */
  datatype Effect<+T> = Effect(result: Call<T>, after: State)

  const ApiRoot := "https://vrchat.com/api/1/"

  function ConfigUrl(): string { ApiRoot + "config" }
  function UserByNameUrl(name: string): string { ApiRoot + "users/" + name + "/name" }
  function InstanceUrl(id: InstanceId): string { ApiRoot + "worlds/" + id.world + "/" + id.instance }
  function WorldUrl(id: WorldId): string { ApiRoot + "worlds/" + id }
  function CurrentUserUrl(): string { ApiRoot + "auth/user" }
  function FriendsUrl(): string { ApiRoot + "auth/user/friends" }
  function NotificationUrl(userId: string): string { ApiRoot + "user/" + userId + "/notification" }
  function FriendRequestUrl(userId: string): string { ApiRoot + "user/" + userId + "/friendRequest" }
  function NotificationActionUrl(notificationId: string, action: string): string
  {
    ApiRoot + "auth/user/notifications/" + notificationId + "/" + action
  }
  /** An absent type is interpolated as the text `undefined`. */
  function NotificationsUrl(kind: Option<NotificationType>): string
  {
    ApiRoot + "auth/user/notifications?type=" + (if kind.Some? then TypeName(kind.value) else "undefined")
  }

  /**
   * The URL `baseRequest` sends: the original URL, then `&` when it already
   * has a `?` and `?` otherwise, then the one parameter `apiKey=<key>`.
   */
  function WithApiKey(url: string, key: string): (r: string)
    ensures |r| == |url| + 1 + |"apiKey="| + |key|
    ensures r[..|url|] == url
    ensures r[|url|] == '&' <==> '?' in url
    ensures r[|url|] == '?' <==> '?' !in url
    ensures r[|url| + 1..] == "apiKey=" + key
  {
    var sep := if JsString.IndexOf(url, '?') != -1 then '&' else '?';
    var r := url + [sep] + "apiKey=" + key;
    assert r[..|url|] == url;
    r
  }

  /** A URL that already has a query string keeps its `?` as the start of the query. */
  lemma QueryKept(url: string, key: string)
    requires '?' in url
    ensures JsString.IndexOf(WithApiKey(url, key), '?') == JsString.IndexOf(url, '?')
  {
    var r := WithApiKey(url, key);
    var k := JsString.IndexOf(url, '?');
    assert r[..|url|] == url;
    assert r[..k] == url[..k];
    assert r[k] == '?';
    JsString.IndexOfAt(r, '?', k);
  }

  /** A URL without a query string gets one, starting at the appended `?`. */
  lemma QueryAppended(url: string, key: string)
    requires '?' !in url
    ensures JsString.IndexOf(WithApiKey(url, key), '?') == |url|
  {
    var r := WithApiKey(url, key);
    assert r[..|url|] == url;
    assert r[|url|] == '?';
    JsString.IndexOfAt(r, '?', |url|);
  }

  /** The promise `baseRequest` yields for a transport reply. */
  function Settle(reply: Reply, url: string): Promise<Payload>
  {
    match reply
    case NetworkFailure => Rejected(TransportFailure)
    case Json(error, payload) =>
      if error.Some? then Rejected(Upstream(error.value, url)) else Fulfilled(payload)
  }

  /**
   * `baseRequest(url, method, body)`: without credentials it throws before
   * anything is sent; otherwise it issues one request to the keyed URL, the
   * `|s.log|`-th request of the client.
   */
  function BaseRequestSpec(creds: Credentials, server: Server, s: State,
                           url: string, verb: HttpMethod, body: Body): (e: Effect<Payload>)
    ensures e.after.key == s.key
    ensures e.result.Threw? <==> !HasCredentials(creds)
    ensures e.result.Threw? ==> e.result.error == NoCredentials && e.after == s
    ensures e.result.Returned? ==>
      var r := HttpRequest(verb, WithApiKey(url, s.key), body);
      e.after.log == s.log + [r] && e.result.promise == Settle(server(|s.log|, r), r.url)
  {
    if !HasCredentials(creds) then Effect(Threw(NoCredentials), s)
    else
      var r := HttpRequest(verb, WithApiKey(url, s.key), body);
      Effect(Returned(Settle(server(|s.log|, r), r.url)), State(s.log + [r], s.key))
  }

  /** The config request `ensureApiKey` issues; the key is still empty then. */
  function ConfigRequest(): HttpRequest
  {
    HttpRequest(Get, WithApiKey(ConfigUrl(), ""), NoBody)
  }

  /** The `clientApiKey` a settled config request yields. */
  function KeyFrom(p: Promise<Payload>): Promise<string>
  {
    match p
    case Rejected(e) => Rejected(e)
    case Fulfilled(body) => if body.ConfigBody? then Fulfilled(body.clientApiKey) else Rejected(UnexpectedShape)
  }

  /** The key the n-th request would fetch if it were the config request. */
  function FetchedKey(server: Server, n: nat): Promise<string>
  {
    KeyFrom(Settle(server(n, ConfigRequest()), ConfigRequest().url))
  }

  /**
   * `ensureApiKey()`: with a key it does nothing; with the empty key it calls
   * `baseRequest` on the config URL and, if that succeeds, stores the
   * response's `clientApiKey`. There is no guard against a fetch in flight.
   */
  function EnsureApiKeySpec(creds: Credentials, server: Server, s: State): (e: Effect<()>)
    ensures s.key != "" ==> e == Effect(Returned(Fulfilled(())), s)
    ensures s.key == "" && !HasCredentials(creds) ==> e == Effect(Threw(NoCredentials), s)
    ensures s.key == "" && HasCredentials(creds) ==>
      e.after.log == s.log + [ConfigRequest()] && e.result.Returned?
    ensures s.key == "" && e.result == Returned(Fulfilled(())) ==> FetchedKey(server, |s.log|) == Fulfilled(e.after.key)
    ensures e.result.Returned? && e.result.promise.Rejected? ==>
      e.after.key == s.key && FetchedKey(server, |s.log|) == Rejected(e.result.promise.reason)
  {
    if s.key != "" then Effect(Returned(Fulfilled(())), s)
    else
      var b := BaseRequestSpec(creds, server, s, ConfigUrl(), Get, NoBody);
      match b.result
      case Threw(x) => Effect(Threw(x), b.after)
      case Returned(p) =>
        var k := KeyFrom(p);
        if k.Fulfilled? then Effect(Returned(Fulfilled(())), State(b.after.log, k.value))
        else Effect(Returned(Rejected(k.reason)), b.after)
  }

  /** A throw inside a `.then` callback rejects the chained promise instead. */
  function Async<T>(c: Call<T>): (p: Promise<T>)
    ensures c.Returned? ==> p == c.promise
    ensures c.Threw? ==> p == Rejected(c.error)
  {
    match c
    case Threw(x) => Rejected(x)
    case Returned(p) => p
  }

  /**
   * `request(url, method, body)`: `ensureApiKey()`, then `baseRequest` in a
   * continuation. Only the key fetch can throw synchronously; without
   * credentials nothing is sent; with a key, the key stays.
   */
  function RequestSpec(creds: Credentials, server: Server, s: State,
                       url: string, verb: HttpMethod, body: Body): (e: Effect<Payload>)
    ensures e.result.Threw? <==> s.key == "" && !HasCredentials(creds)
    ensures e.result.Threw? ==> e.result.error == NoCredentials
    ensures !HasCredentials(creds) ==> e.after == s
    ensures s.key != "" ==> e.after.key == s.key
  {
    var k := EnsureApiKeySpec(creds, server, s);
    match k.result
    case Threw(x) => Effect(Threw(x), k.after)
    case Returned(Rejected(x)) => Effect(Returned(Rejected(x)), k.after)
    case Returned(Fulfilled(_)) =>
      var b := BaseRequestSpec(creds, server, k.after, url, verb, body);
      Effect(Returned(Async(b.result)), b.after)
  }

  /** With a key and credentials, `request` sends exactly the keyed request and settles with its reply. */
  lemma RequestWithKey(creds: Credentials, server: Server, s: State,
                       url: string, verb: HttpMethod, body: Body)
    ensures
      var e := RequestSpec(creds, server, s, url, verb, body);
      var r := HttpRequest(verb, WithApiKey(url, s.key), body);
      s.key != "" && HasCredentials(creds) ==>
        e.after == State(s.log + [r], s.key) && e.result == Returned(Settle(server(|s.log|, r), r.url))
  {
  }

  /**
   * Without a key, `request` first sends the config request; only when that
   * yields a key does it send the keyed request, with the fetched key, and
   * keep that key.
   */
  lemma RequestFetchingKey(creds: Credentials, server: Server, s: State,
                           url: string, verb: HttpMethod, body: Body)
    requires HasCredentials(creds) && s.key == ""
    ensures
      var e := RequestSpec(creds, server, s, url, verb, body);
      var f := FetchedKey(server, |s.log|);
      f.Fulfilled? ==>
        var r := HttpRequest(verb, WithApiKey(url, f.value), body);
        e.after == State(s.log + [ConfigRequest(), r], f.value) &&
        e.result == Returned(Settle(server(|s.log| + 1, r), r.url))
    ensures
      var e := RequestSpec(creds, server, s, url, verb, body);
      var f := FetchedKey(server, |s.log|);
      f.Rejected? ==> e.after == State(s.log + [ConfigRequest()], "") && e.result == Returned(Rejected(f.reason))
  {
    var k := EnsureApiKeySpec(creds, server, s);
    if k.result.Returned? && k.result.promise.Fulfilled? {
      assert s.log + [ConfigRequest()] + [HttpRequest(verb, WithApiKey(url, k.after.key), body)] ==
             s.log + [ConfigRequest(), HttpRequest(verb, WithApiKey(url, k.after.key), body)];
    }
  }

  /** Chains a decoder onto a call, as `.then(decode)` does. */
  function Then<T>(c: Call<Payload>, decode: Payload -> Promise<T>): Call<T>
  {
    match c
    case Threw(x) => Threw(x)
    case Returned(Rejected(x)) => Returned(Rejected(x))
    case Returned(Fulfilled(p)) => Returned(decode(p))
  }

  /** `Then` for a decoder that also takes an argument of the call. */
  function ThenWith<A, T>(c: Call<Payload>, decode: (A, Payload) -> Promise<T>, arg: A): Call<T>
  {
    match c
    case Threw(x) => Threw(x)
    case Returned(Rejected(x)) => Returned(Rejected(x))
    case Returned(Fulfilled(p)) => Returned(decode(arg, p))
  }

  function AsUser(hint: Option<InstanceId>, p: Payload): Promise<User>
  {
    if p.UserBody? then Fulfilled(FormatUserResponse(p.user, hint)) else Rejected(UnexpectedShape)
  }

  function AsWorld(id: WorldId, p: Payload): Promise<World>
  {
    if p.WorldBody? then Fulfilled(WorldOf(id, p.world)) else Rejected(UnexpectedShape)
  }

  function AsWorldInfo(id: WorldId, p: Payload): Promise<WorldInfo>
  {
    if p.WorldBody? then Fulfilled(WorldInfoOf(id, p.world)) else Rejected(UnexpectedShape)
  }

  function AsInstance(id: InstanceId, p: Payload): Promise<Instance>
  {
    if p.InstanceBody? then Fulfilled(InstanceOf(id, p.instance)) else Rejected(UnexpectedShape)
  }

  function AsFriends(p: Payload): Promise<seq<User>>
  {
    if p.FriendsBody? then Fulfilled(FriendsOf(p.friends)) else Rejected(UnexpectedShape)
  }

  function AsNotifications(p: Payload): Promise<seq<NotificationResponse>>
  {
    if p.NotificationsBody? then Fulfilled(p.notifications) else Rejected(UnexpectedShape)
  }

  /** The request `inviteUser` makes: an `invite` notification carrying the `world:instance` text. */
  function InviteBody(instance: InstanceId, message: string): Body
  {
    NotificationBody(NotificationType.Invite, Some(InviteDetails(FormatLocation(instance))), message)
  }

  /** What `inviteUser` sends names exactly the instance it was given. */
  lemma {:induction false} InviteNamesInstance(instance: InstanceId, message: string)
    requires ':' !in instance.world && ':' !in instance.instance
    ensures InviteBody(instance, message).details.Some?
    ensures ParseLocation(InviteBody(instance, message).details.value.worldId) == Some(instance)
  {
    LocationRoundTrip(instance);
  }
}
