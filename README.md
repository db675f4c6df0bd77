# vrcapi client core in Dafny

A model of the `Api` client of the VRChat web API wrapper (src/Api.ts), with
proofs of what it promises.

The model has two layers, as the client does.

- **Response normalisation** (`Normalize`, over the payload types of
  `ApiResponses` and the domain types of `Data`). These are pure functions:
  - `formatUserResponse` and `hasLocation`;
  - the `parseInstanceAccessTag` decision table;
  - `parseLocation` and the `world:instance` text `inviteUser` sends;
  - the world, instance and friends mappings;
  - the friend-request filter.

  `JsString` gives `indexOf` and `split`/`join` on strings.
- **The stateful client** (`Client.Api`). It is a class with these fields:
  - the credentials;
  - the lazily fetched `apiKey`;
  - the `cachedCurrentUser` slot;
  - the `cachedWorldInfo` map;
  - a request counter.

  A ghost `log` records every request the client issues, in order. The
  transport is an abstract `server` that maps the serial of a request and the
  request itself to a reply.

  Each method is one atomic step. A call either throws synchronously (`Threw`)
  or returns a promise, which the model gives by its settled outcome
  (`Fulfilled` or `Rejected`). Each method is proved against a pure function:
  - `Pipeline.BaseRequestSpec`, `Pipeline.EnsureApiKeySpec` and
    `Pipeline.RequestSpec` for the request pipeline;
  - `AcceptAll.AcceptFrom` and `AcceptAll.AcceptAllSpec` for
    `acceptAllFriendRequests`.

  These functions map the client state before the call (`State(log, key)`) to
  the outcome and the state after it. The lemmas are stated about these
  functions.

Two places where the code is followed rather than a prose description of it:
- `ensureApiKey` has no guard against a config fetch in flight. Every call made
  while the key is empty issues its own config request, so the model makes no
  single-flight claim for the key. The read-through caches do avoid a second
  request.
- `parseLocation` does not split into "world" and "the rest". `split(':')[1]`
  keeps only the text between the first and the second colon, and
  `Normalize.SecondColonTruncates` shows this.

## Model

| member | source | states |
|---|---|---|
| JsString.IndexOf | src/Api.ts:63 | `indexOf` gives -1 exactly when the character is absent; otherwise it gives the position of its first occurrence |
| JsString.Split | src/Api.ts:183-186 | `split` gives at least one part; no part contains the separator; there is one part exactly when the separator is absent; joining the parts gives back the input |
| JsString.SplitJoin | src/Api.ts:183-186 | splitting the join of separator-free parts gives those parts back |
| Normalize.FormatUserResponse | src/Api.ts:7-28 | a non-null hint is the location; otherwise there is a location exactly when the payload has a `location` field and a truthy `instanceId`, and it is `{world: worldId, instance: instanceId}`; id, user name, display name and both avatar URLs are copied |
| Normalize.ParseInstanceAccessTag | src/Api.ts:97-111 | each of the five tags holds exactly when its flag condition holds: FriendsPlus for hidden, not friends and not private; Friends for friends and not private; Invite and InvitePlus for private, split on `canRequestInvite`; Public when no flag is set |
| Normalize.AccessTagExamples | src/Api.ts:97-111 | hidden alone gives FriendsPlus, private alone gives Invite, no flag gives Public |
| Normalize.ParseLocation | src/Api.ts:180-187 | null exactly when there is no `:`; otherwise world and instance are colon-free and `world:instance` is a prefix of the input followed by its end or by a `:` |
| Normalize.LocationRoundTrip | src/Api.ts:180-187 | for colon-free world and instance, parsing `world:instance` gives back the same instance id |
| Normalize.FormatParsedLocation | src/Api.ts:180-187 | a parsed location formats back to the input exactly when no `:` follows the instance part |
| Normalize.ParseLocationExample | src/Api.ts:180-187 | `wrld_123:instance_id_5` parses to world `wrld_123` and instance `instance_id_5` |
| Normalize.OfflineHasNoLocation | src/Api.ts:181-182 | a status with no colon, such as `offline`, parses to null |
| Normalize.SecondColonTruncates | src/Api.ts:183-186 | `wrld_1:abc:def` parses to world `wrld_1` and instance `abc`: the text after a second colon is lost |
| Normalize.PairWithWorld | src/Api.ts:141-149 | one entry per server tuple, in order; entry i is keyed `{world: id, instance: tuple[0]}` with count `tuple[1]` |
| Normalize.UnpairPairWithWorld | src/Api.ts:141-149 | the server tuples can be recovered from the entries, so no tuple is lost, merged or reordered |
| Normalize.WorldOf | src/Api.ts:125-152 | the world carries the requested id; its info part is the same projection `getWorldInfoById` builds; its instances pair the id with each server tuple, in order |
| Normalize.WorldExample | src/Api.ts:141-149 | servers `abc` (3) and `def` (0) of `wrld_1` give the entries `wrld_1:abc` with 3 and `wrld_1:def` with 0 |
| Normalize.InstanceOf | src/Api.ts:113-123 | the instance carries the requested id and keeps the number of users; every user is `formatUserResponse` of the listed user with the requested instance as hint, so its id, name, display name and avatar are copied and its location is the requested instance; the tag is given by the decision table and the nonce is copied |
| Normalize.FriendsOf | src/Api.ts:198-201 | one friend per entry, in order; each friend is `formatUserResponse` of its entry with `parseLocation` of the entry's location string as hint, so every field is copied and the location is the parsed one |
| Normalize.FriendRequests | src/Api.ts:240 | a notification is kept only if it is of type `friendrequest` and every friend request is kept; it keeps all of them exactly when every notification is a friend request |
| Normalize.FriendRequestsMultiplicity | src/Api.ts:240 | each friend request is kept as often as it occurs and nothing else is kept, which fixes how many are kept |
| Normalize.FriendRequestsOne | src/Api.ts:240 | a single notification is kept exactly when it is a friend request |
| Normalize.FriendRequestsAppend | src/Api.ts:240 | the filter of a concatenation is the concatenation of the filters, so with `FriendRequestsOne` the kept notifications keep their order |
| Pipeline.WithApiKey | src/Api.ts:63 | the URL is kept as a prefix, followed by one separator and then `apiKey=<key>`; the separator is `&` exactly when the URL contains `?`, and `?` otherwise |
| Pipeline.QueryKept | src/Api.ts:63 | a URL that already has a query keeps the position of its first `?` |
| Pipeline.QueryAppended | src/Api.ts:63 | a URL without a query gets its first `?` right after the original URL |
| Pipeline.BaseRequestSpec | src/Api.ts:59-81 | it throws exactly when a credential is empty, and then nothing is sent; otherwise exactly one request is sent, to the keyed URL, and it settles with that request's reply; the key never changes |
| Pipeline.EnsureApiKeySpec | src/Api.ts:83-90 | with a key it sends nothing and changes nothing; with the empty key and no credentials it throws; with the empty key and credentials it sends exactly the config request, and on success the key becomes the fetched `clientApiKey`; a rejection leaves the key unchanged |
| Pipeline.Async | src/Api.ts:56 | a throw inside a continuation becomes a rejection with the thrown error; a returned promise is passed on |
| Pipeline.RequestSpec | src/Api.ts:55-57 | it throws exactly when the key is empty and credentials are missing; without credentials nothing is sent and the state is unchanged; a key that is set is kept |
| Pipeline.RequestWithKey | src/Api.ts:55-57 | with a key and credentials, exactly the keyed request is sent and the call settles with its reply |
| Pipeline.RequestFetchingKey | src/Api.ts:55-57 | with the empty key, the config request is sent first; if it yields a key, the keyed request follows with that key, which is kept; otherwise the call rejects after the config request alone |
| Pipeline.InviteNamesInstance | src/Api.ts:203-207 | the invite's `details.worldId` parses back to the instance it was built from |
| AcceptAll.RequestsFor | src/Api.ts:241 | one request per id, in the order of the ids |
| AcceptAll.AcceptFrom | src/Api.ts:241-242 | the fan-out always returns a promise; when it resolves, the count is the number of ids, and any earlier rejection makes it reject |
| AcceptAll.AcceptAllFulfilled | src/Api.ts:241-242 | when every accept fulfils and keeps the key, the fan-out resolves to the number of ids |
| AcceptAll.AcceptStepThrew | src/Api.ts:241 | a synchronous throw while accepting one id rejects the fan-out, with nothing further sent |
| AcceptAll.AcceptStepReturned | src/Api.ts:241 | otherwise the fan-out continues from the state that accept call left |
| AcceptAll.AcceptIssuesOnePerId | src/Api.ts:241 | when each call made with the key sends only its own request and keeps the key, the fan-out sends exactly one request per id, in order, and keeps the key |
| AcceptAll.AcceptViaWithKey | src/Api.ts:222-224 | with a key and credentials, `acceptFriendRequest(id)` sends only the keyed PUT to `.../notifications/<id>/accept`, and the server's reply to it settles the call |
| AcceptAll.AcceptViaKeeps | src/Api.ts:241 | with a key and credentials, the accept fan-out sends exactly the accept requests for the ids, in order |
| AcceptAll.AfterListing | src/Api.ts:238-243 | when the call resolves, the listing resolved and the count is the number of friend-request notifications in it; a listing that throws or rejects is passed on unchanged, with nothing further sent; a listing that returns a promise never makes the call throw |
| AcceptAll.AcceptAllSpec | src/Api.ts:238-243 | `acceptAllFriendRequests()` throws exactly when the key must be fetched and a credential is missing, and then it sends nothing |
| AcceptAll.AcceptAllCounts | src/Api.ts:238-243 | with credentials and a key, when the listing GET returns the notifications and every accept PUT succeeds, the call resolves to the number of friend requests listed |
| AcceptAll.AcceptAllSends | src/Api.ts:238-243 | with a key and credentials, the listing request is sent, then exactly one accept per listed friend request, in order, and the key is kept |
| Client.Api.constructor | src/Api.ts:40-53 | a new client has the given credentials, an empty key, both caches empty and nothing sent |
| Client.Api.BaseRequest | src/Api.ts:59-81 | the outcome and the new log are those of `BaseRequestSpec` for the state before the call; the key is untouched |
| Client.Api.EnsureApiKey | src/Api.ts:83-90 | the outcome, log and key are those of `EnsureApiKeySpec`; credentials and caches are untouched |
| Client.Api.Request | src/Api.ts:55-57 | the outcome, log and key are those of `RequestSpec` |
| Client.Api.GetUserByName | src/Api.ts:92-95 | `RequestSpec` for `users/<name>/name`, decoded by `formatUserResponse` with no hint |
| Client.Api.GetInstanceById | src/Api.ts:113-123 | `RequestSpec` for `worlds/<world>/<instance>`, decoded by `InstanceOf` with the requested id |
| Client.Api.GetWorldById | src/Api.ts:125-152 | `RequestSpec` for `worlds/<id>`, decoded by `WorldOf` with the requested id |
| Client.Api.GetWorldInfoById | src/Api.ts:154-178 | for a cached id, the stored promise is returned and nothing is sent or changed; otherwise the call follows `RequestSpec`, and unless it threw, exactly the entry for the id is added and all other entries are kept |
| Client.Api.GetCurrentUser | src/Api.ts:189-196 | a filled slot is returned and nothing is sent or changed; otherwise the call follows `RequestSpec` for `auth/user`, and unless it threw, the slot holds the new promise |
| Client.Api.GetFriends | src/Api.ts:198-201 | `RequestSpec` for `auth/user/friends`, decoded by `FriendsOf` |
| Client.Api.SendNotification | src/Api.ts:209-216 | a POST to `user/<id>/notification` carrying the type, the optional details and the message |
| Client.Api.InviteUser | src/Api.ts:203-207 | an `invite` notification whose details are `world:instance` (see `InviteNamesInstance`) |
| Client.Api.SendFriendRequest | src/Api.ts:218-220 | a POST to `user/<id>/friendRequest` with no body |
| Client.Api.AcceptFriendRequest | src/Api.ts:222-224 | a PUT to `auth/user/notifications/<id>/accept`, as `AcceptVia` gives it |
| Client.Api.DeleteNotification | src/Api.ts:226-228 | a PUT to `auth/user/notifications/<id>/hide` |
| Client.Api.MarkNotificationAsRead | src/Api.ts:230-232 | a PUT to `auth/user/notifications/<id>/see` |
| Client.Api.GetNotifications | src/Api.ts:234-236 | a GET of `auth/user/notifications?type=<type>`, where an absent type is written `undefined`; the body is read as a notification list |
| Client.Api.AcceptEach | src/Api.ts:241 | accepting the ids one after another in a loop has the outcome and final state of `AcceptFrom` |
| Client.Api.AcceptAllFriendRequests | src/Api.ts:238-243 | the outcome and final state are those of `AcceptAllSpec` |
| Client.WorldInfoLookedUpTwice | src/Api.ts:154-158 | once a first lookup of a world has returned a promise, a second lookup returns the same promise; for an id already cached, nothing is sent, and for an id not cached, the two lookups together send only the requests of the first |

## Left out

- `fetch`, CORS mode, the proxy hook, `response.json()` and `JSON.stringify` are foreign calls. The transport is the abstract `server`: it maps the serial of a request and the request to a reply, which is either a failure or a parsed body. The URL in the log is the one before the proxy hook.
- The `authorization` header, a base64 (`btoa`) encoding of the credentials, is not modelled. The model only checks that both credentials are non-empty.
- A body's `error` field is tested for truthiness in the source. The model gives it as an optional string that is present only when truthy, and `JSON.stringify` of it as that string.
- Asynchronous interleaving: each method runs as one atomic step and a promise is represented by its settled outcome. Because `ensureApiKey` has no guard against a fetch in flight, calls that overlap before the first key arrives each fetch the config in the real client; the model runs the calls one at a time, so it does not show these duplicate fetches.
- AcceptAll.AcceptFrom: `Promise.all` rejects with the first rejection to settle. Without timing, the model takes the first rejection in list order. The model also starts the accept calls in sequence, so each one sees the key the previous one left.
- A response body of a shape the endpoint does not read is rejected with `UnexpectedShape`. The source would instead go on with `undefined` fields or throw a `TypeError` inside the continuation.
- The keys of the `instances` map are fresh objects, so the JS `Map` compares them by identity and never merges them. The model keeps the entries as a sequence of pairs in server order.
- Response fields no core code reads (config, auth-user and package metadata) are not modelled. The live-network test in tests/ApiTest.ts states no property of the logic.
- The `credentials` object is shared with the caller and could be mutated outside the client. The model holds it as a constant.
- Integers (`capacity`, user counts) are unbounded here. The source only copies them, so no width matters.
