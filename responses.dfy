/** The raw server payloads the client reads (src/ApiReponses.ts), restricted to the fields it uses. */
module ApiResponses {
  import opened Wrappers

  datatype BaseUserResponse = BaseUserResponse(
    id: string,
    username: string,
    displayName: string,
    currentAvatarImageUrl: string,
    currentAvatarThumbnailImageUrl: string)

  /** A friend-list entry: a user plus its `world:instance` location string. */
  datatype LocationUserResponse = LocationUserResponse(base: BaseUserResponse, location: string)

  /** A full user record, carrying the location split into its two ids. */
  datatype UserResponse = UserResponse(
    base: BaseUserResponse,
    worldId: string,
    instanceId: string,
    location: string)

  /**
   * The shapes `formatUserResponse` accepts, tagged by which fields arrived:
   * no location fields, only `location`, or `location`, `worldId` and `instanceId`.
   */
  datatype UserPayload =
    | Bare(bare: BaseUserResponse)
    | Located(located: LocationUserResponse)
    | Full(full: UserResponse)

  datatype WorldResponse = WorldResponse(
    name: string,
    description: string,
    featured: bool,
    authorId: string,
    authorName: string,
    capacity: int,
    tags: seq<string>,
    imageUrl: string,
    thumbnailImageUrl: string,
    instances: seq<(string, int)>)

  /** `hidden` and `canRequestInvite` are optional strings, read for their JS truthiness. */
  datatype InstanceResponse = InstanceResponse(
    isPrivate: bool,
    friends: bool,
    users: seq<BaseUserResponse>,
    hidden: Option<string>,
    canRequestInvite: Option<string>,
    nonce: Option<string>)

  datatype NotificationType =
    | All | Message | FriendRequest | Invite | VoteToKick | Halp | Hidden | RequestInvite

  /** The wire name of a notification type. */
  function TypeName(t: NotificationType): string
  {
    match t
    case All => "all"
    case Message => "message"
    case FriendRequest => "friendrequest"
    case Invite => "invite"
    case VoteToKick => "votetokick"
    case Halp => "halp"
    case Hidden => "hidden"
    case RequestInvite => "requestinvite"
  }

  datatype NotificationResponse = NotificationResponse(
    id: string,
    senderUserId: string,
    kind: NotificationType,
    message: string,
    seen: bool)

  /** A parsed response body, by the endpoint shape it has. */
  datatype Payload =
    | ConfigBody(clientApiKey: string)
    | UserBody(user: UserPayload)
    | WorldBody(world: WorldResponse)
    | InstanceBody(instance: InstanceResponse)
    | FriendsBody(friends: seq<LocationUserResponse>)
    | NotificationsBody(notifications: seq<NotificationResponse>)
    | OtherBody
}
