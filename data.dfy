/** The stable domain model handed to callers (src/Data.ts). */
module Data {
  import opened Wrappers

  type UserId = string
  type Url = string
  type WorldId = string

  datatype Image = Image(url: Url, thumbnail: Url)

  /** A room instance: a world id plus the instance suffix. Compared by value. */
  datatype InstanceId = InstanceId(world: WorldId, instance: string)

  /** The five access tags, in the enum's declaration order (Public = 0 … InvitePlus = 4). */
  datatype AccessTag = Public | FriendsPlus | Friends | Invite | InvitePlus

  datatype User = User(
    id: UserId,
    userName: string,
    displayName: string,
    avatar: Image,
    location: Option<InstanceId>)

  datatype WorldInfo = WorldInfo(
    id: WorldId,
    name: string,
    description: string,
    featured: bool,
    authorId: UserId,
    authorName: string,
    capacity: int,
    tags: seq<string>,
    image: Image)

  /**
   * A world with its running instances. `instances` lists the entries of the
   * source's `Map<InstanceId, number>` in insertion order; its keys are fresh
   * objects, so two entries never merge even when their fields are equal.
   */
  datatype World = World(
    id: WorldId,
    name: string,
    description: string,
    featured: bool,
    authorId: UserId,
    authorName: string,
    capacity: int,
    tags: seq<string>,
    image: Image,
    instances: seq<(InstanceId, int)>)

  datatype Instance = Instance(
    id: InstanceId,
    users: seq<User>,
    nonce: Option<string>,
    access: AccessTag)

  /** The `WorldInfo` part of a `World`. */
  function Info(w: World): WorldInfo
  {
    WorldInfo(w.id, w.name, w.description, w.featured, w.authorId, w.authorName,
              w.capacity, w.tags, w.image)
  }
}
