/** The relational store the services share (the Prisma client): one
    sequence per table, in insertion order, and the constraints the schema
    enforces on them. Every service holds a reference to one `Database`. */
module Store {
  import opened Wrappers
  import opened Seqs

  /** Row identifiers; the store hands out fresh ones from `nextId`. */
  type Id = nat

  /** Timestamps are milliseconds since the epoch. */
  const MINUTE: int := 60_000
  const DAY: int := 86_400_000

  datatype AuthProvider = LOCAL | GOOGLE | YANDEX | VK
  datatype UserRole = USER | PREMIUM | ADMIN
  datatype PropertyType = APARTMENT | HOUSE | LAND | COMMERCIAL
  datatype PropertyStatus = ACTIVE | PENDING | ARCHIVED

  datatype User = User(
    id: Id,
    phone: Option<string>,
    email: Option<string>,
    name: Option<string>,
    avatar: Option<string>,
    passwordHash: Option<string>,
    role: UserRole,
    isPremium: bool,
    provider: AuthProvider,
    providerId: Option<string>,
    createdAt: int,
    updatedAt: int)

  /** A one-time code row (`phoneCode`). */
  datatype PhoneCode = PhoneCode(id: Id, phone: string, code: string, expiresAt: int, ip: Option<string>, createdAt: int)

  /** A refresh-token row: the signed token string itself is the lookup key. */
  datatype RefreshToken = RefreshToken(id: Id, token: string, userId: Id, expiresAt: int, createdAt: int)

  /** A property listing (`property`). Prices and areas are whole numbers here. */
  datatype Listing = Listing(
    id: Id,
    userId: Id,
    title: string,
    description: string,
    price: int,
    currency: string,
    location: string,
    region: string,
    propertyType: PropertyType,
    rooms: Option<int>,
    area: int,
    images: seq<string>,
    features: seq<string>,
    status: PropertyStatus,
    views: nat,
    createdAt: int)

  datatype Favorite = Favorite(id: Id, userId: Id, propertyId: Id, createdAt: int)

  /** A user created with the schema defaults: role USER, not premium, no name or avatar. */
  function NewUser(id: Id, phone: Option<string>, email: Option<string>, passwordHash: Option<string>,
                   provider: AuthProvider, providerId: Option<string>, now: int): (u: User)
    ensures u.id == id && u.phone == phone && u.email == email && u.passwordHash == passwordHash
    ensures u.provider == provider && u.providerId == providerId
    ensures u.role == USER && !u.isPremium && u.createdAt == now
  {
    User(id, phone, email, None, None, passwordHash, USER, false, provider, providerId, now, now)
  }

  // ---------------------------------------------------------------------
  // Lookups (`findUnique` / `findFirst` on one table)
  // ---------------------------------------------------------------------

  function UserById(users: seq<User>, id: Id): Option<nat> {
    FindFirst(users, (u: User) => u.id == id)
  }

  function UserByPhone(users: seq<User>, phone: string): Option<nat> {
    FindFirst(users, (u: User) => u.phone == Some(phone))
  }

  function UserByEmail(users: seq<User>, email: string): Option<nat> {
    FindFirst(users, (u: User) => u.email == Some(email))
  }

  function UserByProvider(users: seq<User>, provider: AuthProvider, providerId: string): Option<nat> {
    FindFirst(users, (u: User) => u.provider == provider && u.providerId == Some(providerId))
  }

  function ListingById(properties: seq<Listing>, id: Id): Option<nat> {
    FindFirst(properties, (l: Listing) => l.id == id)
  }

  function FavoriteOf(favorites: seq<Favorite>, userId: Id, propertyId: Id): Option<nat> {
    FindFirst(favorites, (f: Favorite) => f.userId == userId && f.propertyId == propertyId)
  }

  /** A row whose key no earlier row shares is what the lookup finds. */
  lemma UserByIdAt(users: seq<User>, i: nat)
    requires i < |users| && forall j :: 0 <= j < i ==> users[j].id != users[i].id
    ensures UserById(users, users[i].id) == Some(i)
  {
  }

  lemma UserByProviderAt(users: seq<User>, i: nat, provider: AuthProvider, providerId: string)
    requires i < |users| && users[i].provider == provider && users[i].providerId == Some(providerId)
    requires forall j :: 0 <= j < i ==> !(users[j].provider == provider && users[j].providerId == Some(providerId))
    ensures UserByProvider(users, provider, providerId) == Some(i)
  {
  }

  lemma FavoriteOfAt(favorites: seq<Favorite>, i: nat)
    requires i < |favorites|
    requires forall j :: 0 <= j < i ==>
               !(favorites[j].userId == favorites[i].userId && favorites[j].propertyId == favorites[i].propertyId)
    ensures FavoriteOf(favorites, favorites[i].userId, favorites[i].propertyId) == Some(i)
  {
  }

  lemma ListingByIdAt(properties: seq<Listing>, i: nat)
    requires i < |properties| && forall j :: 0 <= j < i ==> properties[j].id != properties[i].id
    ensures ListingById(properties, properties[i].id) == Some(i)
  {
  }

  // ---------------------------------------------------------------------
  // Constraints
  // ---------------------------------------------------------------------

  /** Primary keys are unique and phone and email are `@unique`. A linked
      OAuth identity (provider, providerId) also belongs to at most one user:
      no constraint enforces that; the sign-in flow keeps it. */
  ghost predicate UsersUnique(users: seq<User>) {
    forall i, j :: 0 <= i < j < |users| ==>
      && users[i].id != users[j].id
      && (users[i].phone.Some? ==> users[i].phone != users[j].phone)
      && (users[i].email.Some? ==> users[i].email != users[j].email)
      && (users[i].providerId.Some? ==>
            users[i].provider != users[j].provider || users[i].providerId != users[j].providerId)
  }

  /** `@@unique([userId, propertyId])` on favorites. */
  ghost predicate FavoritePairsUnique(favorites: seq<Favorite>) {
    forall i, j :: 0 <= i < j < |favorites| ==>
      favorites[i].id != favorites[j].id
      && (favorites[i].userId != favorites[j].userId || favorites[i].propertyId != favorites[j].propertyId)
  }

  /** A user row whose keys no other row holds. */
  ghost predicate FreshUserKeys(users: seq<User>, skip: int, v: User) {
    forall i :: 0 <= i < |users| && i != skip ==>
      && users[i].id != v.id
      && (v.phone.Some? ==> users[i].phone != v.phone)
      && (v.email.Some? ==> users[i].email != v.email)
      && (v.providerId.Some? ==> users[i].provider != v.provider || users[i].providerId != v.providerId)
  }

  lemma AppendUserUnique(users: seq<User>, v: User)
    requires UsersUnique(users) && FreshUserKeys(users, -1, v)
    ensures UsersUnique(users + [v])
  {
  }

  lemma ReplaceUserUnique(users: seq<User>, j: nat, v: User)
    requires UsersUnique(users) && j < |users| && FreshUserKeys(users, j, v)
    ensures UsersUnique(users[j := v])
  {
  }

  ghost predicate ListingIdsUnique(properties: seq<Listing>) {
    forall i, j :: 0 <= i < j < |properties| ==> properties[i].id != properties[j].id
  }

  lemma RemoveListingKeepsIdsUnique(properties: seq<Listing>, i: nat)
    requires ListingIdsUnique(properties) && i < |properties|
    ensures ListingIdsUnique(RemoveAt(properties, i))
    ensures ListingById(RemoveAt(properties, i), properties[i].id).None?
  {
    var r := RemoveAt(properties, i);
    forall a, b | 0 <= a < b < |r| ensures r[a].id != r[b].id {
      var a' := if a < i then a else a + 1;
      var b' := if b < i then b else b + 1;
      assert r[a] == properties[a'] && r[b] == properties[b'];
    }
    forall j | 0 <= j < |r| ensures r[j].id != properties[i].id {
      if j >= i {
        assert r[j] == properties[j + 1];
      }
    }
  }

  lemma RemoveUserKeepsUnique(users: seq<User>, i: nat)
    requires UsersUnique(users) && i < |users|
    ensures UsersUnique(RemoveAt(users, i))
    ensures UserById(RemoveAt(users, i), users[i].id).None?
  {
    var r := RemoveAt(users, i);
    forall a, b | 0 <= a < b < |r|
      ensures && r[a].id != r[b].id
              && (r[a].phone.Some? ==> r[a].phone != r[b].phone)
              && (r[a].email.Some? ==> r[a].email != r[b].email)
              && (r[a].providerId.Some? ==> r[a].provider != r[b].provider || r[a].providerId != r[b].providerId)
    {
      var a' := if a < i then a else a + 1;
      var b' := if b < i then b else b + 1;
      assert r[a] == users[a'] && r[b] == users[b'];
    }
    forall j | 0 <= j < |r| ensures r[j].id != users[i].id {
      if j >= i {
        assert r[j] == users[j + 1];
      }
    }
  }

  class Database {
    var users: seq<User>
    var phoneCodes: seq<PhoneCode>
    var refreshTokens: seq<RefreshToken>
    var properties: seq<Listing>
    var favorites: seq<Favorite>
    /** The next fresh identifier; every id in use is below it. */
    var nextId: Id
    /** The database's case-insensitive substring test (`contains`, `mode: "insensitive"`). */
    const contains: (string, string) -> bool

    ghost predicate Valid()
      reads this
    {
      && UsersUnique(users)
      && ListingIdsUnique(properties)
      && FavoritePairsUnique(favorites)
      && (forall i :: 0 <= i < |users| ==> users[i].id < nextId)
      && (forall i :: 0 <= i < |phoneCodes| ==> phoneCodes[i].id < nextId)
      && (forall i :: 0 <= i < |refreshTokens| ==> refreshTokens[i].id < nextId)
      && (forall i :: 0 <= i < |properties| ==> properties[i].id < nextId)
      && (forall i :: 0 <= i < |favorites| ==> favorites[i].id < nextId)
    }

    constructor (contains: (string, string) -> bool)
      ensures Valid()
      ensures users == [] && phoneCodes == [] && refreshTokens == [] && properties == [] && favorites == []
      ensures this.contains == contains
    {
      users, phoneCodes, refreshTokens, properties, favorites := [], [], [], [], [];
      nextId := 0;
      this.contains := contains;
    }
  }
}
