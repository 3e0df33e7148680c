/**
 * The demo back end: seed items, claims and users, and the browser's
 * `localStorage`, where the items and claims lists are kept as JSON under
 * `gla_items` and `gla_claims`. A list that has never been stored reads as
 * its seed. Stored lists are kept here as the values they encode.
 */
module MockDb {
  import opened Wrappers

  /** One entry of a claim's conversation. */
  datatype Message = Message(senderId: string, text: string, time: string)

  /** An item of the demo store; `status` is `open`, `claimed` or `returned`. */
  datatype MockItem = MockItem(
    id: string,
    itemType: string,
    title: string,
    category: string,
    color: string,
    location: string,
    date: string,
    status: string,
    reportedBy: string,
    images: seq<string>,
    description: string)

  /** A claim on an item; `trustScore` is `None` when the claim has none. */
  datatype Claim = Claim(
    id: string,
    itemId: string,
    claimantId: string,
    status: string,
    date: string,
    trustScore: Option<int>,
    messages: seq<Message>)

  /** A demo account. */
  datatype User = User(id: string, role: string, name: string, identifier: string, email: string)

  // Long seed strings are concatenations of short literals split between words
  // (and between the parts of a URL), which keeps the proofs about them cheap.

  /** `INITIAL_ITEMS` */
  function InitialItems(): seq<MockItem>
  {
    [ MockItem("1", "found", "Blue iPhone 13", "Electronics", "Blue", "Canteen", "2026-01-16", "open", "user-002",
               ["https://" + "images.unsplash.com/" + "photo-" + "1632661674596-" + "df8be070a5c5?" + "auto=format&" + "fit=crop&w=400"],
               "Found near " + "soda machine. " + "Silver case."),
      MockItem("2", "lost", "Black Leather " + "Wallet", "Wallets", "Black", "Library", "2026-01-15", "open", "user-001",
               ["https://" + "images.unsplash.com/" + "photo-" + "1627123424574-" + "724758594e93?" + "auto=format&" + "fit=crop&w=400"],
               "Contains GLA " + "ID and some " + "cash.") ]
  }

  /** `INITIAL_CLAIMS` */
  function InitialClaims(): seq<Claim>
  {
    [ Claim("CLM-001", "1", "user-001", "pending", "2026-01-17", Some(85),
            [Message("user-001", "Hi, I think " + "this is my " + "phone. It has " + "a slight " + "scratch on " + "the top left.", "10:30 AM")]) ]
  }

  /** `INITIAL_USERS` */
  function InitialUsers(): seq<User>
  {
    [ User("user-001", "student", "Aman Gupta", "2100123", "student@gla.ac.in"),
      User("user-002", "faculty", "Dr. Arun " + "Sharma", "faculty@gla.ac.in", "faculty@gla.ac.in") ]
  }

  /**
   * The seed is consistent: the one claim is pending and names the first
   * seed item, and every seed claim's item exists.
   */
  lemma SeedConsistent()
    ensures |InitialClaims()| == 1 && InitialClaims()[0].id == "CLM-001" && InitialClaims()[0].status == "pending"
    ensures InitialClaims()[0].itemId == "1" && InitialItems()[0].id == "1"
    ensures forall c :: c in InitialClaims() ==> exists i :: i in InitialItems() && i.id == c.itemId
  {
    assert InitialItems()[0] in InitialItems();
  }

  const ItemsKey := "gla_items"
  const ClaimsKey := "gla_claims"

  /** What a storage key holds. */
  datatype Stored = ItemList(items: seq<MockItem>) | ClaimList(claims: seq<Claim>)

  /** Each list key holds a list of its own kind: only `setItems` and `setClaims` write them. */
  predicate WellTyped(storage: map<string, Stored>)
  {
    && (ItemsKey in storage ==> storage[ItemsKey].ItemList?)
    && (ClaimsKey in storage ==> storage[ClaimsKey].ClaimList?)
  }

  /** `getStorage('gla_items', INITIAL_ITEMS)` */
  function ItemsIn(storage: map<string, Stored>): seq<MockItem>
    requires WellTyped(storage)
  {
    if ItemsKey in storage then storage[ItemsKey].items else InitialItems()
  }

  /** `getStorage('gla_claims', INITIAL_CLAIMS)` */
  function ClaimsIn(storage: map<string, Stored>): seq<Claim>
    requires WellTyped(storage)
  {
    if ClaimsKey in storage then storage[ClaimsKey].claims else InitialClaims()
  }

  /** `setStorage('gla_items', items)` */
  function WithItems(storage: map<string, Stored>, items: seq<MockItem>): (r: map<string, Stored>)
    requires WellTyped(storage)
    ensures WellTyped(r) && r.Keys == storage.Keys + {ItemsKey}
  {
    storage[ItemsKey := ItemList(items)]
  }

  /** `setStorage('gla_claims', claims)` */
  function WithClaims(storage: map<string, Stored>, claims: seq<Claim>): (r: map<string, Stored>)
    requires WellTyped(storage)
    ensures WellTyped(r) && r.Keys == storage.Keys + {ClaimsKey}
  {
    storage[ClaimsKey := ClaimList(claims)]
  }

  /** Reading falls back to the seed exactly while nothing is stored. */
  lemma ReadFallsBack(storage: map<string, Stored>)
    requires WellTyped(storage)
    ensures ItemsKey !in storage ==> ItemsIn(storage) == InitialItems()
    ensures ItemsKey in storage ==> ItemsIn(storage) == storage[ItemsKey].items
    ensures ClaimsKey !in storage ==> ClaimsIn(storage) == InitialClaims()
    ensures ClaimsKey in storage ==> ClaimsIn(storage) == storage[ClaimsKey].claims
  {
  }

  /**
   * A stored list reads back as written, and the two lists live under
   * different keys, so writing one never changes what the other reads.
   */
  lemma WriteThenRead(storage: map<string, Stored>, items: seq<MockItem>, claims: seq<Claim>)
    requires WellTyped(storage)
    ensures ItemsIn(WithItems(storage, items)) == items
    ensures ClaimsIn(WithItems(storage, items)) == ClaimsIn(storage)
    ensures ClaimsIn(WithClaims(storage, claims)) == claims
    ensures ItemsIn(WithClaims(storage, claims)) == ItemsIn(storage)
  {
  }

  /** `localStorage` as the demo back end uses it. */
  class MockStorage {
    var storage: map<string, Stored>

    predicate Valid()
      reads this
    {
      WellTyped(storage)
    }

    constructor (initial: map<string, Stored>)
      requires WellTyped(initial)
      ensures Valid() && storage == initial
    {
      storage := initial;
    }

    /** `mockDb.getItems()` */
    function GetItems(): (r: seq<MockItem>)
      reads this
      requires Valid()
      ensures ItemsKey in storage ==> r == storage[ItemsKey].items
      ensures ItemsKey !in storage ==> r == InitialItems()
    {
      ItemsIn(storage)
    }

    /** `mockDb.getClaims()` */
    function GetClaims(): (r: seq<Claim>)
      reads this
      requires Valid()
      ensures ClaimsKey in storage ==> r == storage[ClaimsKey].claims
      ensures ClaimsKey !in storage ==> r == InitialClaims()
    {
      ClaimsIn(storage)
    }

    /** `mockDb.setItems(items)` */
    method SetItems(items: seq<MockItem>)
      requires Valid()
      modifies this
      ensures Valid() && storage == WithItems(old(storage), items)
      ensures GetItems() == items && GetClaims() == old(GetClaims())
    {
      storage := storage[ItemsKey := ItemList(items)];
    }

    /** `mockDb.setClaims(claims)` */
    method SetClaims(claims: seq<Claim>)
      requires Valid()
      modifies this
      ensures Valid() && storage == WithClaims(old(storage), claims)
      ensures GetClaims() == claims && GetItems() == old(GetItems())
    {
      storage := storage[ClaimsKey := ClaimList(claims)];
    }
  }

  /** `mockDb.getUsers()`: the seed accounts; it reads no storage, so no write changes it. */
  function GetUsers(): (r: seq<User>)
    ensures |r| == 2 && r[0].role == "student" && r[1].role == "faculty"
    ensures r[0].identifier == "2100123" && r[1].identifier == r[1].email
  {
    InitialUsers()
  }
}
