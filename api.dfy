/**
 * The demo API over the mock back end: password login against the demo
 * accounts, item search, reporting items and claims (newest first), the
 * per-user and faculty views, claim review, and the landing page's latest
 * activity. Reads take the list the mock back end returns; writes go
 * through `MockStorage`.
 */
module Api {
  import opened Wrappers
  import opened Text
  import opened Seqs
  import opened MockDb

  // ---------------------------------------------------------------- login

  /** A demo account is found by identifier or email, and must have the requested role. */
  function LoginMatch(identifier: string, role: string): User -> bool
  {
    (u: User) => (u.identifier == identifier || u.email == identifier) && u.role == role
  }

  /** The demo password: `Student@123` for students, `Faculty@123` for any other role. */
  function CorrectPassword(role: string): string
  {
    if role == "student" then "Student@123" else "Faculty@123"
  }

  /** `login({ identifier, password, role })` against the accounts `users`. */
  function Login(users: seq<User>, identifier: string, password: string, role: string): (r: Result<User, string>)
    ensures r.Ok? ==> r.value in users && LoginMatch(identifier, role)(r.value) && password == CorrectPassword(role)
  {
    var i := FindIndex(users, LoginMatch(identifier, role));
    if i < 0 then Err("Invalid credentials or unauthorized role access.")
    else if password == CorrectPassword(role) then Ok(users[i])
    else Err("Incorrect password. Please try again.")
  }

  /**
   * The three outcomes: the first matching account with the right password;
   * `Incorrect password…` when an account matches but the password is
   * wrong; `Invalid credentials…` when no account matches.
   */
  lemma LoginCases(users: seq<User>, identifier: string, password: string, role: string)
    ensures var r := Login(users, identifier, password, role);
      && (r == Err("Invalid credentials or unauthorized role access.") <==>
            forall i :: 0 <= i < |users| ==> !LoginMatch(identifier, role)(users[i]))
      && (r == Err("Incorrect password. Please try again.") <==>
            (exists i :: 0 <= i < |users| && LoginMatch(identifier, role)(users[i])) && password != CorrectPassword(role))
      && (r.Ok? ==> exists i :: 0 <= i < |users| && r.value == users[i] && forall j :: 0 <= j < i ==> !LoginMatch(identifier, role)(users[j]))
  {
    var i := FindIndex(users, LoginMatch(identifier, role));
    if i >= 0 {
      assert LoginMatch(identifier, role)(users[i]);
    }
  }

  /** The demo accounts: the student signs in by roll number or email, the faculty member by email. */
  lemma DemoAccounts()
    ensures Login(GetUsers(), "2100123", "Student@123", "student") == Ok(InitialUsers()[0])
    ensures Login(GetUsers(), "student@gla.ac.in", "Student@123", "student") == Ok(InitialUsers()[0])
    ensures Login(GetUsers(), "faculty@gla.ac.in", "Faculty@123", "faculty") == Ok(InitialUsers()[1])
    ensures Login(GetUsers(), "2100123", "Student@123", "faculty").Err?
  {
    var users := GetUsers();
    assert !LoginMatch("faculty@gla.ac.in", "faculty")(users[0]);
    assert !LoginMatch("2100123", "faculty")(users[0]) && !LoginMatch("2100123", "faculty")(users[1]);
  }

  // ---------------------------------------------------------------- search

  /** The filters of `getItems`; `""` is a filter that is not set. */
  datatype ItemFilters = ItemFilters(itemType: string, category: string, status: string, search: string)

  function TypeOk(f: ItemFilters): MockItem -> bool
  {
    (i: MockItem) => f.itemType == "" || i.itemType == f.itemType
  }

  function CategoryOk(f: ItemFilters): MockItem -> bool
  {
    (i: MockItem) => f.category == "" || i.category == f.category
  }

  function StatusOk(f: ItemFilters): MockItem -> bool
  {
    (i: MockItem) => f.status == "" || i.status == f.status
  }

  /** The search text, lower-cased, occurs in the lower-cased title or description. */
  function SearchOk(f: ItemFilters): MockItem -> bool
  {
    (i: MockItem) => f.search == "" || Contains(ToLower(i.title), ToLower(f.search)) || Contains(ToLower(i.description), ToLower(f.search))
  }

  /** An item satisfies every filter that is set. */
  function MatchesFilters(f: ItemFilters): MockItem -> bool
  {
    (i: MockItem) => TypeOk(f)(i) && CategoryOk(f)(i) && StatusOk(f)(i) && SearchOk(f)(i)
  }

  /** `getItems(filters)` over the stored items, applying each filter that is set in turn. */
  function GetItems(items: seq<MockItem>, f: ItemFilters): (r: seq<MockItem>)
    ensures |r| <= |items|
    ensures f == ItemFilters("", "", "", "") ==> r == items
  {
    var byType := if f.itemType != "" then Filter(items, TypeOk(f)) else items;
    var byCategory := if f.category != "" then Filter(byType, CategoryOk(f)) else byType;
    var byStatus := if f.status != "" then Filter(byCategory, StatusOk(f)) else byCategory;
    if f.search != "" then Filter(byStatus, SearchOk(f)) else byStatus
  }

  function TypeAndCategoryOk(f: ItemFilters): MockItem -> bool
  {
    (i: MockItem) => TypeOk(f)(i) && CategoryOk(f)(i)
  }

  function FirstThreeOk(f: ItemFilters): MockItem -> bool
  {
    (i: MockItem) => TypeOk(f)(i) && CategoryOk(f)(i) && StatusOk(f)(i)
  }

  /** Skipping an unset filter is the same as applying it. */
  lemma UnsetFilterKeepsAll(xs: seq<MockItem>, p: MockItem -> bool)
    requires forall i :: p(i)
    ensures Filter(xs, p) == xs
  {
    FilterAll(xs, p);
  }

  /**
   * The search is one filter by the conjunction of the filters that are set:
   * the result is the subsequence of the stored items, in store order, that
   * satisfy all of them.
   */
  lemma GetItemsIsOneFilter(items: seq<MockItem>, f: ItemFilters)
    ensures GetItems(items, f) == Filter(items, MatchesFilters(f))
  {
    var byType := Filter(items, TypeOk(f));
    if f.itemType == "" { UnsetFilterKeepsAll(items, TypeOk(f)); }
    var byCategory := Filter(byType, CategoryOk(f));
    if f.category == "" { UnsetFilterKeepsAll(byType, CategoryOk(f)); }
    var byStatus := Filter(byCategory, StatusOk(f));
    if f.status == "" { UnsetFilterKeepsAll(byCategory, StatusOk(f)); }
    if f.search == "" { UnsetFilterKeepsAll(byStatus, SearchOk(f)); }
    FilterFilter(items, TypeOk(f), CategoryOk(f), TypeAndCategoryOk(f));
    FilterFilter(items, TypeAndCategoryOk(f), StatusOk(f), FirstThreeOk(f));
    FilterFilter(items, FirstThreeOk(f), SearchOk(f), MatchesFilters(f));
  }

  /** An item is found exactly when it is stored and satisfies every filter that is set; with none set, everything is found. */
  lemma GetItemsMembers(items: seq<MockItem>, f: ItemFilters)
    ensures forall x :: x in GetItems(items, f) <==> x in items && MatchesFilters(f)(x)
    ensures f == ItemFilters("", "", "", "") ==> GetItems(items, f) == items
  {
    GetItemsIsOneFilter(items, f);
    FilterMembers(items, MatchesFilters(f));
    if f == ItemFilters("", "", "", "") {
      FilterAll(items, MatchesFilters(f));
    }
  }

  /** `getItemById(id)`: the first stored item with that id. */
  function GetItemById(items: seq<MockItem>, id: string): (r: Option<MockItem>)
    ensures r.Some? <==> exists i :: 0 <= i < |items| && items[i].id == id
    ensures r.Some? ==> r.value in items && r.value.id == id
    ensures r.Some? ==> exists i :: 0 <= i < |items| && r.value == items[i] && forall j :: 0 <= j < i ==> items[j].id != id
  {
    var i := FindIndex(items, HasItemId(id));
    if i < 0 then None
    else
      assert HasItemId(id)(items[i]);
      Some(items[i])
  }

  function HasItemId(id: string): MockItem -> bool
  {
    (i: MockItem) => i.id == id
  }

  function HasClaimId(id: string): Claim -> bool
  {
    (c: Claim) => c.id == id
  }

  // ---------------------------------------------------------------- views

  predicate ReportedBy(userId: string, i: MockItem)
  {
    i.reportedBy == userId
  }

  /** `getMyReports(userId)`: the items the user reported, in store order. */
  function GetMyReports(items: seq<MockItem>, userId: string): (r: seq<MockItem>)
    ensures forall x :: x in r <==> x in items && x.reportedBy == userId
    ensures |r| <= |items|
  {
    var p := (i: MockItem) => ReportedBy(userId, i);
    FilterMembers(items, p);
    Filter(items, p)
  }

  /** `getMyClaims(userId)`: the user's claims, in store order. */
  function GetMyClaims(claims: seq<Claim>, userId: string): (r: seq<Claim>)
    ensures forall c :: c in r <==> c in claims && c.claimantId == userId
    ensures |r| <= |claims|
  {
    var p := (c: Claim) => c.claimantId == userId;
    FilterMembers(claims, p);
    Filter(claims, p)
  }

  /** `getMyReports` keeps the store's order and repeats: the reports of a concatenation are the concatenation of the reports. */
  lemma GetMyReportsOrder(a: seq<MockItem>, b: seq<MockItem>, userId: string)
    ensures GetMyReports(a + b, userId) == GetMyReports(a, userId) + GetMyReports(b, userId)
  {
    FilterConcat(a, b, (i: MockItem) => ReportedBy(userId, i));
  }

  /** `getMyClaims` keeps the store's order and repeats, in the same way. */
  lemma GetMyClaimsOrder(a: seq<Claim>, b: seq<Claim>, userId: string)
    ensures GetMyClaims(a + b, userId) == GetMyClaims(a, userId) + GetMyClaims(b, userId)
  {
    FilterConcat(a, b, (c: Claim) => c.claimantId == userId);
  }

  predicate IsPending(c: Claim)
  {
    c.status == "pending"
  }

  /** `getFacultyQueue()`: the pending claims, in store order. */
  function GetFacultyQueue(claims: seq<Claim>): (r: seq<Claim>)
    ensures forall c :: c in r <==> c in claims && c.status == "pending"
    ensures |r| <= |claims|
  {
    FilterMembers(claims, IsPending);
    Filter(claims, IsPending)
  }

  /** The faculty queue keeps the store's order: it is the subsequence of pending claims. */
  lemma FacultyQueueOrder(a: seq<Claim>, b: seq<Claim>)
    ensures GetFacultyQueue(a + b) == GetFacultyQueue(a) + GetFacultyQueue(b)
  {
    FilterConcat(a, b, IsPending);
  }

  // ---------------------------------------------------------------- writes

  /** `{ ...payload, id, status: 'open', date }`: the payload's own `id`, `status` and `date` are replaced. */
  function NewMockItem(payload: MockItem, id: string, today: string): (r: MockItem)
    ensures r.id == id && r.status == "open" && r.date == today
    ensures r.(id := payload.id, status := payload.status, date := payload.date) == payload
  {
    payload.(id := id, status := "open", date := today)
  }

  /**
   * `createItem(payload)` on `today`; `randomId` stands for the random
   * base-36 id. The new item goes in front of the stored items, which
   * follow unchanged; the claims are not touched.
   */
  method CreateItem(db: MockStorage, payload: MockItem, randomId: string, today: string) returns (r: MockItem)
    requires db.Valid()
    modifies db
    ensures db.Valid()
    ensures r == NewMockItem(payload, randomId, today)
    ensures db.GetItems() == [r] + old(db.GetItems())
    ensures db.GetClaims() == old(db.GetClaims())
  {
    var items := db.GetItems();
    r := NewMockItem(payload, randomId, today);
    db.SetItems([r] + items);
  }

  /** What `createClaim` reads from its payload. */
  datatype ClaimPayload = ClaimPayload(claimantId: string, message: string, trustScore: Option<int>)

  /** `'CLM-' + n`: the number reads back from the digits after the prefix. */
  function ClaimId(n: nat): (id: string)
    ensures |id| > 4 && id[..4] == "CLM-" && ParseDecimal(id[4..]) == n
  {
    DecimalRoundTrip(n);
    var id := "CLM-" + DecimalString(n);
    assert id[4..] == DecimalString(n);
    id
  }

  /**
   * The claim `createClaim` stores: pending, for `itemId`, with the
   * claimant's message as its one message when there is one.
   */
  function NewClaim(itemId: string, payload: ClaimPayload, n: nat, today: string, time: string): (c: Claim)
    ensures c.itemId == itemId && c.status == "pending" && c.date == today && c.claimantId == payload.claimantId
    ensures c.id == ClaimId(n)
    ensures c.trustScore == payload.trustScore
    ensures payload.message == "" <==> c.messages == []
    ensures payload.message != "" ==> c.messages == [Message(payload.claimantId, payload.message, time)]
  {
    var messages := if payload.message != "" then [Message(payload.claimantId, payload.message, time)] else [];
    Claim(ClaimId(n), itemId, payload.claimantId, "pending", today, payload.trustScore, messages)
  }

  /** Claim ids are `CLM-` and four digits. */
  lemma ClaimIdShape(n: nat)
    requires 1000 <= n <= 9999
    ensures |ClaimId(n)| == 8
  {
    FourDigits(n);
  }

  /**
   * `createClaim(itemId, payload)` on `today` at `time`: draws the number
   * of the claim id from 1000..9999 and puts the new claim in front of the
   * stored claims. The item need not exist or be open.
   */
  method CreateClaim(db: MockStorage, itemId: string, payload: ClaimPayload, today: string, time: string)
    returns (r: Claim, ghost n: nat)
    requires db.Valid()
    modifies db
    ensures db.Valid()
    ensures 1000 <= n <= 9999 && r == NewClaim(itemId, payload, n, today, time)
    ensures db.GetClaims() == [r] + old(db.GetClaims())
    ensures db.GetItems() == old(db.GetItems())
  {
    var claims := db.GetClaims();
    var drawn: nat :| 1000 <= drawn <= 9999;
    n := drawn;
    r := NewClaim(itemId, payload, drawn, today, time);
    db.SetClaims([r] + claims);
  }

  /** The claim after review: the new status, and the note appended as a faculty message when there is one. */
  function Reviewed(c: Claim, status: string, note: string, time: string): (r: Claim)
    ensures r.status == status
    ensures r == c.(status := status, messages := r.messages)
    ensures note == "" ==> r.messages == c.messages
    ensures note != "" ==> r.messages == c.messages + [Message("faculty", note, time)]
  {
    var messages := if note != "" then c.messages + [Message("faculty", note, time)] else c.messages;
    c.(status := status, messages := messages)
  }

  /**
   * `verifyClaim(claimId, { status, note })` at `time`: the outcome and the
   * new storage. An unknown claim writes nothing; otherwise the claims are
   * written with the reviewed claim, and the items are written only when
   * the status is `approved` and the claim's item exists.
   */
  function VerifyClaimStep(storage: map<string, Stored>, claimId: string, status: string, note: string, time: string)
    : (out: (Result<Claim, string>, map<string, Stored>))
    requires WellTyped(storage)
    ensures WellTyped(out.1)
  {
    var claims := ClaimsIn(storage);
    var items := ItemsIn(storage);
    var ci := FindIndex(claims, HasClaimId(claimId));
    if ci < 0 then (Err("Claim not found"), storage)
    else
      var c := Reviewed(claims[ci], status, note, time);
      var written := WithClaims(storage, claims[ci := c]);
      if status == "approved" then
        var ii := FindIndex(items, HasItemId(c.itemId));
        if ii < 0 then (Ok(c), written)
        else (Ok(c), WithItems(written, items[ii := items[ii].(status := "claimed")]))
      else (Ok(c), written)
  }

  /** `verifyClaim`, step by step as the source does it. */
  method VerifyClaim(db: MockStorage, claimId: string, status: string, note: string, time: string) returns (r: Result<Claim, string>)
    requires db.Valid()
    modifies db
    ensures db.Valid()
    ensures (r, db.storage) == VerifyClaimStep(old(db.storage), claimId, status, note, time)
  {
    var claims := db.GetClaims();
    var items := db.GetItems();
    var claimIndex := FindIndex(claims, HasClaimId(claimId));
    if claimIndex == -1 {
      return Err("Claim not found");
    }
    ghost var original := claims;
    claims := claims[claimIndex := claims[claimIndex].(status := status)];
    if note != "" {
      var c := claims[claimIndex];
      claims := claims[claimIndex := c.(messages := c.messages + [Message("faculty", note, time)])];
    }
    assert claims == original[claimIndex := Reviewed(original[claimIndex], status, note, time)];
    db.SetClaims(claims);
    if status == "approved" {
      var itemIndex := FindIndex(items, HasItemId(claims[claimIndex].itemId));
      if itemIndex != -1 {
        items := items[itemIndex := items[itemIndex].(status := "claimed")];
        db.SetItems(items);
      }
    }
    r := Ok(claims[claimIndex]);
  }

  /** An unknown claim id is refused and nothing is written. */
  lemma VerifyUnknownClaim(storage: map<string, Stored>, claimId: string, status: string, note: string, time: string)
    requires WellTyped(storage)
    requires forall j :: 0 <= j < |ClaimsIn(storage)| ==> ClaimsIn(storage)[j].id != claimId
    ensures VerifyClaimStep(storage, claimId, status, note, time) == (Err("Claim not found"), storage)
  {
  }

  /**
   * Reviewing a known claim: the first claim with that id gets the new
   * status whatever its old one, plus the note as a faculty message when
   * the note is not empty; every other claim is unchanged.
   */
  lemma VerifyClaimClaims(storage: map<string, Stored>, claimId: string, status: string, note: string, time: string)
    requires WellTyped(storage)
    requires exists j :: 0 <= j < |ClaimsIn(storage)| && ClaimsIn(storage)[j].id == claimId
    ensures var (r, after) := VerifyClaimStep(storage, claimId, status, note, time);
      var before := ClaimsIn(storage);
      var ci := FindIndex(before, HasClaimId(claimId));
      && 0 <= ci && before[ci].id == claimId
      && r == Ok(ClaimsIn(after)[ci])
      && ClaimsIn(after) == before[ci := Reviewed(before[ci], status, note, time)]
      && |ClaimsIn(after)| == |before|
      && (forall j :: 0 <= j < |before| && j != ci ==> ClaimsIn(after)[j] == before[j])
  {
    var before := ClaimsIn(storage);
    var j :| 0 <= j < |before| && before[j].id == claimId;
    assert HasClaimId(claimId)(before[j]);
    var ci := FindIndex(before, HasClaimId(claimId));
    assert HasClaimId(claimId)(before[ci]);
    var c := Reviewed(before[ci], status, note, time);
    var written := WithClaims(storage, before[ci := c]);
    WriteThenRead(storage, [], before[ci := c]);
    WriteThenRead(written, ItemsIn(storage)[..], []);
    var items := ItemsIn(storage);
    if status == "approved" {
      var ii := FindIndex(items, HasItemId(c.itemId));
      if ii >= 0 {
        WriteThenRead(written, items[ii := items[ii].(status := "claimed")], []);
      }
    }
  }

  /**
   * Items change only on approval: then the first item with the claim's
   * item id, if any, becomes `claimed`; every other item, and every item
   * after a rejection or an unknown claim, stays as it was.
   */
  lemma VerifyClaimItems(storage: map<string, Stored>, claimId: string, status: string, note: string, time: string)
    requires WellTyped(storage)
    ensures var (r, after) := VerifyClaimStep(storage, claimId, status, note, time);
      var before := ItemsIn(storage);
      && (r.Err? || status != "approved" ==> ItemsIn(after) == before)
      && (r.Ok? && status == "approved" ==>
            var ii := FindIndex(before, HasItemId(r.value.itemId));
            && (ii < 0 ==> ItemsIn(after) == before)
            && (ii >= 0 ==> ItemsIn(after) == before[ii := before[ii].(status := "claimed")]))
  {
  }

  // ---------------------------------------------------------------- latest activity

  /** A landing page card. */
  datatype Activity = Activity(
    id: string,
    emoji: string,
    bgColor: string,
    title: string,
    status: string,
    statusColor: string,
    location: string,
    timestamp: string)

  /** `YYYY-MM-DD` as the number `YYYYMMDD`, which orders calendar dates as time does; `0` for any other text. */
  function DateKey(date: string): int
  {
    if |date| == 10 && date[4] == '-' && date[7] == '-'
       && (forall k :: 0 <= k < 10 && k != 4 && k != 7 ==> IsDigit(date[k]))
    then ParseDecimal(date[..4]) * 10000 + ParseDecimal(date[5..7]) * 100 + ParseDecimal(date[8..])
    else 0
  }

  /** The category tables are keyed by lower-case name. */
  function EmojiMap(): map<string, string>
  {
    map[
      "electronics" := "\U{00F0}\U{0178}\U{017D}\U{00A7}",
      "accessories" := "\U{00F0}\U{0178}\U{017D}\U{2019}",
      "keys" := "\U{00F0}\U{0178}\U{201D}\U{2018}",
      "wallet" := "\U{00F0}\U{0178}\U{2018}\U{203A}",
      "phone" := "\U{00F0}\U{0178}\U{201C}\U{00B1}",
      "laptop" := "\U{00F0}\U{0178}\U{2019}\U{00BB}",
      "books" := "\U{00F0}\U{0178}\U{201C}\U{0161}",
      "clothing" := "\U{00F0}\U{0178}\U{2018}\U{2022}",
      "jewelry" := "\U{00F0}\U{0178}\U{2019}",
      "cards" := "\U{00F0}\U{0178}\U{2019}\U{00B3}",
      "id-cards" := "\U{00F0}\U{0178}\U{00AA}\U{00AA}",
      "bags" := "\U{00F0}\U{0178}\U{017D}\U{2019}",
      "stationery" := "\U{00E2}\U{0153}\U{00EF}\U{00B8}",
      "other" := "\U{00F0}\U{0178}\U{201C}\U{00A6}"
    ]
  }

  const FallbackEmoji := "\U{00F0}\U{0178}\U{201C}\U{00A6}"

  function ColorMap(): map<string, string>
  {
    map[
      "electronics" := "bg-blue-500/30",
      "accessories" := "bg-purple-500/30",
      "keys" := "bg-yellow-500/30",
      "wallet" := "bg-pink-500/30",
      "phone" := "bg-cyan-500/30",
      "laptop" := "bg-indigo-500/30",
      "books" := "bg-orange-500/30",
      "clothing" := "bg-red-500/30",
      "jewelry" := "bg-emerald-500/30",
      "cards" := "bg-teal-500/30",
      "id-cards" := "bg-slate-500/30",
      "bags" := "bg-purple-500/30",
      "stationery" := "bg-amber-500/30",
      "other" := "bg-gray-500/30"
    ]
  }

  const FallbackColor := "bg-gray-500/30"

  /** `getEmojiForCategory`: the table entry for the lower-cased category, else the package emoji. */
  function EmojiFor(category: string): (r: string)
    ensures ToLower(category) in EmojiMap() ==> r == EmojiMap()[ToLower(category)]
    ensures ToLower(category) !in EmojiMap() ==> r == FallbackEmoji
  {
    var k := ToLower(category);
    if k in EmojiMap() && EmojiMap()[k] != "" then EmojiMap()[k] else FallbackEmoji
  }

  /** `getColorForCategory`: the table entry for the lower-cased category, else grey. */
  function ColorFor(category: string): (r: string)
    ensures ToLower(category) in ColorMap() ==> r == ColorMap()[ToLower(category)]
    ensures ToLower(category) !in ColorMap() ==> r == FallbackColor
  {
    var k := ToLower(category);
    if k in ColorMap() && ColorMap()[k] != "" then ColorMap()[k] else FallbackColor
  }

  /** Both tables know the same fourteen categories, and the lookups ignore case. */
  lemma CategoryTables(category: string)
    ensures EmojiMap().Keys == ColorMap().Keys
    ensures EmojiFor(ToLower(category)) == EmojiFor(category) && ColorFor(ToLower(category)) == ColorFor(category)
    ensures "other" in EmojiMap() && EmojiMap()["other"] == FallbackEmoji && ColorMap()["other"] == FallbackColor
  {
    ToLowerIdempotent(category);
  }

  /** The seed's `Wallets` is not the table's `wallet`, so it gets the fallback emoji and colour. */
  lemma SeedWalletFallsBack()
    ensures EmojiFor(InitialItems()[1].category) == FallbackEmoji && ColorFor(InitialItems()[1].category) == FallbackColor
  {
    assert ToLower("Wallets") == "wallets";
  }

  /** The card of one item. */
  function ActivityOf(item: MockItem): (a: Activity)
    ensures a.id == item.id && a.title == item.title && a.location == item.location && a.timestamp == item.date
    ensures a.status == (if item.itemType == "lost" then "Lost" else "Found")
    ensures a.statusColor == (if item.itemType == "lost" then "text-red-400" else "text-green-400")
    ensures a.emoji == EmojiFor(item.category) && a.bgColor == ColorFor(item.category)
  {
    var lost := item.itemType == "lost";
    Activity(item.id, EmojiFor(item.category), ColorFor(item.category), item.title,
             if lost then "Lost" else "Found", if lost then "text-red-400" else "text-green-400",
             item.location, item.date)
  }

  function DateKeyOf(item: MockItem): int
  {
    DateKey(item.date)
  }

  /** The items of the latest activity: the stored items newest first, cut to `limit`. */
  function RecentItems(items: seq<MockItem>, limit: int): (r: seq<MockItem>)
    ensures |r| <= |items|
    ensures 0 <= limit ==> |r| == if limit < |items| then limit else |items|
  {
    Slice0(SortDesc(items, DateKeyOf), limit)
  }

  /** `getLatestActivity(limit)`: one card per recent item, in that order. */
  function GetLatestActivity(items: seq<MockItem>, limit: int): (r: seq<Activity>)
    ensures |r| == |RecentItems(items, limit)|
    ensures forall k :: 0 <= k < |r| ==> r[k] == ActivityOf(RecentItems(items, limit)[k])
  {
    var recent := RecentItems(items, limit);
    seq(|recent|, k requires 0 <= k < |recent| => ActivityOf(recent[k]))
  }

  /**
   * The cards show the newest items: at most `limit` of them, newest
   * first, each taken from the store, and no item left out is newer than
   * any item shown.
   */
  lemma LatestActivityNewest(items: seq<MockItem>, limit: int)
    requires limit >= 0
    ensures var recent := RecentItems(items, limit);
      && |recent| == (if limit < |items| then limit else |items|)
      && SortedDesc(recent, DateKeyOf)
      && (forall x :: x in recent ==> x in items)
      && (forall k, m :: 0 <= k < |recent| <= m < |items| ==> DateKeyOf(recent[k]) >= DateKeyOf(SortDesc(items, DateKeyOf)[m]))
  {
    var sorted := SortDesc(items, DateKeyOf);
    SortDescSorted(items, DateKeyOf);
    SortDescPermutes(items, DateKeyOf);
    var recent := RecentItems(items, limit);
    assert recent == sorted[..|recent|];
    SortedPrefix(sorted, |recent|, DateKeyOf);
    forall x | x in recent
      ensures x in items
    {
      assert x in multiset(sorted);
    }
  }
}
