/** `initializeDemoData` (utils/demoData.ts): seeds the demo account and three demo items into
    browser storage, each only when its slot is empty. The dates (two, one and three days
    before now), the creation time and the charger's image asset are opaque inputs. */
module DemoData {
  import opened Common
  import opened Json
  import opened Records
  import opened Storage
  import AuthPage

  const DemoEmail := "demo@lostfound.com"
  const DemoPassword := "demo123"

  /** The demo account, created at `now`. */
  function DemoAccount(now: string): Account {
    Account("Demo User", DemoEmail, "9876543210", DemoPassword, now)
  }

  /** The `lostfound_users` map after seeding: an empty map gets the one demo account,
      keyed by its email; a map with any account is left alone. */
  function SeedUsers(users: map<string, Account>, now: string): (r: map<string, Account>)
    ensures users == map[] ==>
      r.Keys == {DemoEmail} && |r| == 1 && r[DemoEmail].password == DemoPassword
      && r[DemoEmail].email == DemoEmail
    ensures users != map[] ==> r == users
    ensures r != map[]
  {
    if |users| == 0 then map[DemoEmail := DemoAccount(now)] else users
  }

  /** One demo item as the object literal the source writes. */
  function DemoItem(id: string, itemType: string, title: string, description: string,
                    category: string, location: string, date: string, contactName: string,
                    contactPhone: string, contactEmail: string, imageUrl: Value): (r: Record)
    ensures HasString(r, "id", id) && HasString(r, "type", itemType)
    ensures HasString(r, "status", "active") && HasString(r, "reportedBy", DemoEmail)
    ensures "imageUrl" in r && r["imageUrl"] == imageUrl
  {
    ItemFields(title, description, category, location, date, contactName, contactPhone, contactEmail)
    + map["id" := Str(id), "type" := Str(itemType), "imageUrl" := imageUrl,
          "status" := Str("active"), "reportedBy" := Str(DemoEmail)]
  }

  /** The descriptive fields of a demo item. */
  function ItemFields(title: string, description: string, category: string, location: string,
                      date: string, contactName: string, contactPhone: string,
                      contactEmail: string): Record {
    map[
      "title" := Str(title), "description" := Str(description), "category" := Str(category),
      "location" := Str(location), "date" := Str(date), "contactName" := Str(contactName),
      "contactPhone" := Str(contactPhone), "contactEmail" := Str(contactEmail)]
  }

  /** The dates of the three demo items. */
  datatype DemoDates = DemoDates(twoDaysAgo: string, oneDayAgo: string, threeDaysAgo: string)

  /** The three demo items: a lost charger and two found items, all active and reported by
      the demo account; only the charger has an image. */
  function DemoItems(chargerImage: string, dates: DemoDates): (items: seq<Record>)
    ensures |items| == 3
    ensures HasString(items[0], "type", "lost")
    ensures HasString(items[1], "type", "found") && HasString(items[2], "type", "found")
    ensures HasString(items[0], "id", "demo-1") && HasString(items[1], "id", "demo-2")
    ensures HasString(items[2], "id", "demo-3")
    ensures HasString(items[0], "status", "active") && HasString(items[1], "status", "active")
    ensures HasString(items[2], "status", "active")
    ensures HasString(items[0], "reportedBy", DemoEmail) && HasString(items[1], "reportedBy", DemoEmail)
    ensures HasString(items[2], "reportedBy", DemoEmail)
    ensures "imageUrl" in items[0] && items[0]["imageUrl"] == Str(chargerImage)
    ensures "imageUrl" in items[1] && items[1]["imageUrl"] == Null
    ensures "imageUrl" in items[2] && items[2]["imageUrl"] == Null
  {
    var charger, wallet, keys := Charger(chargerImage, dates.twoDaysAgo), Wallet(dates.oneDayAgo),
                                 Keys(dates.threeDaysAgo);
    [charger, wallet, keys]
  }

  const ChargerDescription := "Lost my laptop charger adapter for Lenovo Yoga laptop. Black rectangular adapter with yellow tip connector. Has model number printed on the side."
  const WalletDescription := "Found a black leather wallet near the cafeteria. Contains some cards and cash."
  const KeysDescription := "Found a set of 4 keys attached to a blue keychain with \"Best Mom\" written on it. Found near the parking lot."

  function Charger(image: string, date: string): (r: Record)
    ensures HasString(r, "id", "demo-1") && HasString(r, "type", "lost")
    ensures HasString(r, "status", "active") && HasString(r, "reportedBy", DemoEmail)
    ensures "imageUrl" in r && r["imageUrl"] == Str(image)
  {
    DemoItem("demo-1", "lost", "Yoga Laptop Charger",
      ChargerDescription,
      "Electronics", "Central Library, 2nd Floor", date,
      "Sarah Johnson", "555-0123", "sarah.j@example.com", Str(image))
  }

  function Wallet(date: string): (r: Record)
    ensures HasString(r, "id", "demo-2") && HasString(r, "type", "found")
    ensures HasString(r, "status", "active") && HasString(r, "reportedBy", DemoEmail)
    ensures "imageUrl" in r && r["imageUrl"] == Null
  {
    DemoItem("demo-2", "found", "Black Wallet",
      WalletDescription,
      "Wallets", "Main Cafeteria", date,
      "John Doe", "555-0456", "john.d@example.com", Null)
  }

  function Keys(date: string): (r: Record)
    ensures HasString(r, "id", "demo-3") && HasString(r, "type", "found")
    ensures HasString(r, "status", "active") && HasString(r, "reportedBy", DemoEmail)
    ensures "imageUrl" in r && r["imageUrl"] == Null
  {
    DemoItem("demo-3", "found", "Set of Keys with Blue Keychain",
      KeysDescription,
      "Keys", "Parking Lot B", date,
      "Mike Wilson", "555-0789", "mike.w@example.com", Null)
  }

  /** The `lostfound_items` list after seeding: an empty list becomes the demo items; any
      other list is left alone. */
  function SeedItems(existing: seq<Record>, chargerImage: string, dates: DemoDates): (r: seq<Record>)
    ensures existing == [] ==> r == DemoItems(chargerImage, dates)
    ensures existing != [] ==> r == existing
    ensures r != []
  {
    if |existing| == 0 then DemoItems(chargerImage, dates) else existing
  }

  /** Seeding a second time, at any later time, changes nothing. */
  lemma SeedIdempotent(users: map<string, Account>, items: seq<Record>, now: string, later: string,
                       image: string, dates: DemoDates, laterDates: DemoDates)
    ensures SeedUsers(SeedUsers(users, now), later) == SeedUsers(users, now)
    ensures SeedItems(SeedItems(items, image, dates), image, laterDates) == SeedItems(items, image, dates)
  {
  }

  /** On an empty profile the seeded account is one a login accepts with the advertised
      credentials. */
  lemma DemoLoginWorks(now: string)
    ensures AuthPage.LoginOutcome(DemoEmail, DemoPassword, SeedUsers(map[], now))
            == Ok(User("Demo User", DemoEmail, "9876543210"))
  {
    var s := DemoEmail;
    assert s[..4] == "demo" && s[5..14] == "lostfound" && s[15..] == "com";
    assert AuthPage.MatchesAt(s, 4, 14);
  }

  /** `initializeDemoData()` on the browser's storage. */
  method InitializeDemoData(ls: LocalStorage, now: string, chargerImage: string, dates: DemoDates)
    modifies ls`users, ls`demoItems
    ensures ls.users == SeedUsers(old(ls.users), now)
    ensures ls.demoItems == SeedItems(old(ls.demoItems), chargerImage, dates)
  {
    if |ls.users| == 0 {
      ls.users := ls.users[DemoEmail := DemoAccount(now)];
    }
    if |ls.demoItems| == 0 {
      ls.demoItems := DemoItems(chargerImage, dates);
    }
  }
}
