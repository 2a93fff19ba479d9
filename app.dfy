/** The main page (App.tsx): the item list with its type, category and search filters, the
    recent-items strip, and the handlers that report items, submit claims and log in and out,
    the first three gated on a logged-in user. */
module App {
  import opened Common
  import opened Text
  import opened Records
  import opened Storage
  import Session
  import DemoData
  import opened ItemReportForm
  import opened ClaimForm

  /** `type View` */
  datatype View = Homepage | BrowseItems | ClaimItemView | AuthLogin | TheftTrackerView

  const AllCategories := "All"

  // ---------------------------------------------------------------- filtering

  function OfType(t: ItemType): Item -> bool {
    (item: Item) => item.itemType == t
  }

  /** The search half of the second filter: the query, lowercased, occurs in the lowercased
      title, description or location. */
  predicate MatchesItemSearch(item: Item, query: string) {
    || Contains(LowerStr(item.title), LowerStr(query))
    || Contains(LowerStr(item.description), LowerStr(query))
    || Contains(LowerStr(item.location), LowerStr(query))
  }

  /** The category half: "All" lets everything through, any other value must be equal. */
  predicate MatchesCategory(item: Item, category: string) {
    category == AllCategories || item.category == category
  }

  function Passes(query: string, category: string): Item -> bool {
    (item: Item) => MatchesItemSearch(item, query) && MatchesCategory(item, category)
  }

  function Selected(t: ItemType, query: string, category: string): Item -> bool {
    (item: Item) => item.itemType == t && MatchesItemSearch(item, query) && MatchesCategory(item, category)
  }

  /** `filterItems(t)`: the items of type `t` that pass the search and the category, in list
      order. With an empty query and category "All" that is every item of type `t`. */
  function FilterItems(items: seq<Item>, t: ItemType, query: string, category: string)
    : (out: seq<Item>)
    ensures IsSubsequence(out, items)
    ensures forall x :: x in out <==>
      x in items && x.itemType == t && MatchesItemSearch(x, query) && MatchesCategory(x, category)
    ensures forall x :: (multiset(out)[x] ==
      if x.itemType == t && MatchesItemSearch(x, query) && MatchesCategory(x, category)
      then multiset(items)[x] else 0)
    ensures query == "" && category == AllCategories ==> out == Filter(OfType(t), items)
  {
    FilterItemsFacts(items, t, query, category);
    Filter(Passes(query, category), Filter(OfType(t), items))
  }

  lemma FilterItemsFacts(items: seq<Item>, t: ItemType, query: string, category: string)
    ensures var out := Filter(Passes(query, category), Filter(OfType(t), items));
      && IsSubsequence(out, items)
      && (forall x :: x in out <==>
            x in items && x.itemType == t && MatchesItemSearch(x, query) && MatchesCategory(x, category))
      && (forall x :: (multiset(out)[x] ==
            if x.itemType == t && MatchesItemSearch(x, query) && MatchesCategory(x, category)
            then multiset(items)[x] else 0))
      && (query == "" && category == AllCategories ==> out == Filter(OfType(t), items))
  {
    FilterFilter(OfType(t), Passes(query, category), Selected(t, query, category), items);
    SelectedFacts(items, t, query, category);
    if query == "" && category == AllCategories {
      EmptySearchKeepsAll(Filter(OfType(t), items));
    }
  }

  /** An empty query with category "All" lets every item through. */
  lemma EmptySearchKeepsAll(items: seq<Item>)
    ensures Filter(Passes("", AllCategories), items) == items
  {
    forall i | 0 <= i < |items| ensures Passes("", AllCategories)(items[i]) {
      ContainsEmpty(LowerStr(items[i].title));
    }
    FilterKeepsAll(Passes("", AllCategories), items);
  }

  /** The facts of `FilterItemsFacts` for the one fused filter. */
  lemma SelectedFacts(items: seq<Item>, t: ItemType, query: string, category: string)
    ensures var out := Filter(Selected(t, query, category), items);
      && IsSubsequence(out, items)
      && (forall x :: x in out <==>
            x in items && x.itemType == t && MatchesItemSearch(x, query) && MatchesCategory(x, category))
      && (forall x :: (multiset(out)[x] ==
            if x.itemType == t && MatchesItemSearch(x, query) && MatchesCategory(x, category)
            then multiset(items)[x] else 0))
  {
    var sel := Selected(t, query, category);
    FilterIsSubsequence(sel, items);
    FilterMultiset(sel, items);
    forall x ensures x in Filter(sel, items) <==>
      x in items && x.itemType == t && MatchesItemSearch(x, query) && MatchesCategory(x, category)
    {
      FilterMember(sel, items, x);
    }
  }

  /** No item is both in the lost list and in the found list. */
  lemma LostFoundDisjoint(items: seq<Item>, query: string, category: string, x: Item)
    ensures !(x in FilterItems(items, Lost, query, category) && x in FilterItems(items, Found, query, category))
  {
  }

  /** `items.slice(0, 6)`: the homepage's recent items, the first six at most. */
  function RecentItems(items: seq<Item>): (r: seq<Item>)
    ensures |r| <= 6 && |r| == Min(6, |items|)
    ensures r == items[..|r|]
  {
    Take(items, 6)
  }

  // ---------------------------------------------------------------- requests

  /** `currentUser?.email || "anonymous"`: a missing user and an empty email both report
      anonymously. */
  function ReportedBy(user: Option<User>): (who: string)
    ensures user.Some? && user.value.email != "" ==> who == user.value.email
    ensures user.None? || user.value.email == "" ==> who == "anonymous"
    ensures who != ""
  {
    if user.Some? && user.value.email != "" then user.value.email else "anonymous"
  }

  /** The body of `api.createItem`: `{ ...newItem, status: "active", reportedBy }`. */
  datatype ItemRequest = ItemRequest(draft: ItemDraft, status: string, reportedBy: string)

  /** The body of `api.createClaim`: `{ ...claim, claimedBy }`. */
  datatype ClaimRequest = ClaimRequest(claim: ClaimData, claimedBy: string)

  /** `response.item`: the server stores the body under `item:<suffix>` as
      `{ id, ...body, createdAt }`; the body has no `id`, so the item's id is the key. */
  function CreatedItem(req: ItemRequest, suffix: string, createdAt: string): (item: Item)
    ensures item.id == "item:" + suffix && item.createdAt == createdAt
    ensures item.itemType == req.draft.itemType && item.status == req.status
    ensures item.reportedBy == req.reportedBy
    ensures item.title == req.draft.title && item.description == req.draft.description
    ensures item.category == req.draft.category && item.location == req.draft.location
    ensures item.date == req.draft.date && item.contact == req.draft.contact
    ensures item.imageUrl == req.draft.imageUrl
  {
    var d := req.draft;
    Item("item:" + suffix, d.itemType, d.title, d.description, d.category, d.location, d.date,
         d.contact, d.imageUrl, req.status, req.reportedBy, createdAt)
  }

  /** A reported item appears in its own type's unfiltered list, first. */
  lemma ReportedItemListedFirst(items: seq<Item>, req: ItemRequest, suffix: string, createdAt: string)
    ensures var item := CreatedItem(req, suffix, createdAt);
      var shown := FilterItems([item] + items, req.draft.itemType, "", AllCategories);
      shown != [] && shown[0] == item
  {
    var item := CreatedItem(req, suffix, createdAt);
    assert ([item] + items)[1..] == items;
    assert Filter(OfType(req.draft.itemType), [item] + items)
           == [item] + Filter(OfType(req.draft.itemType), items);
  }

  // ---------------------------------------------------------------- the page

  class Page {
    const storage: LocalStorage
    var items: seq<Item>
    var searchQuery: string
    var categoryFilter: string
    var selectedItem: Option<Item>
    var detailDialogOpen: bool
    var reportDialogOpen: bool
    var claimDialogOpen: bool
    var reportType: ItemType
    var currentView: View
    var currentUser: Option<User>

    constructor (storage: LocalStorage)
      ensures this.storage == storage
      ensures items == [] && searchQuery == "" && categoryFilter == AllCategories
      ensures selectedItem == None && !detailDialogOpen && !reportDialogOpen && !claimDialogOpen
      ensures reportType == Lost && currentView == Homepage && currentUser == None
    {
      this.storage := storage;
      items, searchQuery, categoryFilter := [], "", AllCategories;
      selectedItem, detailDialogOpen, reportDialogOpen, claimDialogOpen := None, false, false, false;
      reportType, currentView, currentUser := Lost, Homepage, None;
    }

    /** `lostItems` */
    function LostItems(): seq<Item>
      reads this
    {
      FilterItems(items, Lost, searchQuery, categoryFilter)
    }

    /** `foundItems` */
    function FoundItems(): seq<Item>
      reads this
    {
      FilterItems(items, Found, searchQuery, categoryFilter)
    }

    /** The mount effect: seed the demo data, then take the stored session as the user. */
    method Mount(now: string, chargerImage: string, dates: DemoData.DemoDates)
      modifies storage`users, storage`demoItems, this`currentUser
      ensures storage.users == DemoData.SeedUsers(old(storage.users), now)
      ensures storage.demoItems == DemoData.SeedItems(old(storage.demoItems), chargerImage, dates)
      ensures currentUser == Session.GetCurrentUser(storage)
    {
      DemoData.InitializeDemoData(storage, now, chargerImage, dates);
      currentUser := Session.GetCurrentUser(storage);
    }

    /** `handleReportItem(t)`: without a user, go to the login view and open nothing;
        otherwise open the report dialog for `t`. */
    method HandleReportItem(t: ItemType)
      modifies this`currentView, this`reportType, this`reportDialogOpen
      ensures currentUser.None? ==>
        currentView == AuthLogin && reportDialogOpen == old(reportDialogOpen)
        && reportType == old(reportType)
      ensures currentUser.Some? ==>
        currentView == old(currentView) && reportType == t && reportDialogOpen
    {
      if currentUser.None? {
        currentView := AuthLogin;
        return;
      }
      reportType := t;
      reportDialogOpen := true;
    }

    /** `handleLogin(user)`, called by the login page once it has stored the session. */
    method HandleLogin(user: User)
      modifies this`currentUser, this`currentView
      ensures currentUser == Some(user) && currentView == Homepage
    {
      currentUser := Some(user);
      currentView := Homepage;
    }

    /** `handleLogout`: clears the stored session and the user, back to the homepage. */
    method HandleLogout()
      modifies storage`session, this`currentUser, this`currentView
      ensures !Session.IsLoggedIn(storage)
      ensures currentUser == None && currentView == Homepage
    {
      Session.Logout(storage);
      currentUser := None;
      currentView := Homepage;
    }

    /** `handleSubmitReport(newItem)`: sends the draft with status "active" and the reporter;
        on success the created item goes in front of the list and the dialog closes; on
        failure nothing changes. */
    method HandleSubmitReport(draft: ItemDraft, reachable: bool, suffix: string, now: string)
      returns (sent: ItemRequest)
      modifies this`items, this`reportDialogOpen
      ensures sent == ItemRequest(draft, "active", ReportedBy(currentUser))
      ensures reachable ==>
        items == [CreatedItem(sent, suffix, now)] + old(items) && !reportDialogOpen
      ensures !reachable ==> items == old(items) && reportDialogOpen == old(reportDialogOpen)
    {
      sent := ItemRequest(draft, "active", ReportedBy(currentUser));
      if reachable {
        items := [CreatedItem(sent, suffix, now)] + items;
        reportDialogOpen := false;
      }
    }

    /** `handleSubmitClaim(claim)`: without a user, go to the login view and send nothing;
        otherwise send the claim with `claimedBy` and, on success, close the dialog. */
    method HandleSubmitClaim(claim: ClaimData, reachable: bool) returns (sent: Option<ClaimRequest>)
      modifies this`currentView, this`claimDialogOpen
      ensures currentUser.None? ==>
        sent == None && currentView == AuthLogin && claimDialogOpen == old(claimDialogOpen)
      ensures currentUser.Some? ==>
        && sent == Some(ClaimRequest(claim, currentUser.value.email))
        && currentView == old(currentView)
        && claimDialogOpen == (old(claimDialogOpen) && !reachable)
    {
      if currentUser.None? {
        currentView := AuthLogin;
        return None;
      }
      sent := Some(ClaimRequest(claim, currentUser.value.email));
      if reachable {
        claimDialogOpen := false;
      }
    }

    /** `handleClaimClick`: without a user, go to the login view; otherwise open the claim
        dialog. */
    method HandleClaimClick()
      modifies this`currentView, this`claimDialogOpen
      ensures currentUser.None? ==> currentView == AuthLogin && claimDialogOpen == old(claimDialogOpen)
      ensures currentUser.Some? ==> currentView == old(currentView) && claimDialogOpen
    {
      if currentUser.None? {
        currentView := AuthLogin;
        return;
      }
      claimDialogOpen := true;
    }

    /** `handleViewDetails(item)` */
    method HandleViewDetails(item: Item)
      modifies this`selectedItem, this`detailDialogOpen
      ensures selectedItem == Some(item) && detailDialogOpen
    {
      selectedItem := Some(item);
      detailDialogOpen := true;
    }
  }
}
