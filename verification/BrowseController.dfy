/**
 The buyer's catalogue screen: two streams of requests, categories and products, whose
 replies may come late, out of order or never. `Browse` is the controller between two
 synchronous steps; the class in `BuyerBrowse` runs the same steps on fields.
 */
module BrowseController {
  import opened Wrappers
  import opened Utf16

  const PAGE_SIZE := 20
  const LAST_PAGE := 10000

  datatype Load<+T> = Loading | Unavailable | Loaded(data: T)
  datatype Category = Category(id: Text, name: Text, slug: Text)
  datatype Page = Page(items: seq<Text>, page: int, pageSize: int, total: int)
  datatype Location = Location(categoryId: Option<Text>, search: Text, page: int)

  /** A product query. An empty category or search is left out of it. */
  datatype Query = Query(categoryId: Option<Text>, search: Option<Text>, page: int)

  datatype Browse = Browse(
    active: bool, categories: Load<seq<Category>>, products: Load<Page>,
    categoryId: Option<Text>, search: Text, page: int, recovery: bool,
    categoryRequest: Option<nat>, productRequest: Option<nat>, aborted: set<nat>,
    next: nat,               // the next request to be created
    sent: map<nat, Query>,   // the query of every product request
    waiting: set<nat>,       // requests without a reply yet
    shown: nat)              // the request whose reply is the loaded page; not read by the code

  function Initial(start: Location): Browse {
    Browse(false, Loading, Loading, start.categoryId, start.search, start.page, false, None, None, {}, 0, map[], {}, 0)
  }

  function NonEmpty(s: Text): Option<Text> {
    if s == [] then None else Some(s)
  }

  function Filter(categoryId: Option<Text>): Option<Text> {
    if categoryId.None? then None else NonEmpty(categoryId.value)
  }

  function Abort(b: Browse, request: Option<nat>): set<nat> {
    if request.None? then b.aborted else b.aborted + {request.value}
  }

  /** The first listed category with this identifier, whatever its letter case. */
  function Published(list: seq<Category>, id: Text): (r: Option<Category>)
    ensures r.Some? ==> r.value in list && LowerCase(r.value.id) == LowerCase(id)
    ensures r.None? ==> forall c :: c in list ==> LowerCase(c.id) != LowerCase(id)
    decreases |list|
  {
    if list == [] then None
    else if LowerCase(list[0].id) == LowerCase(id) then Some(list[0])
    else Published(list[1..], id)
  }

  predicate Listed(list: seq<Category>, id: Text) {
    exists c :: c in list && c.id == id
  }

  function RefreshCategories(b: Browse): Browse {
    if !b.active then b
    else b.(aborted := Abort(b, b.categoryRequest), categoryRequest := Some(b.next), next := b.next + 1,
            waiting := b.waiting + {b.next}, categories := Loading)
  }

  function RefreshProducts(b: Browse): Browse {
    if !b.active then b
    else b.(aborted := Abort(b, b.productRequest), productRequest := Some(b.next), next := b.next + 1,
            waiting := b.waiting + {b.next}, products := Loading,
            sent := b.sent[b.next := Query(Filter(b.categoryId), NonEmpty(b.search), b.page)])
  }

  function Start(b: Browse): Browse {
    if b.active then b else RefreshProducts(RefreshCategories(b.(active := true)))
  }

  function Stop(b: Browse): Browse {
    var n := b.(aborted := Abort(b, b.categoryRequest));
    n.(active := false, aborted := Abort(n, n.productRequest), categoryRequest := None, productRequest := None)
  }

  /** `result` is `None` for every reply that is not a list. */
  function CategoriesReply(b: Browse, request: nat, result: Option<seq<Category>>): Browse {
    var n := b.(waiting := b.waiting - {request});
    if request !in b.waiting || request in b.sent then b
    else if !b.active || request in b.aborted || b.categoryRequest != Some(request) then n
    else if result.None? then n.(categories := Unavailable)
    else if b.categoryId.None? then n.(categories := Loaded(result.value))
    else
      var published := Published(result.value, b.categoryId.value);
      if published.None? then
        RefreshProducts(n.(aborted := Abort(n, n.productRequest), categories := Loaded(result.value),
                           categoryId := None, page := 1, recovery := true, products := Loading))
      else n.(categories := Loaded(result.value), categoryId := Some(published.value.id))
  }

  function ProductsReply(b: Browse, request: nat, result: Option<Page>): Browse {
    var n := b.(waiting := b.waiting - {request});
    if request !in b.waiting || request !in b.sent then b
    else if !b.active || request in b.aborted || b.productRequest != Some(request) then n
    else if result.None? || result.value.page != b.sent[request].page || result.value.pageSize != PAGE_SIZE then
      n.(products := Unavailable)
    else n.(products := Loaded(result.value), shown := request)
  }

  function RestoreLocation(b: Browse, location: Location): Browse {
    if !b.active then b
    else
      var known := location.categoryId.Some? && b.categories.Loaded?;
      var published := if known then Published(b.categories.data, location.categoryId.value) else None;
      var removed := known && published.None?;
      RefreshProducts(b.(
        aborted := Abort(b, b.productRequest), search := location.search, recovery := removed, products := Loading,
        page := if removed then 1 else location.page,
        categoryId := if removed then None else if published.Some? then Some(published.value.id) else location.categoryId))
  }

  function ChooseCategory(b: Browse, id: Option<Text>): (Browse, bool) {
    if !b.active || !b.categories.Loaded? || (id.Some? && !Listed(b.categories.data, id.value)) then (b, false)
    else if id == b.categoryId && b.page == 1 then (b.(recovery := false), true)
    else (RefreshProducts(b.(categoryId := id, page := 1, recovery := false)), true)
  }

  predicate ValidSearch(s: Text) {
    |Trim(EcmaScript, s)| <= 80 && forall i :: 0 <= i < |s| ==> !(0 <= s[i] < 0x20) && s[i] != 0x7F
  }

  function SubmitSearch(b: Browse, input: Text): (Browse, bool) {
    if !b.active || !ValidSearch(input) then (b, false)
    else if Trim(EcmaScript, input) == b.search && b.page == 1 then (RefreshProducts(b.(recovery := false)), true)
    else (RefreshProducts(b.(search := Trim(EcmaScript, input), page := 1, recovery := false)), true)
  }

  function PreviousPage(b: Browse): (Browse, bool) {
    if !b.active || !b.products.Loaded? || b.page <= 1 then (b, false)
    else (RefreshProducts(b.(page := b.page - 1, recovery := false)), true)
  }

  function NextPage(b: Browse): (Browse, bool) {
    if !b.active || !b.products.Loaded? || b.page >= LAST_PAGE || b.page * PAGE_SIZE >= b.products.data.total then (b, false)
    else (RefreshProducts(b.(page := b.page + 1, recovery := false)), true)
  }

  datatype Step =
    | DoStart | DoStop | DoRefreshCategories | DoRefreshProducts
    | DoCategories(request: nat, list: Option<seq<Category>>)
    | DoProducts(request: nat, page: Option<Page>)
    | DoRestore(location: Location) | DoChoose(id: Option<Text>) | DoSearch(input: Text)
    | DoPrevious | DoNext

  function Next(b: Browse, s: Step): Browse {
    match s
    case DoStart => Start(b)
    case DoStop => Stop(b)
    case DoRefreshCategories => RefreshCategories(b)
    case DoRefreshProducts => RefreshProducts(b)
    case DoCategories(request, list) => CategoriesReply(b, request, list)
    case DoProducts(request, page) => ProductsReply(b, request, page)
    case DoRestore(location) => RestoreLocation(b, location)
    case DoChoose(id) => ChooseCategory(b, id).0
    case DoSearch(input) => SubmitSearch(b, input).0
    case DoPrevious => PreviousPage(b).0
    case DoNext => NextPage(b).0
  }

  function Run(b: Browse, steps: seq<Step>): Browse {
    if steps == [] then b else Next(Run(b, steps[..|steps| - 1]), steps[|steps| - 1])
  }

  // What every run keeps.

  /** The same category filter, up to letter case. */
  predicate SameFilter(x: Option<Text>, y: Option<Text>) {
    (x.None? && y.None?) || (x.Some? && y.Some? && LowerCase(x.value) == LowerCase(y.value))
  }

  /** The query asks for exactly what the screen has selected. */
  predicate Asks(b: Browse, q: Query) {
    SameFilter(q.categoryId, Filter(b.categoryId)) && q.search == NonEmpty(b.search) && q.page == b.page
  }

  /** No stale page: a loaded page answers the query for the current selection. */
  predicate FreshPage(b: Browse) {
    b.products.Loaded? ==>
      b.shown in b.sent && Asks(b, b.sent[b.shown]) && b.products.data.page == b.page && b.products.data.pageSize == PAGE_SIZE
  }

  /** When the published categories are known, the selected one is among them. */
  predicate SelectedIsListed(b: Browse) {
    b.categories.Loaded? && b.categoryId.Some? ==> Listed(b.categories.data, b.categoryId.value)
  }

  predicate Live(b: Browse, request: nat) {
    request in b.waiting && request !in b.aborted
  }

  /** At most one product request and one category request can still be answered. */
  ghost predicate OneLive(b: Browse) {
    && (forall r :: Live(b, r) && r in b.sent ==> b.productRequest == Some(r))
    && (forall r :: Live(b, r) && r !in b.sent ==> b.categoryRequest == Some(r))
  }

  ghost predicate Bookkeeping(b: Browse) {
    && (forall r :: r in b.waiting || r in b.aborted ==> r < b.next)
    && (forall r :: r in b.sent ==> r < b.next)
    && (b.productRequest.Some? ==> b.productRequest.value in b.sent && Asks(b, b.sent[b.productRequest.value]))
    && (b.categoryRequest.Some? ==> b.categoryRequest.value !in b.sent && b.categoryRequest.value < b.next)
  }

  ghost predicate Inv(b: Browse) {
    FreshPage(b) && SelectedIsListed(b) && OneLive(b) && Bookkeeping(b)
  }

  /** Only the selection changed since `b`, and perhaps the product request was aborted. */
  predicate Reselects(b: Browse, m: Browse) {
    && m == b.(categoryId := m.categoryId, search := m.search, page := m.page, recovery := m.recovery,
               products := m.products, aborted := m.aborted)
    && (m.aborted == b.aborted || m.aborted == Abort(b, b.productRequest))
    && SelectedIsListed(m)
  }

  /** A refresh after any change of selection restores everything. */
  lemma RefreshKeeps(b: Browse, m: Browse)
    requires Inv(b) && m.active && Reselects(b, m)
    ensures Inv(RefreshProducts(m))
  {
    var n := RefreshProducts(m);
    assert forall r :: Live(n, r) ==> r == m.next || Live(b, r);
    assert Bookkeeping(n) by {
      assert SameFilter(Filter(n.categoryId), Filter(n.categoryId));
      hide Filter, NonEmpty, LowerCase;
    }
  }

  lemma RefreshCategoriesKeeps(b: Browse)
    requires Inv(b)
    ensures Inv(RefreshCategories(b)) && RefreshCategories(b).active == b.active
  {
    hide Filter, NonEmpty, SameFilter;
  }

  lemma StartKeeps(b: Browse)
    requires Inv(b)
    ensures Inv(Start(b))
  {
    if !b.active {
      var a := b.(active := true);
      assert Inv(a) by { hide SameFilter, Filter, NonEmpty; }
      RefreshCategoriesKeeps(a);
      assert SelectedIsListed(RefreshCategories(a));
      hide Inv, RefreshProducts, RefreshCategories, SelectedIsListed;
      RefreshKeeps(RefreshCategories(a), RefreshCategories(a));
    }
  }

  lemma StopKeeps(b: Browse)
    requires Inv(b)
    ensures Inv(Stop(b))
  {
    hide SameFilter, Filter, NonEmpty, Listed;
  }

  lemma CategoriesReplyKeeps(b: Browse, request: nat, result: Option<seq<Category>>)
    requires Inv(b)
    ensures Inv(CategoriesReply(b, request, result))
  {
    if request in b.waiting && request !in b.sent {
      var n := b.(waiting := b.waiting - {request});
      AnsweredKeeps(b, request);
      if b.active && request !in b.aborted && b.categoryRequest == Some(request) {
        hide RefreshProducts, Filter, NonEmpty;
        if result.None? {
          assert Inv(n.(categories := Unavailable)) by { hide SameFilter; }
        } else {
          ListedKeeps(n, result.value);
        }
      }
    }
  }

  lemma AnsweredKeeps(b: Browse, request: nat)
    requires Inv(b)
    ensures Inv(b.(waiting := b.waiting - {request}))
  {
    hide SameFilter, Filter, NonEmpty, Listed;
  }

  /** The list arrives and the selected category, if any, is on it. */
  lemma ListedKeeps(n: Browse, list: seq<Category>)
    requires Inv(n) && n.active
    ensures n.categoryId.None? ==> Inv(n.(categories := Loaded(list)))
    ensures n.categoryId.Some? ==>
              var published := Published(list, n.categoryId.value);
              if published.Some? then Inv(n.(categories := Loaded(list), categoryId := Some(published.value.id)))
              else Inv(RefreshProducts(n.(aborted := Abort(n, n.productRequest), categories := Loaded(list),
                                          categoryId := None, page := 1, recovery := true, products := Loading)))
  {
    if n.categoryId.Some? {
      var published := Published(list, n.categoryId.value);
      hide RefreshProducts;
      if published.Some? {
        RenamedKeeps(n, list, published.value);
      } else {
        RemovedKeeps(n, list);
      }
    } else {
      hide RefreshProducts, Filter, NonEmpty, SameFilter;
    }
  }

  lemma RenamedKeeps(n: Browse, list: seq<Category>, published: Category)
    requires Inv(n) && n.categoryId.Some? && published in list && LowerCase(published.id) == LowerCase(n.categoryId.value)
    ensures Inv(n.(categories := Loaded(list), categoryId := Some(published.id)))
  {
    CanonicalFilter(published.id, n.categoryId.value);
    assert Listed(list, published.id);
    hide SameFilter, Filter, NonEmpty, LowerCase, Listed;
  }

  lemma RemovedKeeps(n: Browse, list: seq<Category>)
    requires Inv(n) && n.active
    ensures Inv(RefreshProducts(n.(aborted := Abort(n, n.productRequest), categories := Loaded(list),
                                   categoryId := None, page := 1, recovery := true, products := Loading)))
  {
    var unknown := n.(categories := Loading);
    var m := unknown.(aborted := Abort(n, n.productRequest), categoryId := None, page := 1, recovery := true, products := Loading);
    hide SameFilter, Filter, NonEmpty, Listed;
    assert Inv(unknown);
    RefreshKeeps(unknown, m);
  }

  /** Selecting the listed spelling of the same category changes no query. */
  lemma CanonicalFilter(listed: Text, selected: Text)
    requires LowerCase(listed) == LowerCase(selected)
    ensures forall x :: SameFilter(x, Filter(Some(selected))) ==> SameFilter(x, Filter(Some(listed)))
  {
    assert |LowerCase(listed)| == |listed| && |LowerCase(selected)| == |selected|;
  }

  lemma ProductsReplyKeeps(b: Browse, request: nat, result: Option<Page>)
    requires Inv(b)
    ensures Inv(ProductsReply(b, request, result))
  {
    AnsweredKeeps(b, request);
    hide SameFilter, Filter, NonEmpty, Listed;
  }

  lemma RestoreKeeps(b: Browse, location: Location)
    requires Inv(b)
    ensures Inv(RestoreLocation(b, location))
  {
    if b.active {
      var known := location.categoryId.Some? && b.categories.Loaded?;
      var published := if known then Published(b.categories.data, location.categoryId.value) else None;
      var removed := known && published.None?;
      var m := b.(
        aborted := Abort(b, b.productRequest), search := location.search, recovery := removed, products := Loading,
        page := if removed then 1 else location.page,
        categoryId := if removed then None else if published.Some? then Some(published.value.id) else location.categoryId);
      if published.Some? { assert Listed(b.categories.data, published.value.id); }
      assert SelectedIsListed(m);
      hide Inv, RefreshProducts;
      RefreshKeeps(b, m);
    }
  }

  lemma ChooseKeeps(b: Browse, id: Option<Text>)
    requires Inv(b)
    ensures Inv(ChooseCategory(b, id).0)
  {
    if ChooseCategory(b, id).1 {
      if id == b.categoryId && b.page == 1 {
        hide Filter, NonEmpty, SameFilter, Listed;
      } else {
        hide RefreshProducts;
        RefreshKeeps(b, b.(categoryId := id, page := 1, recovery := false));
      }
    }
  }

  lemma SearchKeeps(b: Browse, input: Text)
    requires Inv(b)
    ensures Inv(SubmitSearch(b, input).0)
  {
    hide RefreshProducts, ValidSearch, Trim;
    if SubmitSearch(b, input).1 {
      RefreshKeeps(b, b.(recovery := false));
      RefreshKeeps(b, b.(search := Trim(EcmaScript, input), page := 1, recovery := false));
    }
  }

  lemma NextKeeps(b: Browse, s: Step)
    requires Inv(b)
    ensures Inv(Next(b, s))
  {
    hide Inv, RefreshProducts, RefreshCategories, CategoriesReply, ProductsReply, Start, Stop;
    hide RestoreLocation, ChooseCategory, SubmitSearch;
    match s
    case DoStart => StartKeeps(b);
    case DoStop => StopKeeps(b);
    case DoRefreshCategories => RefreshCategoriesKeeps(b);
    case DoRefreshProducts => PageKeeps(b, b);
    case DoCategories(request, list) => CategoriesReplyKeeps(b, request, list);
    case DoProducts(request, page) => ProductsReplyKeeps(b, request, page);
    case DoRestore(location) => RestoreKeeps(b, location);
    case DoChoose(id) => ChooseKeeps(b, id);
    case DoSearch(input) => SearchKeeps(b, input);
    case DoPrevious => PageKeeps(b, b.(page := b.page - 1, recovery := false));
    case DoNext => PageKeeps(b, b.(page := b.page + 1, recovery := false));
  }

  lemma PageKeeps(b: Browse, m: Browse)
    requires Inv(b) && m == b.(page := m.page, recovery := m.recovery)
    ensures b.active ==> Inv(RefreshProducts(m))
    ensures !b.active ==> RefreshProducts(b) == b
  {
    assert SelectedIsListed(m);
    if b.active {
      hide Inv;
      RefreshKeeps(b, m);
    }
  }

  lemma {:induction false} RunKeeps(start: Location, steps: seq<Step>)
    ensures Inv(Run(Initial(start), steps))
  {
    if steps == [] {
    } else {
      RunKeeps(start, steps[..|steps| - 1]);
      hide Inv, Next;
      NextKeeps(Run(Initial(start), steps[..|steps| - 1]), steps[|steps| - 1]);
    }
  }

  /** After every step of any interleaving of user actions, replies and refreshes: a loaded
      product page was fetched for the search, page number and category now selected; a
      selected category is listed whenever the list is known; and at most one product
      request can still be answered. */
  lemma NoStalePage(start: Location, steps: seq<Step>)
    ensures var b := Run(Initial(start), steps);
            && (b.products.Loaded? ==>
                && b.shown in b.sent && SameFilter(b.sent[b.shown].categoryId, Filter(b.categoryId))
                && b.sent[b.shown].search == NonEmpty(b.search) && b.sent[b.shown].page == b.page
                && b.products.data.page == b.page)
            && (b.categories.Loaded? && b.categoryId.Some? ==> Listed(b.categories.data, b.categoryId.value))
            && (forall r, q :: Live(b, r) && r in b.sent && Live(b, q) && q in b.sent ==> r == q)
  {
    hide Run;
    RunKeeps(start, steps);
    var b := Run(Initial(start), steps);
    assert forall r :: Live(b, r) && r in b.sent ==> b.productRequest == Some(r);
  }
}
