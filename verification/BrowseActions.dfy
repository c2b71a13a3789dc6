/** What each user action and each reply does to the selection, the screen and the requests. */
module BrowseActions {
  import opened Wrappers
  import opened Utf16
  import opened BrowseController

  /** What a query says about the selection: an empty search or category is left out of it. */
  predicate QueryFor(b: Browse, q: Query) {
    && q.page == b.page
    && (if b.search == [] then q.search.None? else q.search == Some(b.search))
    && (if b.categoryId.None? || b.categoryId.value == [] then q.categoryId.None? else q.categoryId == b.categoryId)
  }

  function With(requests: set<nat>, request: Option<nat>): set<nat> {
    match request case Some(r) => requests + {r} case None => requests
  }

  /** One new product request asks for the selection the screen now has, the one before it is
      aborted, and the page shows that it is loading. */
  predicate AsksAgain(b: Browse, n: Browse) {
    && n.active && n.products == Loading
    && n.productRequest == Some(b.next) && n.next == b.next + 1 && n.waiting == b.waiting + {b.next}
    && n.aborted == With(b.aborted, b.productRequest)
    && b.next in n.sent && n.sent == b.sent[b.next := n.sent[b.next]] && QueryFor(n, n.sent[b.next])
    && n.categoryRequest == b.categoryRequest && n.shown == b.shown
  }

  /** A search of at most eighty units after trimming, without control characters. */
  predicate SearchText(s: Text) {
    |Trim(EcmaScript, s)| <= 80 && forall i :: 0 <= i < |s| ==> (s[i] < 0 || s[i] > 0x1F) && s[i] != 0x7F
  }

  /** An accepted search asks for page 1 of the trimmed text within the same category. */
  lemma Searched(b: Browse, input: Text)
    ensures var (n, ok) := SubmitSearch(b, input);
            && Next(b, DoSearch(input)) == n && (ok <==> b.active && SearchText(input)) && (!ok ==> n == b)
            && (ok ==>
                && AsksAgain(b, n) && n.search == Trim(EcmaScript, input) && n.page == 1
                && n.categoryId == b.categoryId && n.categories == b.categories && !n.recovery)
  {
    hide Trim;
  }

  /** Only a published category, or none, can be chosen. Choosing asks for page 1 of the same
      search in that category, unless that is what is shown. */
  lemma Chosen(b: Browse, id: Option<Text>)
    ensures var (n, ok) := ChooseCategory(b, id);
            && Next(b, DoChoose(id)) == n
            && (ok <==> b.active && b.categories.Loaded?
                        && (id.None? || exists c :: c in b.categories.data && c.id == id.value))
            && (!ok ==> n == b)
            && (ok && id == b.categoryId && b.page == 1 ==> n == b.(recovery := false))
            && (ok && !(id == b.categoryId && b.page == 1) ==>
                && AsksAgain(b, n) && n.categoryId == id && n.page == 1
                && n.search == b.search && n.categories == b.categories && !n.recovery)
  {
  }

  /** One page back, from page 2 on. */
  lemma WentBack(b: Browse)
    ensures var (n, ok) := PreviousPage(b);
            && Next(b, DoPrevious) == n && (ok <==> b.active && b.products.Loaded? && b.page >= 2) && (!ok ==> n == b)
            && (ok ==>
                && AsksAgain(b, n) && n.page == b.page - 1
                && n.search == b.search && n.categoryId == b.categoryId && n.categories == b.categories && !n.recovery)
  {
  }

  /** One page on, while there are more products than the pages so far hold, up to page 10000. */
  lemma WentOn(b: Browse)
    ensures var (n, ok) := NextPage(b);
            && Next(b, DoNext) == n
            && (ok <==> b.active && b.products.Loaded? && b.page < 10000 && 20 * b.page < b.products.data.total)
            && (!ok ==> n == b)
            && (ok ==>
                && AsksAgain(b, n) && n.page == b.page + 1
                && n.search == b.search && n.categoryId == b.categoryId && n.categories == b.categories && !n.recovery)
  {
  }

  /** The spelling of the first listed category of that identifier, up to letter case. */
  predicate Spelling(list: seq<Category>, id: Text, listed: Text) {
    exists k :: 0 <= k < |list| && list[k].id == listed && LowerCase(list[k].id) == LowerCase(id)
      && forall j :: 0 <= j < k ==> LowerCase(list[j].id) != LowerCase(id)
  }

  lemma {:induction false} FirstPublished(list: seq<Category>, id: Text)
    ensures Published(list, id).Some? ==> Spelling(list, id, Published(list, id).value.id)
    ensures Published(list, id).None? <==> Unlisted(list, id)
  {
    hide LowerCase;
    if list != [] && LowerCase(list[0].id) != LowerCase(id) {
      FirstPublished(list[1..], id);
      if Published(list[1..], id).Some? {
        var listed := Published(list[1..], id).value.id;
        var k :| 0 <= k < |list[1..]| && list[1..][k].id == listed && LowerCase(list[1..][k].id) == LowerCase(id)
          && forall j :: 0 <= j < k ==> LowerCase(list[1..][j].id) != LowerCase(id);
        forall j | 0 <= j < k + 1 ensures LowerCase(list[j].id) != LowerCase(id) {
          if j > 0 { assert list[j] == list[1..][j - 1]; }
        }
        assert list[k + 1].id == listed;
      }
    }
  }

  /** No listed category has that identifier. */
  predicate Unlisted(list: seq<Category>, id: Text) {
    forall c :: c in list ==> LowerCase(c.id) != LowerCase(id)
  }

  /** A link replaces search, category and page together. A category the list does not have
      is dropped, with a notice and back on page 1. */
  lemma Followed(b: Browse, location: Location)
    ensures var n := RestoreLocation(b, location);
            && Next(b, DoRestore(location)) == n && (!b.active ==> n == b)
            && (b.active ==>
                && AsksAgain(b, n) && n.search == location.search && n.categories == b.categories
                && if location.categoryId.None? || !b.categories.Loaded? then
                     n.categoryId == location.categoryId && n.page == location.page && !n.recovery
                   else if Unlisted(b.categories.data, location.categoryId.value) then
                     n.categoryId.None? && n.page == 1 && n.recovery
                   else
                     n.categoryId.Some? && Spelling(b.categories.data, location.categoryId.value, n.categoryId.value)
                     && n.page == location.page && !n.recovery)
  {
    if location.categoryId.Some? && b.categories.Loaded? { FirstPublished(b.categories.data, location.categoryId.value); }
    hide LowerCase, Spelling, Unlisted, Published;
  }

  /** Starting asks for both lists once; starting again does nothing. */
  lemma Started(b: Browse)
    ensures var n := Start(b);
            && Next(b, DoStart) == n && (b.active ==> n == b)
            && (!b.active ==>
                && n.active && n.categories == Loading && n.products == Loading
                && n.categoryRequest == Some(b.next) && n.productRequest == Some(b.next + 1) && n.next == b.next + 2
                && n.waiting == b.waiting + {b.next, b.next + 1}
                && n.aborted == With(With(b.aborted, b.categoryRequest), b.productRequest)
                && b.next + 1 in n.sent && n.sent == b.sent[b.next + 1 := n.sent[b.next + 1]]
                && QueryFor(n, n.sent[b.next + 1])
                && n.search == b.search && n.categoryId == b.categoryId && n.page == b.page && n.recovery == b.recovery
                && n.shown == b.shown)
  {
  }

  /** Stopping aborts both requests and keeps what is shown. */
  lemma Stopped(b: Browse)
    ensures Next(b, DoStop) == Stop(b) == b.(active := false, categoryRequest := None, productRequest := None,
                          aborted := With(With(b.aborted, b.categoryRequest), b.productRequest))
  {
  }

  /** Asking again changes nothing of the selection. */
  lemma Refreshed(b: Browse)
    ensures Next(b, DoRefreshProducts) == RefreshProducts(b) && Next(b, DoRefreshCategories) == RefreshCategories(b)
    ensures !b.active ==> RefreshProducts(b) == b && RefreshCategories(b) == b
    ensures var n := RefreshProducts(b);
            b.active ==>
              && AsksAgain(b, n) && n.search == b.search && n.categoryId == b.categoryId && n.page == b.page
              && n.recovery == b.recovery && n.categories == b.categories
    ensures b.active ==>
              RefreshCategories(b) == b.(categories := Loading, categoryRequest := Some(b.next), next := b.next + 1,
                                         waiting := b.waiting + {b.next}, aborted := With(b.aborted, b.categoryRequest))
  {
  }

  /** The reply the screen waits for, as opposed to a late or aborted one. */
  predicate Awaited(b: Browse, request: nat, current: Option<nat>) {
    b.active && request !in b.aborted && current == Some(request)
  }

  /** A category reply. Only the awaited one is taken: without a list the categories are
      unavailable; with one they are shown, the selected category takes the listed spelling,
      and a selection that is no longer listed is dropped: the screen says so and asks for
      page 1 of the same search in all categories. */
  lemma CategoriesAnswered(b: Browse, request: nat, result: Option<seq<Category>>)
    requires request in b.waiting && request !in b.sent
    ensures Next(b, DoCategories(request, result)) == CategoriesReply(b, request, result)
    ensures var n := CategoriesReply(b, request, result); var rest := b.(waiting := b.waiting - {request});
            if !Awaited(b, request, b.categoryRequest) then n == rest
            else if result.None? then n == rest.(categories := Unavailable)
            else if b.categoryId.None? then n == rest.(categories := Loaded(result.value))
            else if Unlisted(result.value, b.categoryId.value) then
              && AsksAgain(rest, n) && n.categories == Loaded(result.value)
              && n.categoryId.None? && n.page == 1 && n.search == b.search && n.recovery
            else
              && n == rest.(categories := Loaded(result.value), categoryId := n.categoryId) && n.categoryId.Some?
              && Spelling(result.value, b.categoryId.value, n.categoryId.value)
  {
    if result.Some? && b.categoryId.Some? { FirstPublished(result.value, b.categoryId.value); }
    hide LowerCase, Spelling, Unlisted, Published;
  }

  /** A product reply. Only the awaited one is taken, and only a page of the number that was
      asked for and of twenty products is shown. */
  lemma ProductsAnswered(b: Browse, request: nat, result: Option<Page>)
    requires request in b.waiting && request in b.sent
    ensures Next(b, DoProducts(request, result)) == ProductsReply(b, request, result)
    ensures var n := ProductsReply(b, request, result); var rest := b.(waiting := b.waiting - {request});
            if !Awaited(b, request, b.productRequest) then n == rest
            else if result.Some? && result.value.page == b.sent[request].page && result.value.pageSize == 20 then
              n == rest.(products := Loaded(result.value), shown := request)
            else n == rest.(products := Unavailable)
  {
  }

  /** Replies nobody waits for change nothing. */
  lemma StrayReplies(b: Browse, request: nat, list: Option<seq<Category>>, page: Option<Page>)
    ensures request !in b.waiting || request in b.sent ==> CategoriesReply(b, request, list) == b
    ensures request !in b.waiting || request !in b.sent ==> ProductsReply(b, request, page) == b
  {
  }

  /** A new screen shows where it was sent, and waits to be started. */
  lemma Opened(start: Location)
    ensures var b := Initial(start);
            && !b.active && b.categories == Loading && b.products == Loading && !b.recovery
            && b.categoryId == start.categoryId && b.search == start.search && b.page == start.page
            && b.waiting == {} && b.aborted == {} && b.sent == map[]
            && b.categoryRequest.None? && b.productRequest.None?
  {
  }
}
