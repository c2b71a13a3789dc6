/**
 `BuyerBrowseController` as the object it is: its methods assign fields in the
 client's order, and each synchronous stretch is proved to do exactly what the step of the same name
 in `BrowseController` says. The requests in flight are the ghost part; the code itself only
 keeps the two abort controllers.
 */
module BuyerBrowse {
  import opened Wrappers
  import opened Utf16
  import opened BrowseController

  class BuyerBrowseController {
    var active: bool
    var categories: Load<seq<Category>>
    var products: Load<Page>
    var categoryId: Option<Text>
    var search: Text
    var page: int
    var recovery: bool
    var categoryRequest: Option<nat>
    var productRequest: Option<nat>
    var aborted: set<nat>
    var next: nat
    ghost var sent: map<nat, Query>
    ghost var waiting: set<nat>
    ghost var shown: nat

    ghost function State(): Browse
      reads this
    {
      Browse(active, categories, products, categoryId, search, page, recovery,
             categoryRequest, productRequest, aborted, next, sent, waiting, shown)
    }

    ghost predicate Valid()
      reads this
    {
      Inv(State())
    }

    constructor (start: Location)
      ensures State() == Initial(start) && Valid()
    {
      active, categories, products := false, Loading, Loading;
      categoryId, search, page, recovery := start.categoryId, start.search, start.page, false;
      categoryRequest, productRequest, aborted, next := None, None, {}, 0;
      sent, waiting, shown := map[], {}, 0;
    }

    method AbortProducts()
      modifies this`aborted
      ensures aborted == Abort(old(State()), productRequest)
    {
      if productRequest.Some? {
        aborted := aborted + {productRequest.value};
      }
    }

    method AbortCategories()
      modifies this`aborted
      ensures aborted == Abort(old(State()), categoryRequest)
    {
      if categoryRequest.Some? {
        aborted := aborted + {categoryRequest.value};
      }
    }

    method Start()
      requires Valid()
      modifies this
      ensures State() == BrowseController.Start(old(State())) && Valid()
    {
      StartKeeps(State());
      hide Inv, RefreshProducts, RefreshCategories, LowerCase;
      if active {
        return;
      }
      active := true;
      SendCategories();
      SendProducts();
    }

    method Stop()
      requires Valid()
      modifies this
      ensures State() == BrowseController.Stop(old(State())) && Valid()
    {
      StopKeeps(State());
      hide Inv, RefreshProducts, RefreshCategories, LowerCase;
      active := false;
      AbortCategories();
      AbortProducts();
      categoryRequest, productRequest := None, None;
    }

    /** `refreshCategories` up to its await. */
    method SendCategories()
      modifies this
      ensures State() == RefreshCategories(old(State()))
    {
      if !active {
        return;
      }
      AbortCategories();
      categoryRequest := Some(next);
      waiting := waiting + {next};
      next := next + 1;
      categories := Loading;
    }

    /** `refreshProducts` up to its await. */
    method SendProducts()
      modifies this
      ensures State() == RefreshProducts(old(State()))
    {
      if !active {
        return;
      }
      AbortProducts();
      productRequest := Some(next);
      var query := Query(if categoryId.Some? then NonEmpty(categoryId.value) else None, NonEmpty(search), page);
      sent := sent[next := query];
      waiting := waiting + {next};
      next := next + 1;
      products := Loading;
    }

    /** What `restoreLocation` and a removed category share: abort, show loading, ask again. */
    method Requery(category: Option<Text>, words: Text, number: int, recovered: bool)
      modifies this
      ensures State() == RefreshProducts(old(State()).(
                aborted := Abort(old(State()), old(productRequest)), categoryId := category, search := words,
                page := number, recovery := recovered, products := Loading))
    {
      hide RefreshProducts;
      AbortProducts();
      categoryId, search, page, recovery, products := category, words, number, recovered, Loading;
      SendProducts();
    }

    /** `refreshCategories` after its await. */
    method OnCategories(request: nat, result: Option<seq<Category>>)
      requires Valid() && request in waiting && request !in sent
      modifies this
      ensures State() == CategoriesReply(old(State()), request, result) && Valid()
    {
      CategoriesReplyKeeps(State(), request, result);
      hide Inv, RefreshProducts, RefreshCategories, LowerCase;
      waiting := waiting - {request};
      if !active || request in aborted || categoryRequest != Some(request) {
        return;
      }
      if result.None? {
        categories := Unavailable;
        return;
      }
      var published := if categoryId.None? then None else Published(result.value, categoryId.value);
      if categoryId.Some? && published.None? {
        categories := Loaded(result.value);
        Requery(None, search, 1, true);
        return;
      }
      categories := Loaded(result.value);
      if published.Some? {
        categoryId := Some(published.value.id);
      }
    }

    /** `refreshProducts` after its await. `asked` is the page the closure captured. */
    method OnProducts(request: nat, asked: int, result: Option<Page>)
      requires Valid() && request in waiting && request in sent && sent[request].page == asked
      modifies this
      ensures State() == ProductsReply(old(State()), request, result) && Valid()
    {
      ProductsReplyKeeps(State(), request, result);
      hide Inv, RefreshProducts, RefreshCategories, LowerCase;
      waiting := waiting - {request};
      if !active || request in aborted || productRequest != Some(request) {
        return;
      }
      if result.None? || result.value.page != asked || result.value.pageSize != PAGE_SIZE {
        products := Unavailable;
        return;
      }
      products := Loaded(result.value);
      shown := request;
    }

    method Restore(location: Location)
      requires Valid()
      modifies this
      ensures State() == RestoreLocation(old(State()), location) && Valid()
    {
      RestoreKeeps(State(), location);
      hide Inv, RefreshProducts, RefreshCategories, LowerCase;
      if !active {
        return;
      }
      var published: Option<Category> := None;
      var removed := false;
      if location.categoryId.Some? && categories.Loaded? {
        published := Published(categories.data, location.categoryId.value);
        removed := published.None?;
      }
      Requery(if removed then None else if published.Some? then Some(published.value.id) else location.categoryId,
              location.search, if removed then 1 else location.page, removed);
    }

    method Choose(id: Option<Text>) returns (ok: bool)
      requires Valid()
      modifies this
      ensures (State(), ok) == ChooseCategory(old(State()), id) && Valid()
    {
      ChooseKeeps(State(), id);
      hide Inv, RefreshProducts, RefreshCategories, LowerCase;
      if !active || !categories.Loaded? || (id.Some? && !Listed(categories.data, id.value)) {
        return false;
      }
      recovery := false;
      if id == categoryId && page == 1 {
        return true;
      }
      categoryId, page := id, 1;
      SendProducts();
      return true;
    }

    method Search(input: Text) returns (ok: bool)
      requires Valid()
      modifies this
      ensures (State(), ok) == SubmitSearch(old(State()), input) && Valid()
    {
      SearchKeeps(State(), input);
      hide Inv, RefreshProducts, RefreshCategories, LowerCase;
      if !active || !ValidSearch(input) {
        return false;
      }
      var trimmed := Trim(EcmaScript, input);
      recovery := false;
      if trimmed != search || page != 1 {
        search, page := trimmed, 1;
      }
      SendProducts();
      return true;
    }

    method PreviousPage() returns (ok: bool)
      requires Valid()
      modifies this
      ensures (State(), ok) == BrowseController.PreviousPage(old(State())) && Valid()
    {
      PageKeeps(State(), State().(page := page - 1, recovery := false));
      hide Inv, RefreshProducts, RefreshCategories, LowerCase;
      if !active || !products.Loaded? || page <= 1 {
        return false;
      }
      page, recovery := page - 1, false;
      SendProducts();
      return true;
    }

    method NextPage() returns (ok: bool)
      requires Valid()
      modifies this
      ensures (State(), ok) == BrowseController.NextPage(old(State())) && Valid()
    {
      PageKeeps(State(), State().(page := page + 1, recovery := false));
      hide Inv, RefreshProducts, RefreshCategories, LowerCase;
      if !active || !products.Loaded? || page >= LAST_PAGE || page * PAGE_SIZE >= products.data.total {
        return false;
      }
      page, recovery := page + 1, false;
      SendProducts();
      return true;
    }
  }
}
