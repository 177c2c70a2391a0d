/**
 * The favorites page (bz-favorites-page.c): the fiber that fetches the
 * signed-in user's favorites, maps their application ids to groups and
 * installs them sorted by title as the page's model, the empty/content page
 * switch, and the fiber that opens a tile's entry when it is activated.
 */
module FavoritesPage {
  import opened Wrappers
  import opened Entries
  import EntryGroupUtil
  import FavoritesTile

  const PageDestroyedMessage := "Page destroyed"

  /** What the authenticated GET of "/favorites" gives back. */
  datatype Reply =
    | QueryFailed(error: Error)
    | NotArray
    | Favorites(elements: seq<Option<string>>)   // each element's "app_id" string member, if it has one

  // ---------------------------------------------------------------------
  // Ids and their groups

  /** The app ids of the favorites, in response order, skipping elements without one. */
  function AppIds(elements: seq<Option<string>>): seq<string>
  {
    if elements == [] then []
    else
      var last := elements[|elements| - 1];
      AppIds(elements[..|elements| - 1]) + (if last.Some? then [last.value] else [])
  }

  lemma {:induction false} AppIdsExactly(elements: seq<Option<string>>)
    ensures forall id :: id in AppIds(elements) <==> Some(id) in elements
    ensures |AppIds(elements)| <= |elements|
  {
    if elements != [] {
      AppIdsExactly(elements[..|elements| - 1]);
      assert elements == elements[..|elements| - 1] + [elements[|elements| - 1]];
    }
  }

  /** A favorite listed several times is requested as many times. */
  lemma {:induction false} AppIdCopies(elements: seq<Option<string>>, id: string)
    ensures multiset(AppIds(elements))[id] == multiset(elements)[Some(id)]
  {
    if elements != [] {
      AppIdCopies(elements[..|elements| - 1], id);
      assert elements == elements[..|elements| - 1] + [elements[|elements| - 1]];
    }
  }

  /** The loop over the favorites array. */
  method CollectAppIds(elements: seq<Option<string>>) returns (ids: seq<string>)
    ensures ids == AppIds(elements)
  {
    ids := [];
    var i := 0;
    while i < |elements|
      invariant 0 <= i <= |elements|
      invariant ids == AppIds(elements[..i])
    {
      assert elements[..i + 1][..i] == elements[..i];
      if elements[i].Some? {
        ids := ids + [elements[i].value];
      }
      i := i + 1;
    }
    assert elements[..i] == elements;
  }

  /** The ids handed to the application map: none unless signed in and the reply is an array. */
  function RequestedIds(token: Option<string>, authenticated: bool, reply: Reply): seq<string>
  {
    if token.None? || !authenticated then []
    else match reply
      case Favorites(elements) => AppIds(elements)
      case _ => []
  }

  // ---------------------------------------------------------------------
  // Ordering by title

  /** Titles compare through a collation key; g_utf8_collate is not modelled beyond that. */
  predicate SortedBy(groups: seq<Group>, key: string -> int)
  {
    forall i, j :: 0 <= i < j < |groups| ==> key(groups[i].title) <= key(groups[j].title)
  }

  /** Places g after every group whose key is not greater. */
  function Insert(g: Group, sorted: seq<Group>, key: string -> int): seq<Group>
  {
    if sorted == [] then [g]
    else if key(g.title) < key(sorted[0].title) then [g] + sorted
    else [sorted[0]] + Insert(g, sorted[1..], key)
  }

  function SortByTitle(groups: seq<Group>, key: string -> int): seq<Group>
  {
    if groups == [] then []
    else Insert(groups[|groups| - 1], SortByTitle(groups[..|groups| - 1], key), key)
  }

  lemma {:induction false} InsertPermutes(g: Group, sorted: seq<Group>, key: string -> int)
    ensures multiset(Insert(g, sorted, key)) == multiset(sorted) + multiset{g}
  {
    if sorted != [] && key(g.title) >= key(sorted[0].title) {
      InsertPermutes(g, sorted[1..], key);
      assert sorted == [sorted[0]] + sorted[1..];
    }
  }

  lemma {:induction false} InsertSorted(g: Group, sorted: seq<Group>, key: string -> int)
    requires SortedBy(sorted, key)
    ensures SortedBy(Insert(g, sorted, key), key)
  {
    if sorted != [] && key(g.title) >= key(sorted[0].title) {
      InsertSorted(g, sorted[1..], key);
      InsertPermutes(g, sorted[1..], key);
      var rest := Insert(g, sorted[1..], key);
      forall x | x in rest ensures key(sorted[0].title) <= key(x.title) {
        assert x in multiset(rest);
        if x != g {
          assert x in multiset(sorted[1..]);
        }
      }
    }
  }

  /** The page's model is the generated groups, ordered by title and nothing lost or added. */
  lemma {:induction false} SortByTitleCorrect(groups: seq<Group>, key: string -> int)
    ensures SortedBy(SortByTitle(groups, key), key)
    ensures multiset(SortByTitle(groups, key)) == multiset(groups)
  {
    if groups != [] {
      var init, last := groups[..|groups| - 1], groups[|groups| - 1];
      var sortedInit := SortByTitle(init, key);
      assert SortByTitle(groups, key) == Insert(last, sortedInit, key);
      SortByTitleCorrect(init, key);
      InsertSorted(last, sortedInit, key);
      InsertPermutes(last, sortedInit, key);
      assert groups == init + [last];
      assert multiset(groups) == multiset(init) + multiset{last};
    }
  }

  // ---------------------------------------------------------------------
  // The page

  class Page {
    var model: Option<seq<Group>>
    var visibleChild: string        // "content" or "empty"

    /** `initialChild` is the stack page the template shows before the first fetch. */
    constructor (initialChild: string)
      ensures model == None && visibleChild == initialChild
    {
      model := None;
      visibleChild := initialChild;
    }

    /** set_page: "content" exactly when there is a non-empty model. */
    method SetPage()
      modifies this`visibleChild
      ensures visibleChild == (if model.Some? && |model.value| > 0 then "content" else "empty")
    {
      if model.Some? && |model.value| > 0 {
        visibleChild := "content";
      } else {
        visibleChild := "empty";
      }
    }
  }

  /** The copy of the generated model into the store that is then sorted. */
  method CopyGroups(model: seq<Group>) returns (store: seq<Group>)
    ensures store == model
  {
    store := [];
    var i := 0;
    while i < |model|
      invariant 0 <= i <= |model|
      invariant store == model[..i]
    {
      store := store + [model[i]];
      i := i + 1;
    }
  }

  /**
   * fetch_favorites_fiber. `generate` stands for the application map
   * factory; `key` for the collation of titles.
   */
  method FetchFavoritesFiber(page: Page?, token: Option<string>, authenticated: bool, reply: Reply,
                             generate: seq<string> -> seq<Group>, key: string -> int)
    returns (result: Result<bool, Error>)
    modifies page
    ensures page == null ==> result == Failure(Error(IoCancelled, PageDestroyedMessage))
    ensures page != null ==> result == Success(true)
    ensures page != null ==> page.model == Some(SortByTitle(generate(RequestedIds(token, authenticated, reply)), key))
    ensures page != null ==> page.visibleChild == (if |generate(RequestedIds(token, authenticated, reply))| > 0 then "content" else "empty")
  {
    if page == null {
      return Failure(Error(IoCancelled, PageDestroyedMessage));
    }
    var ids := [];
    if token.Some? && authenticated && reply.Favorites? {
      ids := CollectAppIds(reply.elements);
    }
    var model := generate(ids);
    var store := CopyGroups(model);
    var sorted := SortByTitle(store, key);
    SortByTitleCorrect(store, key);
    assert |sorted| == |multiset(sorted)| == |multiset(store)| == |store|;
    page.model := Some(sorted);
    page.SetPage();
    return Success(true);
  }

  /** Sorting loses and adds no group: the model shows exactly the groups the favorites map to. */
  lemma FetchedModelHoldsEveryGroup(token: Option<string>, authenticated: bool, reply: Reply,
                                    generate: seq<string> -> seq<Group>, key: string -> int)
    ensures forall g :: g in SortByTitle(generate(RequestedIds(token, authenticated, reply)), key) <==>
                        g in generate(RequestedIds(token, authenticated, reply))
  {
    var groups := generate(RequestedIds(token, authenticated, reply));
    SortByTitleCorrect(groups, key);
    forall g ensures g in SortByTitle(groups, key) <==> g in groups {
      assert g in SortByTitle(groups, key) <==> g in multiset(SortByTitle(groups, key));
      assert g in groups <==> g in multiset(groups);
    }
  }

  /** Signed out, or with a reply that is not an array, the application map is asked for nothing. */
  lemma NoFavoritesWithoutArray(token: Option<string>, authenticated: bool, reply: Reply)
    requires token.None? || !authenticated || !reply.Favorites?
    ensures RequestedIds(token, authenticated, reply) == []
  {
  }

  // ---------------------------------------------------------------------
  // Activating a tile

  datatype TileOutcome = Rejected | Shown(entry: Entry) | ErrorShown(message: string) | Quiet

  /**
   * Once the page, its model, the window and the group are there: the
   * resolver over installed entries, else the first of a fresh copy; only
   * that copy's failure is reported.
   */
  function Activation(fetched: Fetch, response: Option<string>, refetched: Fetch): TileOutcome
  {
    match EntryGroupUtil.Resolve(fetched, None, true, response)
    case Found(e) => Shown(e)
    case Missing(_) =>
      match refetched
      case Failure(err) => ErrorShown(err.message)
      case Success(entries) => if entries == [] then Quiet else Shown(entries[0])
  }

  /** tile_activated_fiber. `tileAlive` is the weak reference; `page` the tile's ancestor page. */
  method TileActivatedFiber(tileAlive: bool, page: Page?, hasWindow: bool, group: Option<Group>,
                            fetched: Fetch, response: Option<string>, refetched: Fetch)
    returns (outcome: TileOutcome, shown: Option<EntryGroupUtil.ChoiceDialog>)
    ensures !tileAlive ==> outcome == Rejected && shown == None
    ensures tileAlive && (page == null || page.model.None? || !hasWindow || group.None?) ==>
              outcome == Quiet && shown == None
    ensures tileAlive && page != null && page.model.Some? && hasWindow && group.Some? ==>
              outcome == Activation(fetched, response, refetched) &&
              shown == EntryGroupUtil.Prompt(fetched, None, true)
  {
    shown := None;
    if !tileAlive {
      return Rejected, None;
    }
    if page == null || page.model.None? || !hasWindow || group.None? {
      return Quiet, None;
    }
    var lookup;
    lookup, shown := EntryGroupUtil.FindEntry(fetched, None, true, response);
    if lookup.Found? {
      return Shown(lookup.entry), shown;
    }
    if refetched.Failure? {
      return ErrorShown(refetched.error.message), shown;
    }
    if |refetched.value| == 0 {
      return Quiet, shown;
    }
    outcome := Shown(refetched.value[0]);
  }

  /**
   * Activating a tile shows the same entry as the tile's own find_entry with
   * no test, but an empty group is silent rather than an error.
   */
  lemma ActivationAgreesWithFind(fetched: Fetch, response: Option<string>, refetched: Fetch)
    ensures forall e :: Activation(fetched, response, refetched) == Shown(e) <==>
                        FavoritesTile.Find(fetched, None, response, refetched) == Success(e)
    ensures Activation(fetched, response, refetched) == Quiet <==>
            refetched.Success? &&
            FavoritesTile.Find(fetched, None, response, refetched) ==
              Failure(Error(IoNotFound, FavoritesTile.NoEntriesMessage))
  {
  }

  /** The only error a tile activation reports is the second fetch's. */
  lemma ActivationReportsOnlyRefetchError(fetched: Fetch, response: Option<string>, refetched: Fetch)
    requires Activation(fetched, response, refetched).ErrorShown?
    ensures refetched.Failure? && Activation(fetched, response, refetched).message == refetched.error.message
    ensures EntryGroupUtil.Resolve(fetched, None, true, response).Missing?
  {
  }
}
