/**
 * A tile of the favorites page (bz-favorites-tile.c): its install/remove and
 * support buttons, which first go through the group resolver and then fall
 * back to a scan of all the group's entries, and its unfavorite button, which
 * sends an authenticated DELETE and hides the tile's row on success.
 */
module FavoritesTile {
  import opened Wrappers
  import opened Entries
  import EntryGroupUtil

  const NoEntriesMessage := "No entries found in group"
  const NoMatchMessage := "No entry matching criteria found"

  /** test_is_support: the entry has a donation URL. */
  predicate IsSupport(e: Entry)
  {
    e.donationUrl.Some?
  }

  /** The install/remove button's icon and tooltip follow the group's removable count. */
  function InstallRemoveIcon(removable: int): string
  {
    if removable > 0 then "user-trash-symbolic" else "document-save-symbolic"
  }

  function InstallRemoveTooltip(removable: int): string
  {
    if removable > 0 then "Uninstall" else "Install"
  }

  // ---------------------------------------------------------------------
  // find_entry: the resolver, then a scan of a fresh copy of the entries

  /** The first entry the predicate accepts, installed or not. */
  function FirstPassing(entries: seq<Entry>, f: Entry -> bool): (r: Option<Entry>)
    ensures r.None? <==> forall i :: 0 <= i < |entries| ==> !f(entries[i])
    ensures r.Some? ==> exists i :: 0 <= i < |entries| && entries[i] == r.value && f(r.value) &&
                                    forall j :: 0 <= j < i ==> !f(entries[j])
  {
    if entries == [] then None
    else if f(entries[0]) then Some(entries[0])
    else
      var r := FirstPassing(entries[1..], f);
      assert forall i :: 0 < i < |entries| ==> entries[i] == entries[1..][i - 1];
      r
  }

  /** The fallback once the resolver produced nothing: its error, if any, is dropped. */
  function Fallback(refetched: Fetch, test: Test): Result<Entry, Error>
  {
    match refetched
    case Failure(err) => Failure(err)
    case Success(entries) =>
      match test
      case None =>
        if entries == [] then Failure(Error(IoNotFound, NoEntriesMessage)) else Success(entries[0])
      case Some(f) =>
        match FirstPassing(entries, f)
        case Some(e) => Success(e)
        case None => Failure(Error(IoNotFound, NoMatchMessage))
  }

  /**
   * What find_entry yields. `fetched` and `refetched` are the two copies of
   * the group's entries it awaits; the tile always has a window.
   */
  function Find(fetched: Fetch, test: Test, response: Option<string>, refetched: Fetch): Result<Entry, Error>
  {
    match EntryGroupUtil.Resolve(fetched, test, true, response)
    case Found(e) => Success(e)
    case Missing(_) => Fallback(refetched, test)
  }

  /** The scan of the fallback. */
  method ScanFirst(entries: seq<Entry>, f: Entry -> bool) returns (r: Option<Entry>)
    ensures r == FirstPassing(entries, f)
  {
    var i := 0;
    while i < |entries|
      invariant 0 <= i <= |entries|
      invariant FirstPassing(entries[i..], f) == FirstPassing(entries, f)
    {
      if f(entries[i]) {
        return Some(entries[i]);
      }
      assert entries[i..][1..] == entries[i + 1..];
      i := i + 1;
    }
    return None;
  }

  method FindEntry(fetched: Fetch, test: Test, response: Option<string>, refetched: Fetch)
    returns (r: Result<Entry, Error>, shown: Option<EntryGroupUtil.ChoiceDialog>)
    ensures r == Find(fetched, test, response, refetched)
    ensures shown == EntryGroupUtil.Prompt(fetched, test, true)
  {
    var lookup;
    lookup, shown := EntryGroupUtil.FindEntry(fetched, test, true, response);
    if lookup.Found? {
      return Success(lookup.entry), shown;
    }
    if refetched.Failure? {
      return Failure(refetched.error), shown;
    }
    var entries := refetched.value;
    if test.None? {
      if |entries| == 0 {
        return Failure(Error(IoNotFound, NoEntriesMessage)), shown;
      }
      return Success(entries[0]), shown;
    }
    var m := ScanFirst(entries, test.value);
    if m.Some? {
      r := Success(m.value);
    } else {
      r := Failure(Error(IoNotFound, NoMatchMessage));
    }
  }

  /** Whatever find_entry returns passes the test and comes from one of the two copies. */
  lemma FindPassesTest(fetched: Fetch, test: Test, response: Option<string>, refetched: Fetch)
    requires Find(fetched, test, response, refetched).Success?
    ensures var e := Find(fetched, test, response, refetched).value;
            Accepts(test, e) &&
            ((fetched.Success? && e in fetched.value) || (refetched.Success? && e in refetched.value))
  {
    var e := Find(fetched, test, response, refetched).value;
    var lookup := EntryGroupUtil.Resolve(fetched, test, true, response);
    if lookup.Found? {
      EntryGroupUtil.FoundQualifies(fetched, test, true, response);
    }
  }

  /** find_entry fails only with the second fetch's error or a not-found error. */
  lemma FindFailsNotFound(fetched: Fetch, test: Test, response: Option<string>, refetched: Fetch)
    requires Find(fetched, test, response, refetched).Failure?
    ensures var err := Find(fetched, test, response, refetched).error;
            (refetched.Failure? && err == refetched.error) ||
            (refetched.Success? && err.kind == IoNotFound &&
             err.message == (if test.None? then NoEntriesMessage else NoMatchMessage))
  {
  }

  /** The fallback finds the first passing entry even when it is not installed. */
  lemma {:induction false} FallbackIgnoresInstallState(fetched: Fetch, f: Entry -> bool, response: Option<string>, entries: seq<Entry>)
    requires fetched.Success? && forall e :: e in fetched.value ==> !e.installed
    requires exists i :: 0 <= i < |entries| && f(entries[i])
    ensures Find(fetched, Some(f), response, Success(entries)) == Success(FirstPassing(entries, f).value)
  {
    EntryGroupUtil.NoneQualify(fetched.value, Some(f));
    EntryGroupUtil.NoCandidateSetsUnknown(fetched.value, Some(f), true, response);
  }

  // ---------------------------------------------------------------------
  // The fibers

  /** What a tile's fiber ends with. */
  datatype Effect =
    | Emit(remove: bool, entry: Entry)   // the page's "install" or "remove" signal
    | Launch(uri: string)                // the donation page opened
    | ShowError(message: string)
    | Nothing

  /**
   * install_remove_fiber: a removable group goes through the resolver alone
   * (among installed entries); otherwise through find_entry (any entry).
   */
  method InstallRemoveFiber(group: Group, fetched: Fetch, response: Option<string>, refetched: Fetch)
    returns (effect: Effect)
    ensures group.removable > 0 ==>
      effect == match EntryGroupUtil.Resolve(fetched, None, true, response)
                case Found(e) => Emit(true, e)
                case Missing(Some(err)) => ShowError(err.message)
                case Missing(None) => Nothing
    ensures group.removable <= 0 ==>
      effect == match Find(fetched, None, response, refetched)
                case Success(e) => Emit(false, e)
                case Failure(err) => ShowError(err.message)
    ensures effect.Emit? ==> (effect.remove <==> InstallRemoveTooltip(group.removable) == "Uninstall")
    ensures effect.Emit? ==> (effect.remove <==> InstallRemoveIcon(group.removable) == "user-trash-symbolic")
    ensures effect.Emit? && effect.remove ==> effect.entry.installed
  {
    if group.removable > 0 {
      var lookup, _ := EntryGroupUtil.FindEntry(fetched, None, true, response);
      match lookup {
        case Found(e) =>
          EntryGroupUtil.FoundQualifies(fetched, None, true, response);
          effect := Emit(true, e);
        case Missing(err) => effect := if err.Some? then ShowError(err.value.message) else Nothing;
      }
    } else {
      var r, _ := FindEntry(fetched, None, response, refetched);
      effect := if r.Success? then Emit(false, r.value) else ShowError(r.error.message);
    }
  }

  /** support_fiber: open the donation URL of the entry find_entry picks. */
  method SupportFiber(group: Group, fetched: Fetch, response: Option<string>, refetched: Fetch)
    returns (effect: Effect)
    ensures match Find(fetched, Some(IsSupport), response, refetched)
            case Success(e) => e.donationUrl.Some? && effect == Launch(e.donationUrl.value)
            case Failure(err) => effect == ShowError(err.message)
  {
    var r, _ := FindEntry(fetched, Some(IsSupport), response, refetched);
    if r.Failure? {
      return ShowError(r.error.message);
    }
    FindPassesTest(fetched, Some(IsSupport), response, refetched);
    effect := Launch(r.value.donationUrl.value);
  }

  // ---------------------------------------------------------------------
  // Unfavoriting

  /** The authenticated DELETE the tile sends. */
  datatype Delete = Delete(path: string, token: string)

  /** A missing group prints as "(null)", as g_strdup_printf does with a NULL string. */
  function UnfavoritePath(group: Option<Group>): string
  {
    "/favorites/" + (if group.Some? then group.value.id else "(null)") + "/remove"
  }

  class Tile {
    var group: Option<Group>
    var unfavoriteStack: string    // "button" or "spinner"
    var revealed: bool             // the parent revealer's reveal-child
    var overflowHidden: bool       // the parent revealer's overflow
    var rowHidden: bool            // the row carries the "hidden" class

    constructor ()
      ensures group == None && unfavoriteStack == "button"
      ensures revealed && !overflowHidden && !rowHidden
    {
      group := None;
      unfavoriteStack := "button";
      revealed := true;
      overflowHidden := false;
      rowHidden := false;
    }

    /** bz_favorites_tile_set_group */
    method SetGroup(g: Option<Group>)
      modifies this`group
      ensures group == g
    {
      group := g;
    }

    /** unfavorite_cb: the spinner shows while the request is in flight. */
    method UnfavoriteClicked()
      modifies this`unfavoriteStack
      ensures unfavoriteStack == "spinner"
    {
      unfavoriteStack := "spinner";
    }

    /**
     * unfavorite_fiber. Without an ancestor page, a state, a token or an
     * authenticated session, nothing is sent and nothing changes (the
     * spinner stays). A failed DELETE brings the button back and shows the
     * error when there is a window; a successful one hides the row.
     */
    method UnfavoriteFiber(onPage: bool, hasState: bool, token: Option<string>, authenticated: bool,
                           hasWindow: bool, deleted: Outcome<Error>)
      returns (sent: Option<Delete>, shownError: Option<string>)
      modifies this`unfavoriteStack, this`revealed, this`overflowHidden, this`rowHidden
      ensures !(onPage && hasState && token.Some? && authenticated) ==>
        sent == None && shownError == None &&
        unfavoriteStack == old(unfavoriteStack) && revealed == old(revealed) &&
        overflowHidden == old(overflowHidden) && rowHidden == old(rowHidden)
      ensures onPage && hasState && token.Some? && authenticated ==>
        sent == Some(Delete(UnfavoritePath(group), token.value))
      ensures onPage && hasState && token.Some? && authenticated && deleted.Fail? ==>
        unfavoriteStack == "button" &&
        shownError == (if hasWindow then Some(deleted.error.message) else None) &&
        revealed == old(revealed) && overflowHidden == old(overflowHidden) && rowHidden == old(rowHidden)
      ensures onPage && hasState && token.Some? && authenticated && deleted.Pass? ==>
        shownError == None && unfavoriteStack == old(unfavoriteStack) &&
        !revealed && overflowHidden && rowHidden
    {
      sent, shownError := None, None;
      if !onPage || !hasState {
        return;
      }
      if token.None? || !authenticated {
        return;
      }
      sent := Some(Delete(UnfavoritePath(group), token.value));
      if deleted.Fail? {
        unfavoriteStack := "button";
        if hasWindow {
          shownError := Some(deleted.error.message);
        }
      } else {
        overflowHidden := true;
        revealed := false;
        rowHidden := true;
      }
    }
  }
}
