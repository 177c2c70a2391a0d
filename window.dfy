/**
 * The transaction-confirmation flow of the main window (bz-window.c): the
 * busy guard, the variant filter and the radio layout of the confirmation
 * dialog, the auto-confirm bypass, the choice of the entry, the transaction
 * it builds, and the user-data reap that follows a successful removal.
 */
module Window {
  import opened Wrappers
  import opened Entries

  const BusyToast := "Can't do that right now!"
  const InstallResponse := "install"
  const RemoveResponse := "remove"
  const CancelResponse := "cancel"

  /** A transaction is asked for either a whole group or one concrete entry. */
  datatype Target = OfGroup(group: Group) | OfEntry(entry: Entry)

  /** What try_transact hands to the transaction fiber. `source` is the widget the request came from. */
  datatype Request = Request(target: Target, remove: bool, autoConfirm: bool, source: Option<nat>)

  /** A BzTransaction: what to install, update and remove. */
  datatype Transaction = Transaction(installs: seq<Entry>, updates: seq<Entry>, removals: seq<Entry>)

  /** A request to delete an application's user data. */
  datatype Reap = ReapGroup(groupId: string) | ReapId(id: string)

  /** A radio button of the confirmation dialog, and whether it starts active. */
  datatype RadioRole = Variant(uniqueId: string) | KeepData | DeleteData
  datatype Radio = Radio(role: RadioRole, initiallyActive: bool)

  /**
   * The state the user leaves the radios in: the index of the active variant
   * radio, and whether "Delete Data" is active. An index that does not name a
   * variant radio leaves the variant radios as they started.
   */
  datatype Choice = Choice(variant: nat, deleteData: bool)

  datatype Appearance = Suggested | Destructive

  /** The confirmation dialog as configured: copy, responses, and the radios it embeds. */
  datatype Alert = Alert(
    heading: string,
    body: string,
    responses: seq<string>,
    primary: string,
    appearance: Appearance,
    closeResponse: string,
    radios: seq<Radio>)

  /** How a fiber's future settles; Gone when the window was destroyed before it ran. */
  datatype FiberResult = Gone | Resolved(value: bool) | Failed(error: Error)

  // ---------------------------------------------------------------------
  // The variant filter

  /** A variant is skipped when it is holding or its install state does not fit the direction. */
  predicate ShouldSkip(e: Entry, remove: bool)
  {
    if e.holding then true
    else (!remove && e.installed) || (remove && !e.installed)
  }

  /** The store's entries that survive the filter, in store order. */
  function Retained(entries: seq<Entry>, remove: bool): seq<Entry>
  {
    if entries == [] then []
    else
      var last := entries[|entries| - 1];
      Retained(entries[..|entries| - 1], remove) + (if ShouldSkip(last, remove) then [] else [last])
  }

  /** Exactly the entries that are not holding and whose installed flag equals `remove` survive. */
  lemma {:induction false} RetainedExactly(entries: seq<Entry>, remove: bool)
    ensures forall e :: e in Retained(entries, remove) <==> e in entries && !e.holding && e.installed == remove
  {
    if entries != [] {
      RetainedExactly(entries[..|entries| - 1], remove);
      assert entries == entries[..|entries| - 1] + [entries[|entries| - 1]];
    }
  }

  /** The survivors keep their relative order. */
  lemma {:induction false} RetainedInStoreOrder(entries: seq<Entry>, remove: bool)
    ensures IsSubsequence(Retained(entries, remove), entries)
  {
    if entries != [] {
      var init := entries[..|entries| - 1];
      var last := entries[|entries| - 1];
      RetainedInStoreOrder(init, remove);
      var r := Retained(init, remove);
      assert entries == init + [last];
      if ShouldSkip(last, remove) {
        assert Retained(entries, remove) == r;
        SubsequenceOfExtension(r, init, last);
      } else {
        assert (r + [last])[..|r + [last]| - 1] == r;
      }
    }
  }

  /** Each surviving entry stays in the store as often as it occurs, any other not at all. */
  lemma {:induction false} RetainedCopies(entries: seq<Entry>, remove: bool, e: Entry)
    ensures multiset(Retained(entries, remove))[e] == if ShouldSkip(e, remove) then 0 else multiset(entries)[e]
  {
    if entries != [] {
      var init := entries[..|entries| - 1];
      var last := entries[|entries| - 1];
      RetainedCopies(init, remove, e);
      assert entries == init + [last];
    }
  }

  /** A GListStore of entries that the flow filters in place. */
  class EntryStore {
    var items: seq<Entry>

    constructor (items: seq<Entry>)
      ensures this.items == items
    {
      this.items := items;
    }

    /** g_list_store_remove */
    method Remove(i: nat)
      requires i < |items|
      modifies this
      ensures items == old(items[..i] + items[i + 1..])
    {
      items := items[..i] + items[i + 1..];
    }

    /** Removes each skipped entry in place, re-reading the same index after a removal. */
    method Filter(remove: bool)
      modifies this
      ensures items == Retained(old(items), remove)
    {
      ghost var original := items;
      ghost var j := 0;
      var i := 0;
      while i < |items|
        invariant 0 <= i <= |items| && 0 <= j <= |original|
        invariant items[..i] == Retained(original[..j], remove)
        invariant items[i..] == original[j..]
        decreases |items| - i
      {
        assert original[..j + 1][..j] == original[..j];
        assert items[i] == items[i..][0] == original[j];
        if ShouldSkip(items[i], remove) {
          Remove(i);
          assert items[i..] == original[j + 1..];
        } else {
          assert items[..i + 1] == items[..i] + [items[i]];
          i := i + 1;
        }
        j := j + 1;
      }
      assert original[..j] == original;
      assert items[..i] == items;
    }
  }

  // ---------------------------------------------------------------------
  // The radios of the confirmation dialog

  /** One radio per variant when there are two or more; the first starts active. */
  function VariantRadios(variants: seq<Entry>): seq<Radio>
  {
    if |variants| > 1
    then seq(|variants|, i requires 0 <= i < |variants| => Radio(Variant(variants[i].uniqueId), i == 0))
    else []
  }

  /** On removal, "Keep Data" (active) and "Delete Data". */
  function DataRadios(remove: bool): seq<Radio>
  {
    if remove then [Radio(KeepData, true), Radio(DeleteData, false)] else []
  }

  function Layout(variants: seq<Entry>, remove: bool): seq<Radio>
  {
    VariantRadios(variants) + DataRadios(remove)
  }

  /** n variant radios when n > 1, none otherwise, plus two on removal; the first variant and Keep Data start active. */
  lemma LayoutShape(variants: seq<Entry>, remove: bool)
    ensures var radios := Layout(variants, remove);
            var n := if |variants| > 1 then |variants| else 0;
            && |radios| == n + (if remove then 2 else 0)
            && (forall i :: 0 <= i < n ==> radios[i] == Radio(Variant(variants[i].uniqueId), i == 0))
            && (remove ==> radios[n] == Radio(KeepData, true) && radios[n + 1] == Radio(DeleteData, false))
  {
  }

  /** The radios of the dialog, laid out over the store once it has been filtered. */
  method CreateEntryRadioButtons(store: EntryStore?, remove: bool) returns (radios: seq<Radio>)
    modifies store
    ensures store != null ==> store.items == Retained(old(store.items), remove)
    ensures radios == Layout(if store == null then [] else store.items, remove)
  {
    radios := [];
    if store != null {
      store.Filter(remove);
      radios := BuildVariantRadios(store.items);
    }
    if remove {
      radios := radios + [Radio(KeepData, true), Radio(DeleteData, false)];
    }
  }

  /** One radio per valid variant when there are at least two, the first one active. */
  method BuildVariantRadios(items: seq<Entry>) returns (radios: seq<Radio>)
    ensures radios == VariantRadios(items)
  {
    radios := [];
    if |items| > 1 {
      var k := 0;
      while k < |items|
        invariant 0 <= k <= |items|
        invariant |radios| == k
        invariant forall m :: 0 <= m < k ==> radios[m] == Radio(Variant(items[m].uniqueId), m == 0)
      {
        radios := radios + [Radio(Variant(items[k].uniqueId), k == 0)];
        k := k + 1;
      }
    }
  }

  /** The active state of each radio when the response arrives. */
  function RadioStates(radios: seq<Radio>, choice: Choice): (states: seq<bool>)
    ensures |states| == |radios|
  {
    var picked := choice.variant < |radios| && radios[choice.variant].role.Variant?;
    seq(|radios|, i requires 0 <= i < |radios| =>
      match radios[i].role
      case Variant(_) => if picked then i == choice.variant else radios[i].initiallyActive
      case KeepData => !choice.deleteData
      case DeleteData => choice.deleteData)
  }

  // ---------------------------------------------------------------------
  // Choosing the entry

  /** The first index below n whose radio is active. */
  function FirstActive(states: seq<bool>, n: nat): (k: Option<nat>)
    requires n <= |states|
    ensures k.Some? ==> k.value < n && states[k.value] && forall j :: 0 <= j < k.value ==> !states[j]
    ensures k.None? ==> forall j :: 0 <= j < n ==> !states[j]
  {
    if n == 0 then None
    else
      var k := FirstActive(states, n - 1);
      if k.Some? then k else if states[n - 1] then Some(n - 1) else None
  }

  /**
   * The retained entry at the first active radio among the first
   * min(|items|, |states|) radios, else the first retained entry, which is
   * absent when the filter removed everything.
   */
  function Selected(items: seq<Entry>, states: seq<bool>): (r: Option<Entry>)
    ensures r.None? <==> items == []
    ensures r.Some? ==> r.value in items
  {
    var bound := if |items| < |states| then |items| else |states|;
    match FirstActive(states, bound)
    case Some(k) => Some(items[k])
    case None => if |items| > 0 then Some(items[0]) else None
  }

  /** The selection loop of transact_fiber. */
  method SelectEntry(items: seq<Entry>, states: seq<bool>) returns (selected: Option<Entry>)
    ensures selected == Selected(items, states)
  {
    var bound := if |items| < |states| then |items| else |states|;
    selected := None;
    var i := 0;
    while i < bound
      invariant 0 <= i <= bound
      invariant forall j :: 0 <= j < i ==> !states[j]
      invariant selected.None?
    {
      if states[i] {
        selected := Some(items[i]);
        ghost var k := FirstActive(states, bound);
        assert k.Some? && k.value == i;
        return;
      }
      i := i + 1;
    }
    if |items| > 0 {
      selected := Some(items[0]);
    }
  }

  /** What the chosen entry is when the user leaves the radios as chosen. */
  lemma {:induction false} SelectedFollowsChoice(variants: seq<Entry>, remove: bool, choice: Choice)
    requires |variants| > 1
    ensures var radios := Layout(variants, remove);
            Selected(variants, RadioStates(radios, choice)) ==
              Some(variants[if choice.variant < |variants| then choice.variant else 0])
  {
    var radios := Layout(variants, remove);
    var states := RadioStates(radios, choice);
    var n := |variants|;
    LayoutShape(variants, remove);
    var want := if choice.variant < n then choice.variant else 0;
    assert radios[want].role.Variant?;
    assert states[want];
    forall j | 0 <= j < want ensures !states[j] {
      assert radios[j].role.Variant?;
    }
    var k := FirstActive(states, n);
    assert k.Some? && k.value == want;
  }

  // ---------------------------------------------------------------------
  // The dialogs and the transaction

  function AlertFor(title: string, remove: bool, radios: seq<Radio>): Alert
  {
    if remove
    then Alert("Remove " + title + "?",
               "It will not be possible to use " + title + " after it is uninstalled.",
               [CancelResponse, RemoveResponse], RemoveResponse, Destructive, CancelResponse, radios)
    else Alert("Install " + title + "?",
               "May install additional shared components",
               [CancelResponse, InstallResponse], InstallResponse, Suggested, CancelResponse, radios)
  }

  /** The transaction transact builds: the entry in exactly one of the install or remove slots. */
  function TransactionFor(entry: Entry, remove: bool): (t: Transaction)
    ensures t.updates == []
    ensures remove ==> t.installs == [] && t.removals == [entry]
    ensures !remove ==> t.removals == [] && t.installs == [entry]
  {
    if remove then Transaction([], [], [entry]) else Transaction([entry], [], [])
  }

  function TitleOf(t: Target): string
  {
    match t
    case OfGroup(g) => g.title
    case OfEntry(e) => e.title
  }

  /** A group's reap goes through the group; an entry's is keyed by its id. */
  function ReapFor(t: Target): Reap
  {
    match t
    case OfGroup(g) => ReapGroup(g.id)
    case OfEntry(e) => ReapId(e.id)
  }

  /** The flow stops early when the group's entries could not be fetched. */
  predicate FetchFails(req: Request, fetched: Fetch)
  {
    req.target.OfGroup? && fetched.Failure?
  }

  /** The variant store after filtering; an entry request has no store. */
  function Variants(req: Request, fetched: Fetch): seq<Entry>
    requires !FetchFails(req, fetched)
  {
    if req.target.OfGroup? then Retained(fetched.value, req.remove) else []
  }

  /** The auto-confirm bypass. */
  predicate Bypassed(req: Request, radios: seq<Radio>)
  {
    !req.remove && req.autoConfirm && |radios| <= 1
  }

  /** The confirmation dialog the flow presents, if any. */
  function Prompt(req: Request, fetched: Fetch): Option<Alert>
  {
    if FetchFails(req, fetched) then None
    else
      var radios := Layout(Variants(req, fetched), req.remove);
      if Bypassed(req, radios) then None
      else Some(AlertFor(TitleOf(req.target), req.remove, radios))
  }

  /**
   * What transact_fiber decides as written: stop with a result, or call
   * transact with the chosen entry (absent when nothing survived the
   * filter), the direction read from the response, and whether Delete Data
   * was active.
   */
  datatype Decision = Stop(result: FiberResult) | Submit(entry: Option<Entry>, remove: bool, deleteData: bool)

  function Decide(req: Request, fetched: Fetch, response: Result<string, Error>, choice: Choice): (d: Decision)
    ensures d.Stop? && d.result.Failed? ==>
              if FetchFails(req, fetched) then d.result.error == fetched.error
              else response.Failure? && d.result.error == response.error
    ensures d.Submit? ==> !FetchFails(req, fetched)
    ensures d.Submit? && req.target.OfEntry? ==> d.entry == Some(req.target.entry)
    ensures d.Submit? && req.target.OfGroup? ==>
              (d.entry.None? <==> Variants(req, fetched) == []) &&
              (d.entry.Some? ==> d.entry.value in Variants(req, fetched))
  {
    if FetchFails(req, fetched) then Stop(Failed(fetched.error))
    else
      var variants := Variants(req, fetched);
      var radios := Layout(variants, req.remove);
      var bypass := Bypassed(req, radios);
      if !bypass && response.Failure? then Stop(Failed(response.error))
      else
        var answer := if bypass then InstallResponse else response.value;
        var states := RadioStates(if bypass then [] else radios, choice);
        var deleteData := !bypass && req.remove && |radios| >= 2 && states[|radios| - 1];
        if answer != InstallResponse && answer != RemoveResponse then Stop(Resolved(false))
        else
          var entry := if req.target.OfGroup? then Selected(variants, states) else Some(req.target.entry);
          Submit(entry, answer == RemoveResponse, deleteData)
  }

  /** The flow as modelled: no transaction is submitted without an entry. */
  datatype Step = Abort(result: FiberResult) | Dispatch(entry: Entry, remove: bool, reap: Option<Reap>)

  function StepFor(target: Target, d: Decision): Step
  {
    match d
    case Stop(r) => Abort(r)
    case Submit(None, _, _) => Abort(Resolved(false))
    case Submit(Some(e), remove, deleteData) => Dispatch(e, remove, if deleteData then Some(ReapFor(target)) else None)
  }

  function Plan(req: Request, fetched: Fetch, response: Result<string, Error>, choice: Choice): (s: Step)
    ensures var d := Decide(req, fetched, response, choice);
            && (s.Dispatch? <==> d.Submit? && d.entry.Some?)
            && (s.Dispatch? ==> d.entry == Some(s.entry) && s.remove == d.remove && (s.reap.Some? <==> d.deleteData))
            && (d.Stop? ==> s == Abort(d.result))
            && (d.Submit? && d.entry.None? ==> s == Abort(Resolved(false)))
  {
    StepFor(req.target, Decide(req, fetched, response, choice))
  }

  // ---------------------------------------------------------------------
  // The window

  /** The parts of a BzWindow and its state that the flow reads and writes. */
  class AppWindow {
    var hasState: bool
    var busy: bool
    var toasts: seq<string>
    var errors: seq<string>                // messages shown with bz_show_error_for_widget
    var transactions: seq<Transaction>     // what was given to the transaction manager, in order
    var reaps: seq<Reap>
    var mainStack: string                  // visible child of main_stack
    var navigation: seq<Option<string>>    // tags of the navigation stack, the visible page last
    var mainViewStack: string              // visible child of main_view_stack
    var fullViewGroup: Option<Group>
    var flathubStyled: bool

    /**
     * A window as its template leaves it (the main view stack on "flathub",
     * the navigation stack holding only "main"), then set_page for a state
     * that is busy or not.
     */
    constructor (busy: bool)
      ensures hasState && this.busy == busy
      ensures toasts == [] && errors == [] && transactions == [] && reaps == []
      ensures mainViewStack == "flathub" && fullViewGroup == None
      ensures mainStack == (if busy then "loading" else "main")
      ensures navigation == [Some("main")]
    {
      hasState := true;
      this.busy := busy;
      toasts, errors, transactions, reaps := [], [], [], [];
      navigation := [Some("main")];
      mainViewStack := "flathub";
      mainStack := "main";
      fullViewGroup := None;
      flathubStyled := false;
      new;
      SetPage();
    }

    /** The busy guard: with the state busy, a toast and no fiber. */
    method TryTransact(req: Request) returns (spawned: Option<Request>)
      modifies this`toasts
      ensures busy ==> spawned == None && toasts == old(toasts) + [BusyToast]
      ensures !busy ==> spawned == Some(req) && toasts == old(toasts)
    {
      if busy {
        toasts := toasts + [BusyToast];
        return None;
      }
      return Some(req);
    }

    /** transact: build the transaction and hand it to the transaction manager. */
    method Transact(entry: Entry, remove: bool)
      modifies this`transactions
      ensures transactions == old(transactions) + [TransactionFor(entry, remove)]
    {
      var t := if remove then Transaction([], [], [entry]) else Transaction([entry], [], []);
      transactions := transactions + [t];
    }

    /** update: a transaction with only the update slot filled. */
    method Update(updates: seq<Entry>)
      modifies this`transactions
      ensures transactions == old(transactions) + [Transaction([], updates, [])]
    {
      transactions := transactions + [Transaction([], updates, [])];
    }

    /** bz_window_show_group */
    method ShowGroup(group: Group)
      modifies this`fullViewGroup, this`navigation
      ensures fullViewGroup == Some(group)
      ensures navigation == if VisibleTag(old(navigation)) == Some(Some("view")) then old(navigation)
                            else old(navigation) + [Some("view")]
    {
      fullViewGroup := Some(group);
      if VisibleTag(navigation) != Some(Some("view")) {
        navigation := navigation + [Some("view")];
      }
    }

    /** search_widget_select_cb: install or remove the group, or show it. */
    method SearchWidgetSelect(group: Group, shouldInstall: bool) returns (spawned: Option<Request>)
      modifies this`toasts, this`fullViewGroup, this`navigation
      ensures shouldInstall ==> spawned == (if busy then None else Some(RequestFor(SearchSelect(group))))
      ensures shouldInstall ==> toasts == old(toasts) + (if busy then [BusyToast] else [])
      ensures shouldInstall ==> fullViewGroup == old(fullViewGroup) && navigation == old(navigation)
      ensures !shouldInstall ==> spawned == None && toasts == old(toasts) && fullViewGroup == Some(group)
      ensures !shouldInstall ==>
                navigation == if VisibleTag(old(navigation)) == Some(Some("view")) then old(navigation)
                              else old(navigation) + [Some("view")]
    {
      if shouldInstall {
        var remove := group.removable > 0;
        spawned := TryTransact(Request(OfGroup(group), remove, false, None));
      } else {
        spawned := None;
        ShowGroup(group);
      }
    }

    /** set_page */
    method SetPage()
      modifies this`mainStack, this`navigation, this`fullViewGroup
      ensures !hasState ==> mainStack == old(mainStack) && navigation == old(navigation) && fullViewGroup == old(fullViewGroup)
      ensures hasState ==> mainStack == (if busy then "loading" else "main")
      ensures hasState ==> navigation == (if busy then PopToTag(old(navigation), "main") else old(navigation))
      ensures hasState ==> fullViewGroup == (if VisibleTag(navigation) == Some(Some("view")) then old(fullViewGroup) else None)
    {
      if !hasState {
        return;
      }
      if busy {
        mainStack := "loading";
        navigation := PopToTag(navigation, "main");
      } else {
        mainStack := "main";
      }
      if VisibleTag(navigation) != Some(Some("view")) {
        fullViewGroup := None;
      }
    }

    /** update_flathub_style */
    method UpdateFlathubStyle()
      modifies this`flathubStyled
      ensures flathubStyled == FlathubStyled(VisibleTag(navigation), mainViewStack)
    {
      flathubStyled := FlathubStyled(VisibleTag(navigation), mainViewStack);
    }
  }

  /**
   * transact_fiber. The inputs stand for what it awaits: the group's entries,
   * the dialog's response, the state the user left the radios in, and the
   * transaction's outcome.
   */
  method TransactFiber(w: AppWindow?, req: Request, fetched: Fetch, response: Result<string, Error>,
                       choice: Choice, outcome: Outcome<Error>)
    returns (result: FiberResult, presented: Option<Alert>)
    modifies w
    ensures w == null ==> result == Gone && presented == None
    ensures w != null ==> presented == Prompt(req, fetched)
    ensures w != null ==> w.errors == old(w.errors) + (if FetchFails(req, fetched) then [fetched.error.message] else [])
    ensures w != null ==> Settled(w, req.target, Decide(req, fetched, response, choice), outcome, result)
    ensures w != null ==> w.busy == old(w.busy) && w.toasts == old(w.toasts) && w.hasState == old(w.hasState)
    ensures w != null ==> w.navigation == old(w.navigation) && w.fullViewGroup == old(w.fullViewGroup)
    ensures w != null ==>
              w.mainStack == old(w.mainStack) && w.mainViewStack == old(w.mainViewStack) && w.flathubStyled == old(w.flathubStyled)
  {
    if w == null {
      return Gone, None;
    }
    if FetchFails(req, fetched) {
      w.errors := w.errors + [fetched.error.message];
      return Failed(fetched.error), None;
    }
    var d;
    d, presented := Confirm(req, fetched, response, choice);
    result := Finish(w, req.target, d, outcome);
  }

  /**
   * How the fiber settles once it has decided: an abort leaves the logs
   * alone; a dispatch submits its transaction, then reaps only on success.
   */
  twostate predicate Settled(w: AppWindow, target: Target, d: Decision, outcome: Outcome<Error>, result: FiberResult)
    reads w
  {
    match StepFor(target, d)
    case Abort(r) =>
      result == r && w.transactions == old(w.transactions) && w.reaps == old(w.reaps)
    case Dispatch(e, remove, reap) =>
      && w.transactions == old(w.transactions) + [TransactionFor(e, remove)]
      && (outcome.Fail? ==> result == Failed(outcome.error) && w.reaps == old(w.reaps))
      && (outcome.Pass? ==>
            && result == Resolved(true)
            && w.reaps == old(w.reaps) + (if reap.Some? then [reap.value] else []))
  }

  /** The part of transact_fiber up to the call of transact: the store, the radios, the dialog and the selection. */
  method Confirm(req: Request, fetched: Fetch, response: Result<string, Error>, choice: Choice)
    returns (d: Decision, presented: Option<Alert>)
    requires !FetchFails(req, fetched)
    ensures d == Decide(req, fetched, response, choice)
    ensures presented == Prompt(req, fetched)
  {
    presented := None;
    var store: EntryStore? := null;
    if req.target.OfGroup? {
      store := new EntryStore(fetched.value);
    }
    var radios := CreateEntryRadioButtons(store, req.remove);
    assert radios == Layout(Variants(req, fetched), req.remove);

    var deleteUserData := false;
    var dialogResponse: string;
    if !req.remove && req.autoConfirm && |radios| <= 1 {
      dialogResponse := InstallResponse;
      radios := [];
    } else {
      presented := Some(AlertFor(TitleOf(req.target), req.remove, radios));
      if response.Failure? {
        return Stop(Failed(response.error)), presented;
      }
      dialogResponse := response.value;
      if req.remove && |radios| >= 2 {
        deleteUserData := RadioStates(radios, choice)[|radios| - 1];
      }
    }
    var states := RadioStates(radios, choice);

    var shouldInstall := dialogResponse == InstallResponse;
    var shouldRemove := dialogResponse == RemoveResponse;
    if !shouldInstall && !shouldRemove {
      return Stop(Resolved(false)), presented;
    }

    var selected: Option<Entry>;
    if store != null {
      selected := SelectEntry(store.items, states);
    } else {
      selected := Some(req.target.entry);
    }
    d := Submit(selected, shouldRemove, deleteUserData);
  }

  /** The rest of transact_fiber: the transaction, its outcome, and the reap after a successful removal. */
  method Finish(w: AppWindow, target: Target, d: Decision, outcome: Outcome<Error>) returns (result: FiberResult)
    modifies w`transactions, w`reaps
    ensures Settled(w, target, d, outcome, result)
  {
    match d {
      case Stop(r) =>
        return r;
      case Submit(selected, remove, deleteData) =>
        if selected.None? {
          return Resolved(false);
        }
        w.Transact(selected.value, remove);
        if outcome.Fail? {
          return Failed(outcome.error);
        }
        if deleteData {
          w.reaps := w.reaps + [ReapFor(target)];
        }
        return Resolved(true);
    }
  }

  /**
   * One user action end to end: the busy guard, then, when it lets the
   * request through, the transaction fiber.
   */
  method Attempt(w: AppWindow, req: Request, fetched: Fetch, response: Result<string, Error>,
                 choice: Choice, outcome: Outcome<Error>)
    returns (result: Option<FiberResult>, presented: Option<Alert>)
    modifies w
    ensures old(w.busy) ==> result == None && presented == None && w.toasts == old(w.toasts) + [BusyToast]
    ensures old(w.busy) ==> w.transactions == old(w.transactions) && w.reaps == old(w.reaps) && w.errors == old(w.errors)
    ensures !old(w.busy) ==> result.Some? && presented == Prompt(req, fetched) && w.toasts == old(w.toasts)
    ensures !old(w.busy) ==> w.errors == old(w.errors) + (if FetchFails(req, fetched) then [fetched.error.message] else [])
    ensures !old(w.busy) ==> Settled(w, req.target, Decide(req, fetched, response, choice), outcome, result.value)
    ensures w.busy == old(w.busy) && w.hasState == old(w.hasState)
    ensures w.navigation == old(w.navigation) && w.fullViewGroup == old(w.fullViewGroup)
    ensures w.mainStack == old(w.mainStack) && w.mainViewStack == old(w.mainViewStack) && w.flathubStyled == old(w.flathubStyled)
  {
    var spawned := w.TryTransact(req);
    if spawned.None? {
      return None, None;
    }
    var r;
    r, presented := TransactFiber(w, spawned.value, fetched, response, choice, outcome);
    result := Some(r);
  }

  // ---------------------------------------------------------------------
  // Who asks for what

  /** The window callbacks that start the flow. */
  datatype Trigger =
    | SearchSelect(group: Group)                       // search result activated for install
    | FullViewInstall(group: Group, source: Option<nat>)
    | FullViewRemove(group: Group, source: Option<nat>)
    | InstallAddon(entry: Entry)
    | RemoveAddon(entry: Entry)
    | InstallEntry(entry: Entry)                       // a favorites tile's "install"
    | RemoveInstalled(entry: Entry)                    // an installed or favorites tile's "remove"

  /** The direction, auto-confirm flag and source each callback passes to try_transact. */
  function RequestFor(t: Trigger): (r: Request)
    ensures r.target.OfGroup? <==> t.SearchSelect? || t.FullViewInstall? || t.FullViewRemove?
    ensures r.target.OfGroup? ==> r.target.group == t.group
    ensures r.target.OfEntry? ==> r.target.entry == t.entry
    ensures r.source.Some? ==> t.FullViewInstall? || t.FullViewRemove?
    ensures t.FullViewInstall? || t.FullViewRemove? ==> r.source == t.source
    ensures r.remove <==> t.FullViewRemove? || t.RemoveAddon? || t.RemoveInstalled? || (t.SearchSelect? && t.group.removable > 0)
    ensures r.autoConfirm <==> t.FullViewInstall? || t.InstallAddon? || t.RemoveAddon?
  {
    match t
    case SearchSelect(g) => Request(OfGroup(g), g.removable > 0, false, None)
    case FullViewInstall(g, source) => Request(OfGroup(g), false, true, source)
    case FullViewRemove(g, source) => Request(OfGroup(g), true, false, source)
    case InstallAddon(e) => Request(OfEntry(e), false, true, None)
    case RemoveAddon(e) => Request(OfEntry(e), true, true, None)
    case InstallEntry(e) => Request(OfEntry(e), false, false, None)
    case RemoveInstalled(e) => Request(OfEntry(e), true, false, None)
  }

  /** The search result asks to remove the group iff it has removable entries. */
  lemma SearchSelectDirection(g: Group)
    ensures RequestFor(SearchSelect(g)).remove <==> g.removable > 0
    ensures !RequestFor(SearchSelect(g)).autoConfirm
  {
  }

  /** Installing an add-on never asks; removing one always does, auto-confirm notwithstanding. */
  lemma AddonPrompts(e: Entry, fetched: Fetch)
    ensures Prompt(RequestFor(InstallAddon(e)), fetched) == None
    ensures Prompt(RequestFor(RemoveAddon(e)), fetched).Some?
  {
    LayoutShape([], false);
    RemoveAlwaysPrompts(RequestFor(RemoveAddon(e)), fetched);
  }

  /** A tile's "install" asks for confirmation, unlike the full view's install button for a single variant. */
  lemma InstallEntryAsks(e: Entry, fetched: Fetch)
    ensures Prompt(RequestFor(InstallEntry(e)), fetched).Some?
  {
  }

  // ---------------------------------------------------------------------
  // Navigation helpers

  function VisibleTag(navigation: seq<Option<string>>): Option<Option<string>>
  {
    if navigation == [] then None else Some(navigation[|navigation| - 1])
  }

  function IndexOfTag(navigation: seq<Option<string>>, tag: string): (k: Option<nat>)
    ensures k.Some? ==> k.value < |navigation| && navigation[k.value] == Some(tag)
    ensures k.None? ==> Some(tag) !in navigation
  {
    if navigation == [] then None
    else if navigation[0] == Some(tag) then Some(0)
    else
      var k := IndexOfTag(navigation[1..], tag);
      if k.Some? then Some(k.value + 1) else None
  }

  /** adw_navigation_view_pop_to_tag: pop until the page with the tag is visible. */
  function PopToTag(navigation: seq<Option<string>>, tag: string): (r: seq<Option<string>>)
    ensures Some(tag) in navigation ==> VisibleTag(r) == Some(Some(tag))
    ensures Some(tag) !in navigation ==> r == navigation
  {
    match IndexOfTag(navigation, tag)
    case Some(k) => navigation[..k + 1]
    case None => navigation
  }

  /** `sub` occurs in `s` (strstr). */
  predicate Contains(s: string, sub: string)
    decreases |s|
  {
    if |sub| > |s| then false
    else sub == s[..|sub|] || (s != [] && Contains(s[1..], sub))
  }

  /** The |sub| characters of `s` starting at i are `sub`. */
  predicate WindowAt(s: string, sub: string, i: int)
  {
    0 <= i && i + |sub| <= |s| && s[i..i + |sub|] == sub
  }

  /** Contains agrees with a search for a window of `s` equal to `sub`. */
  lemma {:induction false} ContainsFindsWindow(s: string, sub: string)
    ensures Contains(s, sub) <==> exists i :: WindowAt(s, sub, i)
    decreases |s|
  {
    if |sub| > |s| {
    } else if sub == s[..|sub|] {
      assert WindowAt(s, sub, 0);
    } else {
      // A mismatch at the front leaves only the windows of s[1..].
      ContainsFindsWindow(s[1..], sub);
      if Contains(s[1..], sub) {
        var i :| WindowAt(s[1..], sub, i);
        assert s[1..][i..i + |sub|] == s[i + 1..i + 1 + |sub|];
        assert WindowAt(s, sub, i + 1);
      }
      if exists i :: WindowAt(s, sub, i) {
        var i :| WindowAt(s, sub, i);
        assert i != 0;
        assert s[1..][i - 1..i - 1 + |sub|] == s[i..i + |sub|];
        assert WindowAt(s[1..], sub, i - 1);
      }
    }
  }

  /**
   * The window takes the "flathub" style when the visible page's tag mentions
   * flathub, or when it is the main page showing the flathub child.
   */
  function FlathubStyled(visible: Option<Option<string>>, stackPage: string): bool
  {
    match visible
    case None => false
    case Some(None) => false
    case Some(Some(tag)) => Contains(tag, "flathub") || (tag == "main" && stackPage == "flathub")
  }

  // ---------------------------------------------------------------------
  // Properties of the flow

  /** Removing always presents the dialog (when the entries could be fetched). */
  lemma RemoveAlwaysPrompts(req: Request, fetched: Fetch)
    requires req.remove && !FetchFails(req, fetched)
    ensures Prompt(req, fetched).Some?
    ensures var radios := Prompt(req, fetched).value.radios;
            |radios| >= 2 && radios[|radios| - 2] == Radio(KeepData, true) && radios[|radios| - 1] == Radio(DeleteData, false)
  {
    LayoutShape(Variants(req, fetched), req.remove);
  }

  /** The dialog is skipped, with "install" as its response, iff the bypass applies. */
  lemma {:induction false} AutoConfirmBypass(req: Request, fetched: Fetch, response: Result<string, Error>, choice: Choice)
    requires !FetchFails(req, fetched)
    ensures var radios := Layout(Variants(req, fetched), req.remove);
            Prompt(req, fetched).None? <==> !req.remove && req.autoConfirm && |radios| <= 1
    ensures Prompt(req, fetched).None? ==>
              Decide(req, fetched, response, choice) == Decide(req, fetched, Success(InstallResponse), choice) &&
              Decide(req, fetched, response, choice).Submit? &&
              !Decide(req, fetched, response, choice).remove &&
              !Decide(req, fetched, response, choice).deleteData
  {
    var variants := Variants(req, fetched);
    LayoutShape(variants, req.remove);
  }

  /** Any response but "install" or "remove" ends the flow with false: no transaction, no reap. */
  lemma UnrecognisedResponseDeclines(req: Request, fetched: Fetch, answer: string, choice: Choice)
    requires Prompt(req, fetched).Some?
    requires answer != InstallResponse && answer != RemoveResponse
    ensures Plan(req, fetched, Success(answer), choice) == Abort(Resolved(false))
  {
  }

  /** A response the dialog offers keeps the direction that was asked for. */
  lemma OfferedResponseKeepsDirection(req: Request, fetched: Fetch, answer: string, choice: Choice)
    requires Prompt(req, fetched).Some? && answer in Prompt(req, fetched).value.responses
    requires Plan(req, fetched, Success(answer), choice).Dispatch?
    ensures Plan(req, fetched, Success(answer), choice).remove == req.remove
  {
  }

  /** A group's transaction only ever targets a variant that survived the filter. */
  lemma PlanDispatchesEligibleVariant(req: Request, fetched: Fetch, response: Result<string, Error>, choice: Choice)
    requires req.target.OfGroup? && Plan(req, fetched, response, choice).Dispatch?
    ensures fetched.Success?
    ensures var e := Plan(req, fetched, response, choice).entry;
            e in fetched.value && !e.holding && e.installed == req.remove
  {
    var variants := Variants(req, fetched);
    var radios := Layout(variants, req.remove);
    var bypass := Bypassed(req, radios);
    var states := RadioStates(if bypass then [] else radios, choice);
    RetainedExactly(fetched.value, req.remove);
    var sel := Selected(variants, states);
    assert sel.Some? && sel.value in variants;
  }

  /** With two or more variants, the one whose radio the user left active is the one transacted. */
  lemma ChosenVariantTransacted(req: Request, fetched: Fetch, answer: string, choice: Choice)
    requires req.target.OfGroup? && fetched.Success?
    requires |Retained(fetched.value, req.remove)| > 1
    requires answer == InstallResponse || answer == RemoveResponse
    ensures var variants := Retained(fetched.value, req.remove);
            Plan(req, fetched, Success(answer), choice).Dispatch? &&
            Plan(req, fetched, Success(answer), choice).entry ==
              variants[if choice.variant < |variants| then choice.variant else 0]
  {
    SelectedFollowsChoice(Retained(fetched.value, req.remove), req.remove, choice);
    LayoutShape(Retained(fetched.value, req.remove), req.remove);
  }

  /**
   * A reap is planned only on the removal path, after the dialog was shown
   * with Delete Data active, and it is keyed by the group or by the entry's id.
   */
  lemma ReapOnlyWhenDeleteChosen(req: Request, fetched: Fetch, response: Result<string, Error>, choice: Choice)
    requires Plan(req, fetched, response, choice).Dispatch? && Plan(req, fetched, response, choice).reap.Some?
    ensures req.remove && choice.deleteData && Prompt(req, fetched).Some?
    ensures Plan(req, fetched, response, choice).reap.value == ReapFor(req.target)
  {
    var variants := Variants(req, fetched);
    LayoutShape(variants, req.remove);
  }

  /** Removing with Delete Data active and the "remove" response plans a reap. */
  lemma DeleteChosenPlansReap(req: Request, fetched: Fetch, choice: Choice)
    requires req.remove && choice.deleteData && req.target.OfEntry?
    ensures Plan(req, fetched, Success(RemoveResponse), choice) ==
            Dispatch(req.target.entry, true, Some(ReapId(req.target.entry.id)))
  {
    LayoutShape([], true);
  }

  // ---------------------------------------------------------------------
  // The entry-less dispatch, as written

  /**
   * As written, transact_fiber calls transact even when the filter removed
   * every variant: a group whose only entry is holding, installed with
   * auto-confirm, reaches transact with no entry at all.
   */
  lemma NullEntryReachesTransact(g: Group, e: Entry, response: Result<string, Error>, choice: Choice)
    requires e.holding
    ensures var req := Request(OfGroup(g), false, true, None);
            && Prompt(req, Success([e])) == None
            && Decide(req, Success([e]), response, choice) == Submit(None, false, false)
            && Plan(req, Success([e]), response, choice) == Abort(Resolved(false))
  {
    var req := Request(OfGroup(g), false, true, None);
    assert [e][..0] == [];
    assert Retained([e], false) == [];
  }
}
