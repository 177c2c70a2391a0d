/**
 * A tile of the installed page (bz-installed-tile.c): its support, add-ons
 * and remove buttons, each of which goes through the group resolver alone,
 * and the add-ons dialog's transact callback, which picks the direction from
 * the add-on's installed state.
 */
module InstalledTile {
  import opened Wrappers
  import opened Entries
  import EntryGroupUtil
  import Window

  const RemoveSignal := "remove"
  const InstallAddonSignal := "install-addon"
  const RemoveAddonSignal := "remove-addon"

  /** test_is_support */
  predicate IsSupport(e: Entry)
  {
    e.donationUrl.Some?
  }

  /** test_has_addons: an add-ons model that is present and not empty. */
  predicate HasAddons(e: Entry)
  {
    e.addons.Some? && e.addons.value > 0
  }

  /** What a tile's fiber ends with. */
  datatype Effect =
    | Emit(signal: string, entry: Entry)   // a signal of the installed page
    | Launch(uri: string)
    | OpenAddons(entry: Entry)             // the add-ons dialog presented for the entry
    | ShowError(message: string)
    | Nothing

  /** An unresolved lookup reports its error if it has one and is silent otherwise. */
  function Reported(error: Option<Error>): (e: Effect)
    ensures e.ShowError? <==> error.Some?
    ensures error.Some? ==> e.message == error.value.message
    ensures error.None? ==> e == Nothing
  {
    if error.Some? then ShowError(error.value.message) else Nothing
  }

  /** remove_fiber: the resolver over installed entries; the page's "remove" signal. */
  method RemoveFiber(fetched: Fetch, response: Option<string>)
    returns (effect: Effect, shown: Option<EntryGroupUtil.ChoiceDialog>)
    ensures shown == EntryGroupUtil.Prompt(fetched, None, true)
    ensures match EntryGroupUtil.Resolve(fetched, None, true, response)
            case Found(e) => effect == Emit(RemoveSignal, e) && e.installed && fetched.Success? && e in fetched.value
            case Missing(err) => effect == Reported(err)
  {
    var lookup;
    lookup, shown := EntryGroupUtil.FindEntry(fetched, None, true, response);
    match lookup {
      case Found(e) =>
        EntryGroupUtil.FoundQualifies(fetched, None, true, response);
        effect := Emit(RemoveSignal, e);
      case Missing(err) =>
        effect := Reported(err);
    }
  }

  /** support_fiber: unlike the favorites tile, no fallback past the resolver. */
  method SupportFiber(fetched: Fetch, response: Option<string>)
    returns (effect: Effect, shown: Option<EntryGroupUtil.ChoiceDialog>)
    ensures shown == EntryGroupUtil.Prompt(fetched, Some(IsSupport), true)
    ensures match EntryGroupUtil.Resolve(fetched, Some(IsSupport), true, response)
            case Found(e) => e.installed && e.donationUrl.Some? && effect == Launch(e.donationUrl.value)
            case Missing(err) => effect == Reported(err)
  {
    var lookup;
    lookup, shown := EntryGroupUtil.FindEntry(fetched, Some(IsSupport), true, response);
    match lookup {
      case Found(e) =>
        EntryGroupUtil.FoundQualifies(fetched, Some(IsSupport), true, response);
        effect := Launch(e.donationUrl.value);
      case Missing(err) =>
        effect := Reported(err);
    }
  }

  /** install_addons_fiber: the add-ons dialog opens for an installed entry that has add-ons. */
  method InstallAddonsFiber(fetched: Fetch, response: Option<string>)
    returns (effect: Effect, shown: Option<EntryGroupUtil.ChoiceDialog>)
    ensures shown == EntryGroupUtil.Prompt(fetched, Some(HasAddons), true)
    ensures match EntryGroupUtil.Resolve(fetched, Some(HasAddons), true, response)
            case Found(e) => e.installed && HasAddons(e) && effect == OpenAddons(e)
            case Missing(err) => effect == Reported(err)
  {
    var lookup;
    lookup, shown := EntryGroupUtil.FindEntry(fetched, Some(HasAddons), true, response);
    match lookup {
      case Found(e) =>
        EntryGroupUtil.FoundQualifies(fetched, Some(HasAddons), true, response);
        effect := OpenAddons(e);
      case Missing(err) =>
        effect := Reported(err);
    }
  }

  /** addon_transact_cb: an installed add-on is removed, any other installed. */
  method AddonTransact(addon: Entry) returns (effect: Effect)
    ensures effect == Emit(if addon.installed then RemoveAddonSignal else InstallAddonSignal, addon)
  {
    if addon.installed {
      effect := Emit(RemoveAddonSignal, addon);
    } else {
      effect := Emit(InstallAddonSignal, addon);
    }
  }

  /** The window transaction callback a signal of the installed page reaches; any other signal, such as "show-entry", starts none. */
  function WindowTrigger(signal: string, entry: Entry): (t: Option<Window.Trigger>)
    ensures t.Some? <==> signal == InstallAddonSignal || signal == RemoveAddonSignal || signal == RemoveSignal
    ensures t.Some? ==> (t.value.InstallAddon? || t.value.RemoveAddon? || t.value.RemoveInstalled?) && t.value.entry == entry
    ensures t.Some? ==> Window.RequestFor(t.value).remove <==> signal != InstallAddonSignal
  {
    if signal == InstallAddonSignal then Some(Window.InstallAddon(entry))
    else if signal == RemoveAddonSignal then Some(Window.RemoveAddon(entry))
    else if signal == RemoveSignal then Some(Window.RemoveInstalled(entry))
    else None
  }

  /**
   * An add-on transaction from the dialog goes the way of the add-on's
   * installed state, and the window asks for confirmation exactly when it
   * removes.
   */
  lemma AddonTransactConfirmsOnlyRemoval(addon: Entry, fetched: Fetch)
    ensures var t := WindowTrigger(if addon.installed then RemoveAddonSignal else InstallAddonSignal, addon);
            && t.Some?
            && Window.RequestFor(t.value).remove == addon.installed
            && (Window.Prompt(Window.RequestFor(t.value), fetched).Some? <==> addon.installed)
  {
    Window.AddonPrompts(addon, fetched);
  }

  /** The tile's "remove" always reaches the window as a confirmed removal of that entry. */
  lemma RemoveSignalConfirms(e: Entry, fetched: Fetch)
    ensures var r := Window.RequestFor(WindowTrigger(RemoveSignal, e).value);
            r.remove && r.target == Window.OfEntry(e) && Window.Prompt(r, fetched).Some?
  {
    Window.RemoveAlwaysPrompts(Window.RequestFor(WindowTrigger(RemoveSignal, e).value), fetched);
  }

  class Tile {
    var group: Option<Group>

    constructor ()
      ensures group == None
    {
      group := None;
    }

    /** bz_installed_tile_set_group */
    method SetGroup(g: Option<Group>)
      modifies this`group
      ensures group == g
    {
      group := g;
    }
  }
}
