/**
 * The preferences dialog (bz-preferences-dialog.c): the table of progress
 * bar themes, the grouped toggle buttons built from it, the two-way link
 * between those buttons and the "global-progress-bar-theme" setting, and
 * the four boolean settings bound to their switches.
 */
module PreferencesDialog {
  import opened Wrappers

  const ThemeKey := "global-progress-bar-theme"

  datatype BarTheme = BarTheme(id: string, styleClass: string, tooltip: string)

  const BarThemes: seq<BarTheme> := [
    BarTheme("accent-color", "accent-color-theme", "Accent Color"),
    BarTheme("sunset", "sunset-theme", "Sunset"),
    BarTheme("desert", "desert-theme", "Desert"),
    BarTheme("pastel-sky", "pastel-sky-theme", "Pastel Sky"),
    BarTheme("aurora", "aurora-theme", "Aurora"),
    BarTheme("berry", "berry-theme", "Berry"),
    BarTheme("monochrome", "monochrome-theme", "Monochrome"),
    BarTheme("tropical", "tropical-theme", "Tropical"),
    BarTheme("meadow", "meadow-theme", "Meadow"),
    BarTheme("nebula", "nebula-theme", "Nebula"),
    BarTheme("candy", "candy-theme", "Candy"),
    BarTheme("ocean-deep", "ocean-deep-theme", "Ocean Deep")
  ]

  /** No two themes share an id, so an id names one button. */
  lemma BarThemeIdsDistinct()
    ensures forall i, j :: 0 <= i < j < |BarThemes| ==> BarThemes[i].id != BarThemes[j].id
  {
  }

  /** Every theme's style class is its id with "-theme" appended. */
  lemma StyleClassesFollowIds()
    ensures forall i :: 0 <= i < |BarThemes| ==> BarThemes[i].styleClass == BarThemes[i].id + "-theme"
  {
  }

  /** The first theme whose id is `theme`, as the search of the settings callback finds it. */
  function ThemeIndex(theme: string): (k: Option<nat>)
    ensures k.Some? ==> k.value < |BarThemes| && BarThemes[k.value].id == theme
    ensures k.None? ==> forall i :: 0 <= i < |BarThemes| ==> BarThemes[i].id != theme
  {
    IndexFrom(theme, 0)
  }

  function IndexFrom(theme: string, i: nat): (k: Option<nat>)
    requires i <= |BarThemes|
    ensures k.Some? ==> i <= k.value < |BarThemes| && BarThemes[k.value].id == theme
    ensures k.None? ==> forall j :: i <= j < |BarThemes| ==> BarThemes[j].id != theme
    decreases |BarThemes| - i
  {
    if i == |BarThemes| then None
    else if BarThemes[i].id == theme then Some(i)
    else IndexFrom(theme, i + 1)
  }

  /**
   * Writing a button's theme id names that very button again: the settings
   * callback that the write triggers re-selects the button already active,
   * so the exchange between buttons and setting settles at once.
   */
  lemma ThemeIndexOfId(i: nat)
    requires i < |BarThemes|
    ensures ThemeIndex(BarThemes[i].id) == Some(i)
  {
    BarThemeIdsDistinct();
  }

  /** A flag button as create_flag_buttons sets it up. `leader` is the button whose group it joins. */
  datatype FlagButton = FlagButton(tooltip: string, cssClasses: seq<string>, themeId: string, leader: Option<nat>)

  function ButtonFor(i: nat): FlagButton
    requires i < |BarThemes|
  {
    FlagButton(BarThemes[i].tooltip, ["accent-button", BarThemes[i].styleClass], BarThemes[i].id,
               if i == 0 then None else Some(0))
  }

  /** The boolean settings bound to switches. */
  datatype Switch = OnlyFoss | OnlyFlathub | SearchDebounce | HideEol

  /** The GSettings object, reduced to the keys the dialog touches. */
  class Settings {
    var theme: string
    var flags: map<Switch, bool>

    constructor (theme: string, flags: map<Switch, bool>)
      ensures this.theme == theme && this.flags == flags
    {
      this.theme := theme;
      this.flags := flags;
    }
  }

  class Dialog {
    const buttons: array<FlagButton>
    const settings: Settings?
    var active: Option<nat>            // the active button of the group, if any
    var switches: map<Switch, bool>
    var connected: bool                // the switches are bound and the theme handler is connected

    predicate Valid()
      reads this, buttons
    {
      && buttons.Length == |BarThemes|
      && (active.Some? ==> active.value < buttons.Length)
      && (forall i :: 0 <= i < buttons.Length ==> buttons[i] == ButtonFor(i))
      && (connected ==> settings != null)
    }

    /** bz_preferences_dialog_init, with the settings the dialog is given: the buttons are built. */
    constructor (settings: Settings?)
      ensures Valid() && fresh(buttons)
      ensures this.settings == settings && active == None && switches == map[] && !connected
    {
      buttons := new FlagButton[|BarThemes|];
      this.settings := settings;
      active := None;
      switches := map[];
      connected := false;
      new;
      CreateFlagButtons();
    }

    /** create_flag_buttons: one button per theme, all in the first button's group. */
    method CreateFlagButtons()
      requires buttons.Length == |BarThemes|
      modifies buttons
      ensures forall i :: 0 <= i < buttons.Length ==> buttons[i] == ButtonFor(i)
    {
      var i := 0;
      while i < buttons.Length
        invariant 0 <= i <= buttons.Length
        invariant forall j :: 0 <= j < i ==> buttons[j] == ButtonFor(j)
      {
        var leader := if i == 0 then None else Some(0);
        buttons[i] := FlagButton(BarThemes[i].tooltip, ["accent-button", BarThemes[i].styleClass], BarThemes[i].id, leader);
        i := i + 1;
      }
    }

    /**
     * bind_settings: without settings nothing happens. Otherwise the
     * switches take the settings' values, the theme handler is connected and
     * run once, which selects the stored theme's button; the stored values
     * are left as they were.
     */
    method BindSettings()
      requires Valid()
      modifies this, settings
      ensures Valid()
      ensures settings == null ==> active == old(active) && switches == old(switches) && connected == old(connected)
      ensures settings != null ==> settings.theme == old(settings.theme) && settings.flags == old(settings.flags)
      ensures settings != null ==> connected && switches == settings.flags
      ensures settings != null ==>
        active == if ThemeIndex(settings.theme).Some? then ThemeIndex(settings.theme) else old(active)
    {
      if settings == null {
        return;
      }
      switches := settings.flags;
      connected := true;
      SettingsChanged();
    }

    /**
     * global_progress_theme_settings_changed: activate the first button whose
     * theme id is the setting; an unknown theme changes nothing.
     */
    method SettingsChanged()
      requires Valid() && settings != null
      modifies this`active, settings
      ensures Valid()
      ensures settings.theme == old(settings.theme) && settings.flags == old(settings.flags)
      ensures active == if ThemeIndex(settings.theme).Some? then ThemeIndex(settings.theme) else old(active)
    {
      var i := 0;
      while i < |BarThemes|
        invariant 0 <= i <= |BarThemes|
        invariant forall j :: 0 <= j < i ==> BarThemes[j].id != settings.theme
        invariant active == old(active)
      {
        if BarThemes[i].id == settings.theme {
          assert ThemeIndex(settings.theme) == Some(i);
          SetButtonActive(i);
          return;
        }
        i := i + 1;
      }
    }

    /** The stored theme changes from elsewhere: once connected, the buttons follow it. */
    method ThemeSettingChanged(theme: string)
      requires Valid() && settings != null
      modifies this`active, settings
      ensures Valid()
      ensures settings.theme == theme && settings.flags == old(settings.flags)
      ensures connected && ThemeIndex(theme).Some? ==> active == ThemeIndex(theme)
      ensures !(connected && ThemeIndex(theme).Some?) ==> active == old(active)
    {
      settings.theme := theme;
      if connected {
        SettingsChanged();
      }
    }

    /**
     * gtk_toggle_button_set_active with TRUE on a grouped button: it becomes
     * the group's only active button; if it was not active before, its
     * "toggled" handler stores its theme id.
     */
    method SetButtonActive(i: nat)
      requires Valid() && i < buttons.Length
      modifies this`active, settings
      ensures Valid()
      ensures active == Some(i)
      ensures settings != null ==> settings.flags == old(settings.flags)
      ensures settings != null && old(active) == Some(i) ==> settings.theme == old(settings.theme)
      ensures settings != null && old(active) != Some(i) ==> settings.theme == BarThemes[i].id
    {
      if active == Some(i) {
        return;
      }
      active := Some(i);
      FlagButtonToggled(i);
    }

    /**
     * flag_button_toggled: only a button that is now active writes its theme
     * id, and only to settings that exist.
     */
    method FlagButtonToggled(i: nat)
      requires Valid() && i < buttons.Length
      modifies settings
      ensures settings != null ==> settings.flags == old(settings.flags)
      ensures settings != null ==>
        settings.theme == if active == Some(i) then buttons[i].themeId else old(settings.theme)
    {
      if active != Some(i) || settings == null {
        return;
      }
      settings.theme := buttons[i].themeId;
    }

    /** The user flips a switch; once bound, its setting follows. */
    method SwitchToggled(s: Switch, value: bool)
      requires Valid()
      modifies this`switches, settings
      ensures switches == old(switches)[s := value]
      ensures settings != null && connected ==> settings.flags == old(settings.flags)[s := value]
      ensures settings != null && !connected ==> settings.flags == old(settings.flags)
      ensures settings != null ==> settings.theme == old(settings.theme)
    {
      switches := switches[s := value];
      if connected {
        settings.flags := settings.flags[s := value];
      }
    }
  }

  /**
   * bz_preferences_dialog_new: once the buttons are built the settings are
   * bound, which copies the switches and activates the button of the stored
   * theme (if it names one); the stored values are left as they were.
   */
  method New(settings: Settings) returns (d: Dialog)
    modifies settings
    ensures fresh(d) && d.Valid() && d.settings == settings && d.connected
    ensures d.active == ThemeIndex(settings.theme)
    ensures d.switches == settings.flags
    ensures settings.theme == old(settings.theme) && settings.flags == old(settings.flags)
  {
    d := new Dialog(settings);
    d.BindSettings();
  }
}
