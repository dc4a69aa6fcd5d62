/**
 * The general UI settings editor: two switches, "new UI" and "new search",
 * persisted together. A switch's flag changes only after the server has
 * accepted the new pair.
 */
module UISettings {
  import opened Wrappers

  /** The pair the settings service fetches and saves (`enabled`, `newSearch`). */
  datatype UISetting = UISetting(enabled: bool, newSearch: bool)

  /** Where the legacy settings page lives, relative to the base URL. */
  const LegacySettingsPath: string := "access/settings.do"

  /** What the editor does outside its own state. */
  datatype Effect =
    | ErrorReported            // the application error handler was called
    | RedirectTo(path: string)  // the browser is sent to `path`, relative to the base URL
    | UserRefreshed            // the `refreshUser` callback was called

  /** The editor's two flags. */
  class UISettingEditor {
    var newUIEnabled: bool
    var newSearchEnabled: bool

    /** Before the fetch completes: new UI on, new search off. */
    constructor()
      ensures newUIEnabled && !newSearchEnabled
    {
      newUIEnabled := true;
      newSearchEnabled := false;
    }

    /**
     * The on-mount fetch completed with `fetched` (absent when it failed):
     * success overwrites both flags, failure reports and keeps them.
     */
    method FetchCompleted(fetched: Option<UISetting>) returns (effects: seq<Effect>)
      modifies this
      ensures fetched.Some? ==>
                newUIEnabled == fetched.value.enabled && newSearchEnabled == fetched.value.newSearch
                && effects == []
      ensures fetched.None? ==>
                newUIEnabled == old(newUIEnabled) && newSearchEnabled == old(newSearchEnabled)
                && effects == [ErrorReported]
    {
      match fetched
      case Some(setting) =>
        newUIEnabled := setting.enabled;
        newSearchEnabled := setting.newSearch;
        effects := [];
      case None =>
        effects := [ErrorReported];
    }

    /**
     * `setNewUI(enabled)`: save (`enabled`, current new-search). Only if the
     * save succeeds does the new-UI flag take the requested value, and the
     * browser goes to the legacy settings page. New search is never touched.
     */
    method SetNewUI(enabled: bool, saveSucceeds: bool) returns (saved: UISetting, effects: seq<Effect>)
      modifies this`newUIEnabled
      ensures saved == UISetting(enabled, newSearchEnabled)
      ensures saveSucceeds ==> newUIEnabled == enabled && effects == [RedirectTo(LegacySettingsPath)]
      ensures !saveSucceeds ==> newUIEnabled == old(newUIEnabled) && effects == [ErrorReported]
    {
      saved := UISetting(enabled, newSearchEnabled);
      if saveSucceeds {
        newUIEnabled := enabled;
        effects := [RedirectTo(LegacySettingsPath)];
      } else {
        effects := [ErrorReported];
      }
    }

    /**
     * `setNewSearch(enabled)`: save (current new-UI, `enabled`). Only if the
     * save succeeds does the new-search flag take the requested value, and
     * the user is refreshed. New UI is never touched.
     */
    method SetNewSearch(enabled: bool, saveSucceeds: bool) returns (saved: UISetting, effects: seq<Effect>)
      modifies this`newSearchEnabled
      ensures saved == UISetting(newUIEnabled, enabled)
      ensures saveSucceeds ==> newSearchEnabled == enabled && effects == [UserRefreshed]
      ensures !saveSucceeds ==> newSearchEnabled == old(newSearchEnabled) && effects == [ErrorReported]
    {
      saved := UISetting(newUIEnabled, enabled);
      if saveSucceeds {
        newSearchEnabled := enabled;
        effects := [UserRefreshed];
      } else {
        effects := [ErrorReported];
      }
    }

    /**
     * Whether the new-search switch and the theme settings button are
     * disabled: exactly when new UI is off. The new-search value shown stays
     * whatever it was.
     */
    function DependentControlsDisabled(): (disabled: bool)
      reads this
      ensures disabled <==> !newUIEnabled
    {
      !newUIEnabled
    }
  }

  /**
   * A session of the editor: after a successful "new UI off", the dependent
   * controls are disabled whatever new search was, and new search keeps its
   * value.
   */
  method TurningNewUIOffDisablesNewSearch(editor: UISettingEditor)
    modifies editor
    ensures editor.DependentControlsDisabled()
    ensures editor.newSearchEnabled == old(editor.newSearchEnabled)
  {
    var saved, effects := editor.SetNewUI(false, true);
  }
}
