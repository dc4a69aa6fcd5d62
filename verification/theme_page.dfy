/**
 * The theme editor screen: the nine-colour palette, the mappings to and from
 * the server's theme settings record, the staged logo upload, and the
 * unsaved / success flags driven by save and reset.
 */
module ThemePage {
  import opened Wrappers

  /** The nine colours the editor shows, one colour picker each. */
  datatype ThemeColors = ThemeColors(
    primary: string,
    secondary: string,
    background: string,
    paper: string,
    menu: string,
    menuText: string,
    menuIcon: string,
    primaryText: string,
    secondaryText: string)

  /** The theme settings record the server stores. */
  datatype ThemeSettings = ThemeSettings(
    primaryColor: string,
    secondaryColor: string,
    backgroundColor: string,
    paperColor: string,
    menuItemColor: string,
    menuItemTextColor: string,
    menuItemIconColor: string,
    primaryTextColor: string,
    menuTextColor: string,
    fontSize: int)

  /** The font size written when the caller gives none. */
  const DefaultFontSize: int := 14

  /** Names one of the nine colour fields (`keyof ThemeColors`). */
  datatype ColorKey =
    | Primary | Secondary | Background | Paper | Menu
    | MenuText | MenuIcon | PrimaryText | SecondaryText

  /** The colour stored under key `k`. */
  function Color(c: ThemeColors, k: ColorKey): string
  {
    match k
    case Primary => c.primary
    case Secondary => c.secondary
    case Background => c.background
    case Paper => c.paper
    case Menu => c.menu
    case MenuText => c.menuText
    case MenuIcon => c.menuIcon
    case PrimaryText => c.primaryText
    case SecondaryText => c.secondaryText
  }

  /** A palette is determined by its nine colours. */
  lemma ColorsExtensionality(a: ThemeColors, b: ThemeColors)
    requires forall k :: Color(a, k) == Color(b, k)
    ensures a == b
  {
    assert Color(a, Primary) == Color(b, Primary);
    assert Color(a, Secondary) == Color(b, Secondary);
    assert Color(a, Background) == Color(b, Background);
    assert Color(a, Paper) == Color(b, Paper);
    assert Color(a, Menu) == Color(b, Menu);
    assert Color(a, MenuText) == Color(b, MenuText);
    assert Color(a, MenuIcon) == Color(b, MenuIcon);
    assert Color(a, PrimaryText) == Color(b, PrimaryText);
    assert Color(a, SecondaryText) == Color(b, SecondaryText);
  }

  /**
   * The server record read back into the editor. The names cross over:
   * `menuItemTextColor` feeds `menuText` and `menuTextColor` feeds
   * `secondaryText`. No setting is lost on the way except the font size:
   * writing the colours back with the record's own font size gives the
   * record again.
   */
  function SettingsToColors(s: ThemeSettings): (c: ThemeColors)
    ensures ColorsToSettings(c, s.fontSize) == s
  {
    ThemeColors(
      primary := s.primaryColor,
      secondary := s.secondaryColor,
      background := s.backgroundColor,
      paper := s.paperColor,
      menu := s.menuItemColor,
      menuText := s.menuItemTextColor,
      menuIcon := s.menuItemIconColor,
      primaryText := s.primaryTextColor,
      secondaryText := s.menuTextColor)
  }

  /**
   * The editor's palette written as a server record, with the given font
   * size (14 when none is given). The same two crossed-over names as in
   * `SettingsToColors`: `menuText` goes to `menuItemTextColor` and
   * `secondaryText` to `menuTextColor`.
   */
  function ColorsToSettings(c: ThemeColors, fontSize: int := DefaultFontSize): (s: ThemeSettings)
    ensures s.fontSize == fontSize
    ensures s.menuItemTextColor == Color(c, MenuText) && s.menuTextColor == Color(c, SecondaryText)
  {
    ThemeSettings(
      primaryColor := c.primary,
      secondaryColor := c.secondary,
      backgroundColor := c.background,
      paperColor := c.paper,
      menuItemColor := c.menu,
      menuItemIconColor := c.menuIcon,
      menuItemTextColor := c.menuText,
      primaryTextColor := c.primaryText,
      menuTextColor := c.secondaryText,
      fontSize := fontSize)
  }

  /** Writing a palette as a server record and reading it back gives the same nine colours. */
  lemma ColorsRoundTrip(c: ThemeColors, fontSize: int)
    ensures SettingsToColors(ColorsToSettings(c, fontSize)) == c
  {
  }

  /**
   * Saving writes font size 14, so a record loaded with any other font size
   * is not written back unchanged even when no colour was edited.
   */
  lemma SaveResetsFontSize(s: ThemeSettings)
    requires s.fontSize != DefaultFontSize
    ensures ColorsToSettings(SettingsToColors(s)) != s
    ensures ColorsToSettings(SettingsToColors(s)) == s.(fontSize := DefaultFontSize)
  {
  }

  /** The palette with field `k` set to `v`; every other field is kept. */
  function WithColor(c: ThemeColors, k: ColorKey, v: string): (r: ThemeColors)
    ensures Color(r, k) == v
    ensures forall j :: j != k ==> Color(r, j) == Color(c, j)
  {
    match k
    case Primary => c.(primary := v)
    case Secondary => c.(secondary := v)
    case Background => c.(background := v)
    case Paper => c.(paper := v)
    case Menu => c.(menu := v)
    case MenuText => c.(menuText := v)
    case MenuIcon => c.(menuIcon := v)
    case PrimaryText => c.(primaryText := v)
    case SecondaryText => c.(secondaryText := v)
  }

  /** Setting a field to the colour it already has changes nothing. */
  lemma WithSameColorIsIdentity(c: ThemeColors, k: ColorKey)
    ensures WithColor(c, k, Color(c, k)) == c
  {
    ColorsExtensionality(WithColor(c, k, Color(c, k)), c);
  }

  /** The fixed palette "Reset to default" installs. */
  const DefaultColors: ThemeColors := ThemeColors(
    primary := "#186caf",
    secondary := "#ff9800",
    background := "#fafafa",
    paper := "#ffffff",
    menuText := "#000000",
    menu := "#ffffff",
    menuIcon := "#000000",
    primaryText := "#000000",
    secondaryText := "#444444")

  /** A picked image file: its name and its bytes. */
  datatype LogoFile = LogoFile(name: string, data: seq<bv8>)

  /** The logo part of the editor: the current logo URL and the staged upload. */
  datatype LogoSettings = LogoSettings(logoURL: string, logoToUpload: Option<LogoFile>, fileName: string)

  /** The page-visible error chosen for a failed request. */
  datatype ErrorKind =
    | InvalidImage               // HTTP 500
    | PermissionDenied           // HTTP 403
    | GenericError(status: int)  // any other status, built from the error itself

  /** How an awaited HTTP request ended. */
  datatype Failure =
    | HttpError(response: Option<int>)  // an axios error; `response` is its HTTP status, if any
    | NonHttpError                      // anything else that was thrown
  datatype CallOutcome = Ok | Failed(failure: Failure)

  /** What the page does outside its own state, in order. */
  datatype Effect =
    | PutLogo(file: LogoFile)
    | PutThemeSettings(settings: ThemeSettings)
    | DeleteLogo
    | ShowError(kind: ErrorKind)
    | LogUnexpected
    | Reload

  /**
   * `handleError`: the error shown for a failed axios request with the given
   * response status; an error without a response shows nothing.
   */
  function HandleError(response: Option<int>): (r: Option<ErrorKind>)
    ensures r.None? <==> response.None?
    ensures response == Some(500) ==> r == Some(InvalidImage)
    ensures response == Some(403) ==> r == Some(PermissionDenied)
    ensures response.Some? && response.value != 500 && response.value != 403 ==>
              r == Some(GenericError(response.value))
  {
    match response
    case None => None
    case Some(status) =>
      if status == 500 then Some(InvalidImage)
      else if status == 403 then Some(PermissionDenied)
      else Some(GenericError(status))
  }

  /**
   * The effects of `handleError` on an axios error: at most one error shown,
   * and one exactly when the error has a response.
   */
  function ErrorEffects(response: Option<int>): (r: seq<Effect>)
    ensures |r| <= 1
    ensures r != [] <==> response.Some?
    ensures forall i :: 0 <= i < |r| ==> r[i] == ShowError(HandleError(response).value)
  {
    match HandleError(response)
    case None => []
    case Some(kind) => [ShowError(kind)]
  }

  /**
   * The effects of the `catch` in `saveChanges`: at most one, never a request
   * or a reload; an axios error goes to `handleError`, and an error that is
   * not an HTTP error is logged.
   */
  function SaveFailureEffects(f: Failure): (r: seq<Effect>)
    ensures |r| <= 1
    ensures forall i :: 0 <= i < |r| ==> r[i].ShowError? || r[i].LogUnexpected?
    ensures f.NonHttpError? ==> r == [LogUnexpected]
    ensures f.HttpError? ==> r == ErrorEffects(f.response)
  {
    match f
    case HttpError(response) => ErrorEffects(response)
    case NonHttpError => [LogUnexpected]
  }

  /**
   * The requests `saveChanges` issues when every request succeeds: the
   * staged logo first, and only when one is staged, then the theme settings
   * with the default font size.
   */
  function SaveRequests(logo: LogoSettings, colors: ThemeColors): (r: seq<Effect>)
    ensures |r| == if logo.logoToUpload.Some? then 2 else 1
    ensures r[|r| - 1] == PutThemeSettings(ColorsToSettings(colors))
    ensures logo.logoToUpload.Some? ==> r[0] == PutLogo(logo.logoToUpload.value)
    ensures forall i :: 0 <= i < |r| - 1 ==> r[i].PutLogo?
  {
    var theme := [PutThemeSettings(ColorsToSettings(colors))];
    match logo.logoToUpload
    case None => theme
    case Some(file) => [PutLogo(file)] + theme
  }

  /**
   * Whether a save with these outcomes reaches its success branch: the theme
   * write must succeed, and the logo upload too when a logo is staged.
   */
  predicate SaveSucceeds(logo: LogoSettings, logoPut: CallOutcome, themePut: CallOutcome)
    ensures SaveSucceeds(logo, logoPut, themePut) ==> themePut.Ok?
    ensures logo.logoToUpload.None? ==> (SaveSucceeds(logo, logoPut, themePut) <==> themePut.Ok?)
    ensures logo.logoToUpload.Some? ==> (SaveSucceeds(logo, logoPut, themePut) <==> logoPut.Ok? && themePut.Ok?)
  {
    (logo.logoToUpload.None? || logoPut.Ok?) && themePut.Ok?
  }

  /**
   * The theme editor's state. `themeSettings` and `logoURL` are the values
   * the hosting page injects.
   */
  class ThemeEditor {
    const themeSettings: ThemeSettings
    const logoURL: string
    var themeColors: ThemeColors
    var logoSettings: LogoSettings
    var isChangesUnsaved: bool
    var isShowSuccess: bool

    /** The editor as first rendered: server colours, no staged upload, clean. */
    constructor(themeSettings: ThemeSettings, logoURL: string)
      ensures this.themeSettings == themeSettings && this.logoURL == logoURL
      ensures themeColors == SettingsToColors(themeSettings)
      ensures logoSettings == LogoSettings(logoURL, None, "")
      ensures !isChangesUnsaved && !isShowSuccess
    {
      this.themeSettings := themeSettings;
      this.logoURL := logoURL;
      themeColors := SettingsToColors(themeSettings);
      logoSettings := LogoSettings(logoURL, None, "");
      isChangesUnsaved := false;
      isShowSuccess := false;
    }

    /**
     * `saveButtonDisabled`: there is nothing to save. The save button is
     * enabled exactly when leaving the page is blocked.
     */
    function SaveButtonDisabled(): (disabled: bool)
      reads this
      ensures disabled <==> !PreventNavigation()
    {
      !isChangesUnsaved
    }

    /** `preventNavigation`: leaving the page is blocked while changes are unsaved. */
    function PreventNavigation(): (blocked: bool)
      reads this
      ensures blocked <==> isChangesUnsaved
    {
      isChangesUnsaved
    }

    /** `handleDefaultButton`: install the fixed default palette. */
    method HandleDefaultButton()
      modifies this
      ensures themeColors == DefaultColors
      ensures isChangesUnsaved
      ensures logoSettings == old(logoSettings) && isShowSuccess == old(isShowSuccess)
    {
      themeColors := DefaultColors;
      isChangesUnsaved := true;
    }

    /** `setColorPickerDefaults` ("Undo"): back to the colours the page was loaded with. */
    method SetColorPickerDefaults()
      modifies this`themeColors
      ensures themeColors == SettingsToColors(themeSettings)
    {
      themeColors := SettingsToColors(themeSettings);
    }

    /** `handleColorChange(k)(v)`: one colour picker changed. */
    method HandleColorChange(k: ColorKey, v: string)
      modifies this
      ensures themeColors == WithColor(old(themeColors), k, v)
      ensures isChangesUnsaved
      ensures logoSettings == old(logoSettings) && isShowSuccess == old(isShowSuccess)
    {
      themeColors := WithColor(themeColors, k, v);
      isChangesUnsaved := true;
    }

    /**
     * `handleImageChange`: the file input changed. `files` is the input's
     * file list (absent when the browser gives none); the first file is
     * staged once it has been read.
     */
    method HandleImageChange(files: Option<seq<LogoFile>>)
      modifies this
      ensures files.Some? && |files.value| > 0 ==>
                logoSettings == LogoSettings(logoURL, Some(files.value[0]), files.value[0].name)
                && isChangesUnsaved
      ensures files.None? || |files.value| == 0 ==>
                logoSettings == old(logoSettings) && isChangesUnsaved == old(isChangesUnsaved)
      ensures themeColors == old(themeColors) && isShowSuccess == old(isShowSuccess)
    {
      if files.Some? && |files.value| > 0 {
        var file := files.value[0];
        logoSettings := LogoSettings(logoURL := logoURL, logoToUpload := Some(file), fileName := file.name);
        isChangesUnsaved := true;
      }
    }

    /**
     * `saveChanges`: upload the staged logo (if any), then write the theme
     * settings. The first failure stops the chain and is reported; on
     * success the page becomes clean, shows success and reloads.
     */
    method SaveChanges(logoPut: CallOutcome, themePut: CallOutcome) returns (effects: seq<Effect>)
      modifies this
      ensures themeColors == old(themeColors) && logoSettings == old(logoSettings)
      ensures SaveSucceeds(logoSettings, logoPut, themePut) ==>
                effects == SaveRequests(logoSettings, themeColors) + [Reload]
                && !isChangesUnsaved && isShowSuccess
      ensures !SaveSucceeds(logoSettings, logoPut, themePut) ==>
                isChangesUnsaved == old(isChangesUnsaved) && isShowSuccess == old(isShowSuccess)
      ensures logoSettings.logoToUpload.Some? && logoPut.Failed? ==>
                effects == [SaveRequests(logoSettings, themeColors)[0]] + SaveFailureEffects(logoPut.failure)
      ensures (logoSettings.logoToUpload.None? || logoPut.Ok?) && themePut.Failed? ==>
                effects == SaveRequests(logoSettings, themeColors) + SaveFailureEffects(themePut.failure)
    {
      effects := [];
      if logoSettings.logoToUpload.Some? {
        effects := [PutLogo(logoSettings.logoToUpload.value)];
        if logoPut.Failed? {
          effects := effects + SaveFailureEffects(logoPut.failure);
          return;
        }
      }
      effects := effects + [PutThemeSettings(ColorsToSettings(themeColors))];
      if themePut.Failed? {
        effects := effects + SaveFailureEffects(themePut.failure);
        return;
      }
      isChangesUnsaved := false;
      isShowSuccess := true;
      effects := effects + [Reload];
    }

    /**
     * `resetLogo`: delete the custom logo on the server. On success the page
     * becomes clean, shows success and reloads; a failure goes to
     * `handleError`, and one without a response shows nothing.
     */
    method ResetLogo(deleteResult: CallOutcome) returns (effects: seq<Effect>)
      modifies this
      ensures themeColors == old(themeColors) && logoSettings == old(logoSettings)
      ensures deleteResult.Ok? ==> effects == [DeleteLogo, Reload] && !isChangesUnsaved && isShowSuccess
      ensures deleteResult.Failed? ==>
                isChangesUnsaved == old(isChangesUnsaved) && isShowSuccess == old(isShowSuccess)
                && effects == [DeleteLogo] + (match deleteResult.failure
                                              case HttpError(response) => ErrorEffects(response)
                                              case NonHttpError => [])
    {
      effects := [DeleteLogo];
      match deleteResult
      case Ok =>
        isChangesUnsaved := false;
        isShowSuccess := true;
        effects := effects + [Reload];
      case Failed(HttpError(response)) =>
        effects := effects + ErrorEffects(response);
      case Failed(NonHttpError) =>
    }

    /** `snackBarOnClose`: hide the success message. */
    method CloseSnackbar()
      modifies this`isShowSuccess
      ensures !isShowSuccess
    {
      isShowSuccess := false;
    }
  }

  /**
   * The clean / dirty cycle on one editor: loaded clean, an edit makes it
   * dirty, a failed save leaves it dirty, a successful save makes it clean
   * and shows success. `dirtyAfterFailure` and `cleanAfterSuccess` are what
   * the save button shows after each save; `failed` and `saved` are the two
   * saves' effects.
   */
  method CleanDirtyCycle(settings: ThemeSettings, logoURL: string, k: ColorKey, v: string, status: int)
    returns (failed: seq<Effect>, saved: seq<Effect>, dirtyAfterFailure: bool, cleanAfterSuccess: bool)
    ensures dirtyAfterFailure && cleanAfterSuccess
    ensures failed == [PutThemeSettings(ColorsToSettings(WithColor(SettingsToColors(settings), k, v))),
                       ShowError(HandleError(Some(status)).value)]
    ensures saved == [PutThemeSettings(ColorsToSettings(WithColor(SettingsToColors(settings), k, v))), Reload]
  {
    var editor := new ThemeEditor(settings, logoURL);
    assert editor.SaveButtonDisabled() && !editor.PreventNavigation();
    editor.HandleColorChange(k, v);
    assert !editor.SaveButtonDisabled() && editor.PreventNavigation();
    failed := editor.SaveChanges(Ok, Failed(HttpError(Some(status))));
    dirtyAfterFailure := !editor.SaveButtonDisabled() && !editor.isShowSuccess;
    saved := editor.SaveChanges(Ok, Ok);
    cleanAfterSuccess := editor.SaveButtonDisabled() && editor.isShowSuccess;
  }
}
