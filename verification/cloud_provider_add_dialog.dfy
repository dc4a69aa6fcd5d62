/**
 * The dialog that registers a new cloud provider by URL, with the URL's
 * scheme checked as it is typed, and a link that opens a disclaimer.
 */
module CloudProviderDialog {

  /** ASCII upper-case letters folded to lower case; every other character kept. */
  function FoldAscii(c: char): char
  {
    if 'A' <= c <= 'Z' then (c as int + 32) as char else c
  }

  /** `url` starts with `scheme` (given in lower case), letters compared without case. */
  predicate StartsWithIgnoringCase(url: string, scheme: string)
  {
    |url| >= |scheme| && forall i :: 0 <= i < |scheme| ==> FoldAscii(url[i]) == scheme[i]
  }

  /**
   * A prefix that begins `http://` or `https://` in any letter case: such a
   * URL starts with the four letters of `http`, in either case, and has
   * `://` right after them or after an `s`.
   */
  predicate HasHttpScheme(url: string)
    ensures HasHttpScheme(url) ==>
              && |url| >= 7
              && url[0] in "Hh" && url[1] in "Tt" && url[2] in "Tt" && url[3] in "Pp"
              && (url[4..7] == "://" || (|url| >= 8 && url[4] in "Ss" && url[5..8] == "://"))
  {
    StartsWithIgnoringCase(url, "http://") || StartsWithIgnoringCase(url, "https://")
  }

  /**
   * The match of `^[Hh][Tt][Tt][Pp]([Ss]?):\/\/` at the start of `url`: a
   * matching URL is at least seven characters long and has `://` at
   * position 4 or 5.
   */
  predicate MatchesSchemePattern(url: string)
    ensures MatchesSchemePattern(url) ==> |url| >= 7 && (url[4..7] == "://" || (|url| >= 8 && url[5..8] == "://"))
  {
    && |url| >= 4
    && url[0] in "Hh" && url[1] in "Tt" && url[2] in "Tt" && url[3] in "Pp"
    && var rest := if |url| > 4 && url[4] in "Ss" then url[5..] else url[4..];
       |rest| >= 3 && rest[0] == ':' && rest[1] == '/' && rest[2] == '/'
  }

  /**
   * `validateUrl`: the empty URL is accepted; any other URL must begin with
   * `http://` or `https://`, with any letter case in the scheme.
   */
  function ValidateUrl(url: string): (valid: bool)
    ensures url == "" ==> valid
    ensures url != "" ==> (valid <==> HasHttpScheme(url))
  {
    if url == "" then true
    else
      PatternIsHttpScheme(url);
      MatchesSchemePattern(url)
  }

  /** The transliterated pattern accepts exactly the case-insensitive `http://` and `https://` prefixes. */
  lemma PatternIsHttpScheme(url: string)
    ensures MatchesSchemePattern(url) <==> HasHttpScheme(url)
  {
    if StartsWithIgnoringCase(url, "https://") {
      assert FoldAscii(url[4]) == 's';
    }
    if StartsWithIgnoringCase(url, "http://") {
      assert FoldAscii(url[4]) == ':';
    }
    if MatchesSchemePattern(url) {
      if url[4] in "Ss" {
        assert forall i :: 0 <= i < 8 ==> FoldAscii(url[i]) == "https://"[i];
      } else {
        assert forall i :: 0 <= i < 7 ==> FoldAscii(url[i]) == "http://"[i];
      }
    }
  }

  /** URLs the dialog accepts: the scheme's letters may be in any case. */
  lemma AcceptedUrlExamples()
    ensures ValidateUrl("http://x") && ValidateUrl("HTTPS://x") && ValidateUrl("hTtP://")
  {
    assert HasHttpScheme("HTTPS://x") by {
      assert forall i :: 0 <= i < 8 ==> FoldAscii("HTTPS://x"[i]) == "https://"[i];
    }
    assert HasHttpScheme("hTtP://") by {
      assert forall i :: 0 <= i < 7 ==> FoldAscii("hTtP://"[i]) == "http://"[i];
    }
  }

  /** URLs the dialog refuses: another scheme, a single slash, a doubled `s`. */
  lemma RefusedUrlExamples()
    ensures !ValidateUrl("ftp://x")
    ensures !ValidateUrl("http:/x")
    ensures !ValidateUrl("httpss://x")
  {
    assert !HasHttpScheme("ftp://x") by {
      assert FoldAscii("ftp://x"[0]) != "http://"[0];
    }
    assert !HasHttpScheme("http:/x") by {
      assert FoldAscii("http:/x"[6]) != "http://"[6];
    }
    assert !HasHttpScheme("httpss://x") by {
      assert FoldAscii("httpss://x"[4]) != "http://"[4];
      assert FoldAscii("httpss://x"[5]) != "https://"[5];
    }
  }

  /** The dialog's state (`cloudProviderUrl`, `disclaimerDialogOpen`). */
  class CloudProviderAddDialog {
    var cloudProviderUrl: string
    var disclaimerDialogOpen: bool

    /** An empty URL with the disclaimer closed. */
    constructor()
      ensures cloudProviderUrl == "" && !disclaimerDialogOpen
    {
      cloudProviderUrl := "";
      disclaimerDialogOpen := false;
    }

    /** `handleTextChange`: the URL field now holds `value`. */
    method HandleTextChange(value: string)
      modifies this`cloudProviderUrl
      ensures cloudProviderUrl == value
    {
      cloudProviderUrl := value;
    }

    /** `openDisclaimerDialog`. */
    method OpenDisclaimerDialog()
      modifies this`disclaimerDialogOpen
      ensures disclaimerDialogOpen
    {
      disclaimerDialogOpen := true;
    }

    /** `closeDisclaimerDialog`. */
    method CloseDisclaimerDialog()
      modifies this`disclaimerDialogOpen
      ensures !disclaimerDialogOpen
    {
      disclaimerDialogOpen := false;
    }

    /** The URL field is marked as an error exactly when the URL is invalid; an empty field never is. */
    function UrlFieldError(): (error: bool)
      reads this
      ensures error <==> cloudProviderUrl != "" && !HasHttpScheme(cloudProviderUrl)
    {
      !ValidateUrl(cloudProviderUrl)
    }

    /** The register button is enabled exactly when the URL is non-empty and valid. */
    function RegisterDisabled(): (disabled: bool)
      reads this
      ensures !disabled <==> HasHttpScheme(cloudProviderUrl)
    {
      cloudProviderUrl == "" || !ValidateUrl(cloudProviderUrl)
    }

    /** The register button's action: hand the current URL over, which through the enabled button has an HTTP scheme. */
    method Register() returns (url: string)
      ensures url == cloudProviderUrl
      ensures !RegisterDisabled() ==> HasHttpScheme(url)
    {
      url := cloudProviderUrl;
    }
  }
}
