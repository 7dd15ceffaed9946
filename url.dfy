/** `getAbsoluteUrl` (script.js): the normalisation applied to every link and image URL before it is opened. */
module Url {
  import opened Wrappers
  import opened Text

  /**
   * `url` is `None` when the value handed in is not a string.
   * Blank and non-string input becomes `about:blank`; local asset paths and
   * http(s) URLs pass through; anything else is assumed to be a bare host and
   * gets an `https://` scheme.
   */
  function GetAbsoluteUrl(url: Option<string>): (r: string)
    ensures url.None? || Trim(url.value) == "" ==> r == "about:blank"
    ensures url.Some? && Trim(url.value) != "" ==>
      if StartsWith(url.value, "assets/") || StartsWith(url.value, "http://") || StartsWith(url.value, "https://")
      then r == url.value
      else r == "https://" + url.value
  {
    match url
    case None => "about:blank"
    case Some(s) =>
      if Trim(s) == "" then "about:blank"
      else if StartsWith(s, "assets/") then s
      else if StartsWith(s, "http://") || StartsWith(s, "https://") then s
      else "https://" + s
  }

  /** `about:blank` comes out only for blank or non-string input. */
  lemma AboutBlankOnlyForBlank(s: string)
    requires Trim(s) != ""
    ensures GetAbsoluteUrl(Some(s)) != "about:blank"
  {
    ResultIsAbsolute(s);
    BlankNotAbsolute();
  }

  /** `about:blank` carries neither a scheme nor the asset prefix. */
  lemma BlankNotAbsolute()
    ensures var r := "about:blank"; !(StartsWith(r, "assets/") || StartsWith(r, "http://") || StartsWith(r, "https://"))
  {
    var r := "about:blank";
    if StartsWith(r, "assets/") {
      DifferAt(r[..7], "assets/", 1);
    } else if StartsWith(r, "http://") || StartsWith(r, "https://") {
      DifferAt(r[..7], "http://", 0);
    }
  }

  lemma DifferAt(a: string, b: string, k: nat)
    requires k < |a| && k < |b| && a[k] != b[k]
    ensures a != b
  {
  }

  /** Every non-blank result already carries a scheme or the asset prefix. */
  lemma ResultIsAbsolute(s: string)
    requires Trim(s) != ""
    ensures var r := GetAbsoluteUrl(Some(s));
      StartsWith(r, "assets/") || StartsWith(r, "http://") || StartsWith(r, "https://")
  {
    var r := GetAbsoluteUrl(Some(s));
    if !(StartsWith(s, "assets/") || StartsWith(s, "http://") || StartsWith(s, "https://")) {
      assert r[..8] == "https://";
    }
  }

  /** A string with a scheme or the asset prefix is not blank. */
  lemma AbsoluteNotBlank(r: string)
    requires StartsWith(r, "assets/") || StartsWith(r, "http://") || StartsWith(r, "https://")
    ensures Trim(r) != ""
  {
    assert r[0] == r[..7][0];
    assert r[0] == 'a' || r[0] == 'h';
    BlankIffAllSpace(r);
  }

  /** A non-blank input gives a non-blank result. */
  lemma ResultNotBlank(s: string)
    requires Trim(s) != ""
    ensures Trim(GetAbsoluteUrl(Some(s))) != ""
  {
    ResultIsAbsolute(s);
    AbsoluteNotBlank(GetAbsoluteUrl(Some(s)));
  }

  /** Normalising twice is normalising once (on strings that are not blank). */
  lemma Idempotent(s: string)
    requires Trim(s) != ""
    ensures GetAbsoluteUrl(Some(GetAbsoluteUrl(Some(s)))) == GetAbsoluteUrl(Some(s))
  {
    ResultIsAbsolute(s);
    ResultNotBlank(s);
  }
}
