/** `generateShareLink`: builds the query of a link that carries the current
    brand, theme, profile image and background video, unless either media
    setting is a local upload (a `data:` URL), in which case it alerts once
    per offending setting and produces no link. */
module ShareLink {
  import opened Outcomes
  import opened Pairs
  import Settings
  import UriComponent

  type Params = seq<(string, string)>

  /** The two alerts `generateShareLink` can raise, in the order it checks. */
  datatype Alert = ProfileIsLocalUpload | BackgroundIsLocalUpload

  /** Either the alerts shown and no link, or the query of the copied link. */
  datatype ShareOutcome = Blocked(alerts: seq<Alert>) | Copied(params: Params)

  predicate StartsWith(s: string, prefix: string) {
    |prefix| <= |s| && s[..|prefix|] == prefix
  }

  predicate IsDataUrl(url: string) {
    StartsWith(url, "data:")
  }

  /** `params.set(name, value)` of the URL Standard: the first pair with that
      name takes the value and later pairs with the name are removed;
      without such a pair, the pair is appended. */
  function SetParam(params: Params, name: string, value: string): (r: Params)
    ensures KeyIndex(params, name) == |params| ==> r == params + [(name, value)]
  {
    var p := KeyIndex(params, name);
    if p == |params| then params + [(name, value)]
    else params[..p] + [(name, value)] + RemoveName(params[p + 1..], name)
  }

  /** For a name already present, `set` keeps the pairs before the first
      one, puts the new value in its place and removes the later ones. */
  lemma SetParamReplaces(params: Params, name: string, value: string)
    requires KeyIndex(params, name) < |params|
    ensures var r := SetParam(params, name, value);
      var p := KeyIndex(params, name);
      && p < |r|
      && r[..p] == params[..p]
      && r[p] == (name, value)
      && r[p + 1..] == RemoveName(params[p + 1..], name)
      && forall i :: p < i < |r| ==> r[i].0 != name
  {
    var r := SetParam(params, name, value);
    var p := KeyIndex(params, name);
    assert r == params[..p] + [(name, value)] + RemoveName(params[p + 1..], name);
  }

  /** The pairs other than those named `name`, in their order. */
  function RemoveName(params: Params, name: string): (r: Params)
    ensures forall i :: 0 <= i < |r| ==> r[i].0 != name
    decreases |params|
  {
    if |params| == 0 then []
    else if params[0].0 == name then RemoveName(params[1..], name)
    else [params[0]] + RemoveName(params[1..], name)
  }

  /** Removing a name from two runs of pairs removes it from each. */
  lemma {:induction false} RemoveNameAppend(a: Params, b: Params, name: string)
    ensures RemoveName(a + b, name) == RemoveName(a, name) + RemoveName(b, name)
    decreases |a|
  {
    if |a| > 0 {
      assert (a + b)[1..] == a[1..] + b;
      RemoveNameAppend(a[1..], b, name);
    } else {
      assert a + b == b;
    }
  }

  /** `RemoveName` is a filter: a pair is kept, at the end, exactly when it
      has another name. */
  lemma RemoveNameSnoc(a: Params, x: (string, string), name: string)
    ensures RemoveName(a + [x], name) == RemoveName(a, name) + (if x.0 == name then [] else [x])
  {
    RemoveNameAppend(a, [x], name);
    assert [x][1..] == [];
  }

  /** The pairs of the shared link: brand and theme always, then profile and
      background when non-empty. */
  function ShareParams(brandName: string, theme: string, profileUrl: string, bgVideoUrl: string): Params
  {
    [("brand", brandName), ("theme", theme)]
    + (if profileUrl != "" then [("profile", profileUrl)] else [])
    + (if bgVideoUrl != "" then [("bg", bgVideoUrl)] else [])
  }

  /** `generateShareLink()`. Both checks run before the early return, so a
      profile and a background that are both local uploads raise two alerts. */
  method GenerateShareLink(brandName: string, theme: string, profileUrl: string, bgVideoUrl: string)
    returns (r: ShareOutcome)
    ensures r.Blocked? <==> IsDataUrl(profileUrl) || IsDataUrl(bgVideoUrl)
    ensures r.Blocked? ==>
      r.alerts == (if IsDataUrl(profileUrl) then [ProfileIsLocalUpload] else [])
                + (if IsDataUrl(bgVideoUrl) then [BackgroundIsLocalUpload] else [])
    ensures r.Copied? ==> r.params == ShareParams(brandName, theme, profileUrl, bgVideoUrl)
  {
    var hasError := false;
    var alerts: seq<Alert> := [];
    var params: Params := [];
    params := SetParam(params, "brand", brandName);
    params := SetParam(params, "theme", theme);

    if IsDataUrl(profileUrl) {
      alerts := alerts + [ProfileIsLocalUpload];
      hasError := true;
    } else if profileUrl != "" {
      params := SetParam(params, "profile", profileUrl);
    }

    if IsDataUrl(bgVideoUrl) {
      alerts := alerts + [BackgroundIsLocalUpload];
      hasError := true;
    } else if bgVideoUrl != "" {
      params := SetParam(params, "bg", bgVideoUrl);
    }

    if hasError {
      return Blocked(alerts);
    }
    return Copied(params);
  }

  /** Reading the shared query back: every non-empty shared value is what
      `get` returns for its name, and an unshared profile or background is
      absent. */
  lemma ShareParamsReadBack(brandName: string, theme: string, profileUrl: string, bgVideoUrl: string)
    ensures var q := ShareParams(brandName, theme, profileUrl, bgVideoUrl);
      && Settings.QueryGet(q, "brand") == Some(brandName)
      && Settings.QueryGet(q, "theme") == Some(theme)
      && Settings.QueryGet(q, "profile") == (if profileUrl != "" then Some(profileUrl) else None)
      && Settings.QueryGet(q, "bg") == (if bgVideoUrl != "" then Some(bgVideoUrl) else None)
  {
    var q := ShareParams(brandName, theme, profileUrl, bgVideoUrl);
    assert q[0] == ("brand", brandName) && q[1] == ("theme", theme);
    ProfileReadBack(brandName, theme, profileUrl, bgVideoUrl);
    BackgroundReadBack(brandName, theme, profileUrl, bgVideoUrl);
  }

  lemma ProfileReadBack(brandName: string, theme: string, profileUrl: string, bgVideoUrl: string)
    ensures Settings.QueryGet(ShareParams(brandName, theme, profileUrl, bgVideoUrl), "profile")
         == (if profileUrl != "" then Some(profileUrl) else None)
  {
    var q := ShareParams(brandName, theme, profileUrl, bgVideoUrl);
    if profileUrl != "" {
      assert q[2] == ("profile", profileUrl);
      FirstMatch(q, 2, "profile");
    } else {
      assert forall i :: 0 <= i < |q| ==> q[i].0 != "profile";
    }
  }

  lemma BackgroundReadBack(brandName: string, theme: string, profileUrl: string, bgVideoUrl: string)
    ensures Settings.QueryGet(ShareParams(brandName, theme, profileUrl, bgVideoUrl), "bg")
         == (if bgVideoUrl != "" then Some(bgVideoUrl) else None)
  {
    var q := ShareParams(brandName, theme, profileUrl, bgVideoUrl);
    if bgVideoUrl != "" {
      assert q[|q| - 1] == ("bg", bgVideoUrl);
      FirstMatch(q, |q| - 1, "bg");
    } else {
      assert forall i :: 0 <= i < |q| ==> q[i].0 != "bg";
    }
  }

  /** `get` returns the pair at `p` when no earlier pair has its name. */
  lemma FirstMatch(q: Params, p: nat, key: string)
    requires p < |q| && q[p].0 == key
    requires forall i :: 0 <= i < p ==> q[i].0 != key
    ensures Settings.QueryGet(q, key) == Some(q[p].1)
  {
  }

  /** Opening a shared link restores what was shared: a non-empty shared
      value wins over the recipient's storage, and an empty profile or
      background leaves the recipient's own value or default in place. */
  lemma SharedLinkRestoresSettings(brandName: string, theme: string, profileUrl: string, bgVideoUrl: string,
                                   storage: Settings.Storage)
    ensures var s := Settings.InitialSettings(ShareParams(brandName, theme, profileUrl, bgVideoUrl), storage);
      && (brandName != "" ==> s.brandName == brandName)
      && (theme != "" ==> s.theme == theme)
      && (profileUrl != "" ==> s.profileUrl == profileUrl)
      && (bgVideoUrl != "" ==> s.bgVideoUrl == bgVideoUrl)
      && (profileUrl == "" ==> s.profileUrl == Settings.InitialSettings([], storage).profileUrl)
      && (bgVideoUrl == "" ==> s.bgVideoUrl == Settings.InitialSettings([], storage).bgVideoUrl)
  {
    ShareParamsReadBack(brandName, theme, profileUrl, bgVideoUrl);
  }

  // ---------------------------------------------------------------------
  // The shared link read back by getUrlParam as written
  // ---------------------------------------------------------------------

  /** A brand name containing a bare `%` makes the shared link unusable:
      URLSearchParams hands `100%` to getUrlParam, whose second decoding
      throws a URIError while the recipient's page initialises. */
  lemma PercentInSharedValueThrows()
    ensures Settings.GetUrlParamAsWritten(ShareParams("100%", "empire", "", ""), "brand").Failure?
  {
    var q := ShareParams("100%", "empire", "", "");
    assert Settings.QueryGet(q, "brand") == Some("100%");
    assert "100%" == "100" + "%" + "";
    UriComponent.TrailingPercentThrows("100", "");
  }

  /** An escape that is part of a shared URL is decoded a second time: a
      profile image at `a%20b.png` arrives as `a b.png`. */
  lemma EscapeInSharedValueIsDecodedTwice()
    ensures Settings.GetUrlParamAsWritten(ShareParams("x", "empire", "a%20b.png", ""), "profile")
         == Success(Some("a b.png"))
  {
    ShareParamsReadBack("x", "empire", "a%20b.png", "");
    assert "a%20b.png" == ['a'] + ("%20" + "b.png");
    assert "a b.png" == ['a'] + (" " + "b.png");
    UriComponent.EscapedSpaceInWordDecodes('a', "b.png");
  }
}
