/** Where the site's settings start out (App.tsx, "Persistent State
    Initialization"): each of theme, brand name, profile image and background
    video takes the first non-empty of the URL query parameter, the value in
    local storage and a built-in default; the video-profile flag and the API
    key come from local storage only. Every change is mirrored back into
    local storage. */
module Settings {
  import opened Outcomes
  import opened Pairs
  import UriComponent

  /** `window.location.search` as URLSearchParams sees it: name-value pairs
      in order, already percent-decoded. */
  type Query = seq<(string, string)>

  /** `localStorage`. */
  type Storage = map<string, string>

  /** `params.get(key)`: the value of the first pair named `key`, or null. */
  function QueryGet(q: Query, key: string): (r: Option<string>)
    ensures r.None? <==> forall i :: 0 <= i < |q| ==> q[i].0 != key
    ensures r.Some? ==>
      var p := KeyIndex(q, key);
      && p < |q| && q[p] == (key, r.value)
      && forall i :: 0 <= i < p ==> q[i].0 != key
  {
    Lookup(q, key)
  }

  /** `localStorage.getItem(key)`. */
  function GetItem(storage: Storage, key: string): (r: Option<string>)
    ensures r.Some? <==> key in storage
    ensures r.Some? ==> r.value == storage[key]
  {
    if key in storage then Some(storage[key]) else None
  }

  /** JavaScript truthiness of a string-or-null: present and non-empty. */
  predicate Truthy(v: Option<string>) {
    v.Some? && v.value != ""
  }

  /** `a || b` on strings-or-null. */
  function Or(a: Option<string>, b: Option<string>): Option<string> {
    if Truthy(a) then a else b
  }

  /** The reference reading of a `||` chain ending in a default: the first
      present, non-empty candidate, else the default. */
  function FirstNonEmpty(candidates: seq<Option<string>>, default: string): string
  {
    if |candidates| == 0 then default
    else if Truthy(candidates[0]) then candidates[0].value
    else FirstNonEmpty(candidates[1..], default)
  }

  /** `getUrlParam(key)` as App.tsx writes it: null for a missing or empty
      parameter, otherwise `decodeURIComponent` of the value that
      URLSearchParams has already decoded once, which may throw. */
  function GetUrlParamAsWritten(q: Query, key: string): (r: Result<Option<string>, UriComponent.UriError>)
    ensures QueryGet(q, key).None? || QueryGet(q, key) == Some("") ==> r == Success(None)
    ensures Truthy(QueryGet(q, key)) ==>
      var decoded := UriComponent.Decode(QueryGet(q, key).value);
      && (r.Failure? <==> decoded.Failure?)
      && (r.Success? ==> r.value == Some(decoded.value))
  {
    var val := QueryGet(q, key);
    if Truthy(val) then
      match UriComponent.Decode(val.value)
      case Success(decoded) => Success(Some(decoded))
      case Failure(e) => Failure(e)
    else Success(None)
  }

  /** `getUrlParam(key)` with the value used as URLSearchParams returns it:
      null for a missing or empty parameter, the value otherwise. */
  function GetUrlParam(q: Query, key: string): (r: Option<string>)
    ensures r.None? <==> QueryGet(q, key).None? || QueryGet(q, key) == Some("")
    ensures r.Some? ==> r == QueryGet(q, key) && r.value != ""
  {
    var val := QueryGet(q, key);
    if Truthy(val) then val else None
  }

  /** The second decoding is harmless exactly on values without `%`: there
      the as-written `getUrlParam` returns what the corrected one does. */
  lemma GetUrlParamAgreesWithoutEscapes(q: Query, key: string)
    requires QueryGet(q, key).Some? ==>
      forall i :: 0 <= i < |QueryGet(q, key).value| ==> QueryGet(q, key).value[i] != '%'
    ensures GetUrlParamAsWritten(q, key) == Success(GetUrlParam(q, key))
  {
    if QueryGet(q, key).Some? {
      UriComponent.DecodeWithoutEscapes(QueryGet(q, key).value);
    }
  }

  datatype Settings = Settings(
    theme: string,
    brandName: string,
    profileUrl: string,
    isVideoProfile: bool,
    bgVideoUrl: string,
    userApiKey: string)

  const DefaultTheme := "empire"
  const DefaultBrandName := "NEURA NEST"
  const DefaultProfileUrl := "https://images.unsplash.com/photo-1560250097-0b93528c311a?auto=format&fit=crop&w=800&q=80"

  // The local-storage keys.
  const ThemeKey := "empire_theme"
  const BrandNameKey := "empire_brandName"
  const ProfileUrlKey := "empire_profileUrl"
  const IsVideoProfileKey := "empire_isVideoProfile"
  const BgVideoUrlKey := "empire_bgVideoUrl"
  const UserApiKeyKey := "empire_userApiKey"
  const StorageKeys := {ThemeKey, BrandNameKey, ProfileUrlKey, IsVideoProfileKey, BgVideoUrlKey, UserApiKeyKey}

  /** The `useState` initialisers: `getUrlParam(p) || getItem(k) || default`
      for the four shareable settings, `getItem(k) === 'true'` for the video
      flag and `getItem(k) || ''` for the API key. */
  function InitialSettings(q: Query, storage: Storage): (s: Settings)
  {
    Settings(
      theme := Or(Or(GetUrlParam(q, "theme"), GetItem(storage, ThemeKey)), Some(DefaultTheme)).value,
      brandName := Or(Or(GetUrlParam(q, "brand"), GetItem(storage, BrandNameKey)), Some(DefaultBrandName)).value,
      profileUrl := Or(Or(GetUrlParam(q, "profile"), GetItem(storage, ProfileUrlKey)), Some(DefaultProfileUrl)).value,
      isVideoProfile := GetItem(storage, IsVideoProfileKey) == Some("true"),
      bgVideoUrl := Or(Or(GetUrlParam(q, "bg"), GetItem(storage, BgVideoUrlKey)), Some("")).value,
      userApiKey := Or(GetItem(storage, UserApiKeyKey), Some("")).value)
  }

  /** A `||` chain of two candidates and a default is the first non-empty. */
  lemma OrChainIsFirstNonEmpty(a: Option<string>, b: Option<string>, default: string)
    ensures Or(Or(a, b), Some(default)).value == FirstNonEmpty([a, b], default)
  {
    assert [a, b][1..] == [b];
    assert [b][1..] == [];
    if !Truthy(a) {
      assert FirstNonEmpty([a, b], default) == FirstNonEmpty([b], default);
      if !Truthy(b) {
        assert FirstNonEmpty([b], default) == FirstNonEmpty([], default);
      }
    }
  }

  /** The precedence URL > storage > default, with empty strings skipped. */
  lemma InitialSettingsPrecedence(q: Query, storage: Storage)
    ensures InitialSettings(q, storage).theme
         == FirstNonEmpty([GetUrlParam(q, "theme"), GetItem(storage, ThemeKey)], DefaultTheme)
    ensures InitialSettings(q, storage).brandName
         == FirstNonEmpty([GetUrlParam(q, "brand"), GetItem(storage, BrandNameKey)], DefaultBrandName)
    ensures InitialSettings(q, storage).profileUrl
         == FirstNonEmpty([GetUrlParam(q, "profile"), GetItem(storage, ProfileUrlKey)], DefaultProfileUrl)
    ensures InitialSettings(q, storage).bgVideoUrl
         == FirstNonEmpty([GetUrlParam(q, "bg"), GetItem(storage, BgVideoUrlKey)], "")
    ensures InitialSettings(q, storage).userApiKey == FirstNonEmpty([GetItem(storage, UserApiKeyKey)], "")
    ensures InitialSettings(q, storage).isVideoProfile
        <==> IsVideoProfileKey in storage && storage[IsVideoProfileKey] == "true"
  {
    OrChainIsFirstNonEmpty(GetUrlParam(q, "theme"), GetItem(storage, ThemeKey), DefaultTheme);
    OrChainIsFirstNonEmpty(GetUrlParam(q, "brand"), GetItem(storage, BrandNameKey), DefaultBrandName);
    OrChainIsFirstNonEmpty(GetUrlParam(q, "profile"), GetItem(storage, ProfileUrlKey), DefaultProfileUrl);
    OrChainIsFirstNonEmpty(GetUrlParam(q, "bg"), GetItem(storage, BgVideoUrlKey), "");
    assert [GetItem(storage, UserApiKeyKey)][1..] == [];
  }

  /** An empty stored string does not win over the default: with no URL
      parameter, an empty stored brand name yields "NEURA NEST". */
  lemma EmptyStoredValueFallsThrough(q: Query, storage: Storage)
    requires QueryGet(q, "brand").None?
    requires BrandNameKey in storage && storage[BrandNameKey] == ""
    ensures InitialSettings(q, storage).brandName == DefaultBrandName
  {
  }

  /** The persistence effects: each setting written under its key, the flag
      as `String(isVideoProfile)`. */
  function Persist(s: Settings, storage: Storage): (after: Storage)
    ensures after.Keys == storage.Keys + StorageKeys
    ensures && after[ThemeKey] == s.theme
            && after[BrandNameKey] == s.brandName
            && after[ProfileUrlKey] == s.profileUrl
            && after[IsVideoProfileKey] == (if s.isVideoProfile then "true" else "false")
            && after[BgVideoUrlKey] == s.bgVideoUrl
            && after[UserApiKeyKey] == s.userApiKey
    ensures forall k :: k in storage && k !in StorageKeys ==> after[k] == storage[k]
  {
    storage[ThemeKey := s.theme]
           [BrandNameKey := s.brandName]
           [ProfileUrlKey := s.profileUrl]
           [IsVideoProfileKey := if s.isVideoProfile then "true" else "false"]
           [BgVideoUrlKey := s.bgVideoUrl]
           [UserApiKeyKey := s.userApiKey]
  }

  /** Reloading without a query restores what was persisted, provided the
      settings whose default is not empty were not set to the empty string
      (those fall back to their default). */
  lemma ReloadRestoresSettings(s: Settings, storage: Storage)
    requires s.theme != "" && s.brandName != "" && s.profileUrl != ""
    ensures InitialSettings([], Persist(s, storage)) == s
  {
    var after := Persist(s, storage);
    assert after[ThemeKey] == s.theme;
    assert after[BrandNameKey] == s.brandName;
    assert after[ProfileUrlKey] == s.profileUrl;
    assert after[BgVideoUrlKey] == s.bgVideoUrl;
    assert after[UserApiKeyKey] == s.userApiKey;
    assert after[IsVideoProfileKey] == if s.isVideoProfile then "true" else "false";
  }
}
