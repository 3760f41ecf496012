/**
 * The `storage` helper over the browser's localStorage: a persistent map
 * from keys to strings, with one getter/setter/remover per setting, two
 * getters with fallbacks, and the two bulk clears.
 */
module Storage {
  import opened Wrappers
  import opened Types

  /** The settings the helper knows about, each under its own key. */
  datatype Setting =
    | AccessToken | RefreshTokenKey | UserKey | ApiBaseUrl | AiProvider
    | OpenAIApiKey | OpenAIModel | DeepSeekApiKey | DeepSeekModel | XiaomiApiKey | XiaomiModel

  function KeyName(s: Setting): string {
    match s
    case AccessToken => "access_token"
    case RefreshTokenKey => "refresh_token"
    case UserKey => "user"
    case ApiBaseUrl => "api_base_url"
    case AiProvider => "ai_provider"
    case OpenAIApiKey => "openai_api_key"
    case OpenAIModel => "openai_model"
    case DeepSeekApiKey => "deepseek_api_key"
    case DeepSeekModel => "deepseek_model"
    case XiaomiApiKey => "xiaomi_api_key"
    case XiaomiModel => "xiaomi_model"
  }

  /** Distinct settings live under distinct keys, so writing one never touches another. */
  lemma KeyNamesDistinct(s: Setting, t: Setting)
    requires KeyName(s) == KeyName(t)
    ensures s == t
  {
    var k := KeyName(t);
    assert |KeyName(s)| == |k| && KeyName(s)[0] == k[0];
    if |k| > 9 {
      assert KeyName(s)[9] == k[9];
    }
  }

  const DefaultBaseURL: string := "http://127.0.0.1:8000/api/v1"
  const DefaultProvider: string := "openai"

  /** The three keys `clearAuth` removes. */
  const AuthKeys: set<string> := {KeyName(AccessToken), KeyName(RefreshTokenKey), KeyName(UserKey)}

  /** `localStorage.getItem`: the stored string, or null. */
  function ItemOf(items: map<string, string>, key: string): (v: Option<string>)
    ensures v.Some? <==> key in items
    ensures v.Some? ==> v.value == items[key]
  {
    if key in items then Some(items[key]) else None
  }

  /** `getItem(key) || fallback`: an absent or empty item yields the fallback. */
  function OrFallback(v: Option<string>, fallback: string): (r: string)
    ensures v.Some? && v.value != "" ==> r == v.value
    ensures v.None? || v.value == "" ==> r == fallback
  {
    if v.Some? && v.value != "" then v.value else fallback
  }

  /** The store `clearAuth` leaves: the three auth keys gone, everything else as it was. */
  function ClearedAuth(items: map<string, string>): (r: map<string, string>)
    ensures forall k :: k in r <==> k in items && k !in AuthKeys
    ensures forall k | k in r :: r[k] == items[k]
  {
    items - AuthKeys
  }

  /** Writing one setting leaves every other setting readable as before. */
  lemma SetOnlyTouchesItsKey(items: map<string, string>, s: Setting, value: string, t: Setting)
    ensures ItemOf(items[KeyName(s) := value], KeyName(s)) == Some(value)
    ensures s != t ==> ItemOf(items[KeyName(s) := value], KeyName(t)) == ItemOf(items, KeyName(t))
  {
    if s != t && KeyName(s) == KeyName(t) {
      KeyNamesDistinct(s, t);
    }
  }

  /** Removing one setting leaves every other setting readable as before. */
  lemma RemoveOnlyTouchesItsKey(items: map<string, string>, s: Setting, t: Setting)
    ensures ItemOf(items - {KeyName(s)}, KeyName(s)) == None
    ensures s != t ==> ItemOf(items - {KeyName(s)}, KeyName(t)) == ItemOf(items, KeyName(t))
  {
    if s != t && KeyName(s) == KeyName(t) {
      KeyNamesDistinct(s, t);
    }
  }

  /** The auth settings are exactly the access token, the refresh token and the user. */
  lemma AuthKeysExactly(s: Setting)
    ensures KeyName(s) in AuthKeys <==> s == AccessToken || s == RefreshTokenKey || s == UserKey
  {
    if KeyName(s) == KeyName(AccessToken) {
      KeyNamesDistinct(s, AccessToken);
    } else if KeyName(s) == KeyName(RefreshTokenKey) {
      KeyNamesDistinct(s, RefreshTokenKey);
    } else if KeyName(s) == KeyName(UserKey) {
      KeyNamesDistinct(s, UserKey);
    }
  }

  /** After `clearAuth` no auth setting is readable and every other setting is unchanged. */
  lemma ClearAuthFrame(items: map<string, string>, s: Setting)
    ensures s == AccessToken || s == RefreshTokenKey || s == UserKey ==> ItemOf(ClearedAuth(items), KeyName(s)) == None
    ensures !(s == AccessToken || s == RefreshTokenKey || s == UserKey) ==>
              ItemOf(ClearedAuth(items), KeyName(s)) == ItemOf(items, KeyName(s))
  {
    AuthKeysExactly(s);
  }

  /** The browser's localStorage for the app's origin. */
  class LocalStorage {
    var items: map<string, string>

    constructor (initial: map<string, string>)
      ensures items == initial
    {
      items := initial;
    }

    /** `getToken`, `getRefreshToken`, `getUser` and the provider key/model getters. */
    method Get(s: Setting) returns (v: Option<string>)
      ensures v == ItemOf(items, KeyName(s))
    {
      if KeyName(s) in items {
        v := Some(items[KeyName(s)]);
      } else {
        v := None;
      }
    }

    /** `setToken`, `setRefreshToken`, `setBaseURL`, `setAIProvider` and the provider key/model setters. */
    method Set(s: Setting, value: string)
      modifies this
      ensures items == old(items)[KeyName(s) := value]
    {
      items := items[KeyName(s) := value];
    }

    /** `removeToken`, `removeRefreshToken`, `removeUser`, `removeBaseURL`. */
    method Remove(s: Setting)
      modifies this
      ensures items == old(items) - {KeyName(s)}
    {
      items := items - {KeyName(s)};
    }

    /** `setUser`: the user is stored as its JSON text. */
    method SetUser(u: User)
      modifies this
      ensures items == old(items)[KeyName(UserKey) := Stringify(u)]
    {
      Set(UserKey, Stringify(u));
    }

    /** `clearAuth`: the three removals in turn. */
    method ClearAuth()
      modifies this
      ensures items == ClearedAuth(old(items))
    {
      Remove(AccessToken);
      Remove(RefreshTokenKey);
      Remove(UserKey);
    }

    /** `getBaseURL`: the stored URL, unless absent or empty. */
    method GetBaseURL() returns (url: string)
      ensures url == OrFallback(ItemOf(items, KeyName(ApiBaseUrl)), DefaultBaseURL)
    {
      var v := Get(ApiBaseUrl);
      if v.Some? && v.value != "" {
        url := v.value;
      } else {
        url := DefaultBaseURL;
      }
    }

    /** `getAIProvider`: the stored provider, unless absent or empty. */
    method GetAIProvider() returns (provider: string)
      ensures provider == OrFallback(ItemOf(items, KeyName(AiProvider)), DefaultProvider)
    {
      var v := Get(AiProvider);
      if v.Some? && v.value != "" {
        provider := v.value;
      } else {
        provider := DefaultProvider;
      }
    }

    /** `clearAll`: `localStorage.clear()`. */
    method ClearAll()
      modifies this
      ensures items == map[]
    {
      items := map[];
    }
  }

  /** Set then get round-trips, and touches no other setting. */
  method SetThenGet(ls: LocalStorage, s: Setting, value: string, t: Setting) returns (got: Option<string>, other: Option<string>)
    modifies ls
    ensures got == Some(value)
    ensures s != t ==> other == ItemOf(old(ls.items), KeyName(t))
  {
    ls.Set(s, value);
    got := ls.Get(s);
    other := ls.Get(t);
    SetOnlyTouchesItsKey(old(ls.items), s, value, t);
  }
}
