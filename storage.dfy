/** The storage service: typed accessors over the browser's local storage,
    and a cache whose entries carry an absolute expiry instant and are
    evicted lazily when read after it. Only the local storage path is
    modelled; the clock is the `now` parameter (milliseconds). */
module Storage {
  import opened Wrappers
  import opened Records
  import opened Strings

  type Items = map<string, Stored>

  const APP_PREFIX: string := "eneo_"
  const CACHE_PREFIX: string := "eneo_cache_"

  const AUTH_TOKEN_KEY: string := "eneo_auth_token"
  const REFRESH_TOKEN_KEY: string := "eneo_refresh_token"
  const USER_DATA_KEY: string := "eneo_user_data"
  const AUTH_STATUS_KEY: string := "eneo_auth_status"
  const BIOMETRIC_CREDENTIALS_KEY: string := "eneo_biometric_credentials"
  const BIOMETRIC_ENABLED_KEY: string := "eneo_biometric_enabled"
  const NOTIFICATION_PREFS_KEY: string := "eneo_notification_prefs"
  const LANGUAGE_KEY: string := "eneo_language"

  /** The milliseconds in one hour: `expiryHours * 60 * 60 * 1000`. */
  const HOUR_MS: nat := 60 * 60 * 1000

  /** `setCachedData`'s default expiry, 24 hours. */
  const DEFAULT_TTL_MS: nat := 24 * HOUR_MS

  /* ---------------- keys ---------------- */

  function CacheKey(key: string): (k: string)
    ensures StartsWith(k, CACHE_PREFIX) && k[|CACHE_PREFIX|..] == key
  {
    CACHE_PREFIX + key
  }

  lemma CacheKeyInjective(a: string, b: string)
    ensures CacheKey(a) == CacheKey(b) ==> a == b
  {
    if CacheKey(a) == CacheKey(b) {
      assert a == CacheKey(a)[|CACHE_PREFIX|..];
    }
  }

  predicate IsTextKey(k: string) {
    k == AUTH_TOKEN_KEY || k == REFRESH_TOKEN_KEY || k == AUTH_STATUS_KEY ||
    k == BIOMETRIC_ENABLED_KEY || k == LANGUAGE_KEY
  }

  predicate IsDocumentKey(k: string) {
    k == USER_DATA_KEY || k == BIOMETRIC_CREDENTIALS_KEY || k == NOTIFICATION_PREFS_KEY
  }

  /** No cache key is one of the accessors' fixed keys: the sixth character
      of a cache key is 'c', that of every fixed key is not. */
  lemma CacheKeyIsNotFixed(key: string)
    ensures !IsTextKey(CacheKey(key)) && !IsDocumentKey(CacheKey(key))
  {
    assert CacheKey(key)[5] == 'c';
  }

  /** Every key the cache uses starts with the application prefix, so
      `clearAll` reaches every key `clearCache` reaches. */
  lemma CachePrefixExtendsAppPrefix(k: string)
    requires StartsWith(k, CACHE_PREFIX)
    ensures StartsWith(k, APP_PREFIX)
  {
    assert k[..|APP_PREFIX|] == k[..|CACHE_PREFIX|][..|APP_PREFIX|];
  }

  /** What the accessors expect under their fixed keys: the plain-text keys
      hold plain text and each document key holds its own kind of document.
      Every operation below keeps it; other keys are unconstrained. */
  predicate ValidItems(items: Items) {
    && (forall k :: k in items && IsTextKey(k) ==> items[k].Text?)
    && (USER_DATA_KEY in items ==> items[USER_DATA_KEY].Json? && items[USER_DATA_KEY].doc.UserDoc?)
    && (BIOMETRIC_CREDENTIALS_KEY in items ==>
          items[BIOMETRIC_CREDENTIALS_KEY].Json? && items[BIOMETRIC_CREDENTIALS_KEY].doc.CredentialsDoc?)
    && (NOTIFICATION_PREFS_KEY in items ==>
          items[NOTIFICATION_PREFS_KEY].Json? && items[NOTIFICATION_PREFS_KEY].doc.PrefsDoc?)
  }

  /* ---------------- the cache, as functions of the stored items ---------------- */

  /** The entry is one `getCachedData` evicts at `now`: its expiry is
      truthy (non-zero) and strictly in the past. */
  predicate Expired(items: Items, k: string, now: int) {
    && k in items
    && items[k].Json? && items[k].doc.CacheEntry?
    && items[k].doc.expiry != 0
    && now > items[k].doc.expiry
  }

  /** The value `getCachedData(key)` returns at `now` (`Null` for null). */
  function CachedValue(items: Items, key: string, now: int): (d: CachePayload)
    ensures CacheKey(key) !in items ==> d == Null
    ensures CacheKey(key) in items && items[CacheKey(key)] == Text("") ==> d == Null
    ensures Expired(items, CacheKey(key), now) ==> d == Null
    ensures CacheKey(key) in items && items[CacheKey(key)].Json? && items[CacheKey(key)].doc.CacheEntry?
            && !Expired(items, CacheKey(key), now)
            ==> d == items[CacheKey(key)].doc.data
    ensures d != Null ==> CacheKey(key) in items && items[CacheKey(key)].Json?
  {
    var k := CacheKey(key);
    if k !in items then Null
    else match items[k]
      case Text(_) => Null
      case Json(doc) =>
        if !doc.CacheEntry? then Null
        else if doc.expiry != 0 && now > doc.expiry then Null
        else doc.data
  }

  /** The storage after `getCachedData(key)` at `now`: only an expired
      entry is removed, and only that one. */
  function AfterRead(items: Items, key: string, now: int): (r: Items)
    ensures Expired(items, CacheKey(key), now) ==> r == items - {CacheKey(key)}
    ensures !Expired(items, CacheKey(key), now) ==> r == items
  {
    if Expired(items, CacheKey(key), now) then items - {CacheKey(key)} else items
  }

  /** The storage after `setCachedData(key, data, ttl)` at `now`. */
  function Written(items: Items, key: string, data: CachePayload, ttlMs: nat, now: int): (r: Items)
    ensures r.Keys == items.Keys + {CacheKey(key)}
    ensures r[CacheKey(key)] == Json(CacheEntry(data, now + ttlMs))
    ensures forall k :: k in items && k != CacheKey(key) ==> r[k] == items[k]
  {
    items[CacheKey(key) := Json(CacheEntry(data, now + ttlMs))]
  }

  /** The storage with every key that starts with `prefix` removed. */
  function WithoutPrefix(items: Items, prefix: string): (r: Items)
    ensures forall k :: k in r <==> k in items && !StartsWith(k, prefix)
    ensures forall k :: k in r ==> r[k] == items[k]
  {
    map k | k in items && !StartsWith(k, prefix) :: items[k]
  }

  /* ---------------- properties of the cache ---------------- */

  /** A value written with a TTL is read back unchanged, and the storage is
      left as it was, at any instant up to and including the expiry (and at
      any instant at all when the expiry is 0). */
  lemma WriteThenRead(items: Items, key: string, data: CachePayload, ttlMs: nat, now: int, later: int)
    requires later <= now + ttlMs || now + ttlMs == 0
    ensures CachedValue(Written(items, key, data, ttlMs, now), key, later) == data
    ensures AfterRead(Written(items, key, data, ttlMs, now), key, later) == Written(items, key, data, ttlMs, now)
  {
  }

  /** Strictly after the expiry, the entry reads as null and is removed,
      leaving the rest of the storage as it was before the write. */
  lemma WriteThenReadExpired(items: Items, key: string, data: CachePayload, ttlMs: nat, now: int, later: int)
    requires later > now + ttlMs && now + ttlMs != 0
    ensures CachedValue(Written(items, key, data, ttlMs, now), key, later) == Null
    ensures AfterRead(Written(items, key, data, ttlMs, now), key, later) == items - {CacheKey(key)}
  {
    assert Written(items, key, data, ttlMs, now) - {CacheKey(key)} == items - {CacheKey(key)};
  }

  /** Invalidation, `setCachedData(key, null, 0)`, makes every later read
      return null, whether or not it evicts the entry. */
  lemma InvalidateThenRead(items: Items, key: string, now: int, later: int)
    ensures CachedValue(Written(items, key, Null, 0, now), key, later) == Null
  {
  }

  /** Writing one cache key leaves every other cache key's reading alone. */
  lemma WriteOtherKey(items: Items, key: string, other: string, data: CachePayload, ttlMs: nat, now: int, later: int)
    requires key != other
    ensures CachedValue(Written(items, key, data, ttlMs, now), other, later) == CachedValue(items, other, later)
  {
    CacheKeyInjective(key, other);
  }

  /** `clearCache` followed by `clearAll` is `clearAll`, and every key
      `clearCache` removes, `clearAll` removes too. */
  lemma ClearAllSubsumesClearCache(items: Items)
    ensures WithoutPrefix(WithoutPrefix(items, CACHE_PREFIX), APP_PREFIX) == WithoutPrefix(items, APP_PREFIX)
    ensures items.Keys - WithoutPrefix(items, CACHE_PREFIX).Keys <= items.Keys - WithoutPrefix(items, APP_PREFIX).Keys
  {
    forall k | k in items && StartsWith(k, CACHE_PREFIX) ensures StartsWith(k, APP_PREFIX) {
      CachePrefixExtendsAppPrefix(k);
    }
  }

  /** After `clearCache`, every cache read is null. */
  lemma ReadAfterClearCache(items: Items, key: string, now: int)
    ensures CachedValue(WithoutPrefix(items, CACHE_PREFIX), key, now) == Null
  {
  }

  /** The three cache operations keep the accessors' fixed keys intact. */
  lemma CacheOperationsKeepValid(items: Items, key: string, data: CachePayload, ttlMs: nat, now: int, prefix: string)
    requires ValidItems(items)
    ensures ValidItems(Written(items, key, data, ttlMs, now))
    ensures ValidItems(AfterRead(items, key, now))
    ensures ValidItems(WithoutPrefix(items, prefix))
  {
    CacheKeyIsNotFixed(key);
  }

  /* ---------------- the cache-first read of the domain services ---------------- */

  /** Which kind of value a payload is; `Null` is kind 0. */
  function Kind(p: CachePayload): nat {
    match p
    case Null => 0
    case TicketList(_) => 1
    case ChatSessionData(_) => 2
    case IncidentList(_) => 3
    case StatusData(_) => 4
    case SubscriptionList(_) => 5
    case ConsumptionSnapshot(_) => 6
    case BillSnapshot(_) => 7
  }

  /** What a domain service's cache-first read does at `now`: a cached value
      of the expected kind is returned as it is; otherwise the `built` value
      is stored under the key with the TTL and returned. The result is the
      value returned and the storage afterwards. */
  function CacheFirst(items: Items, key: string, built: CachePayload, ttlMs: nat, now: int): (r: (CachePayload, Items))
    requires built != Null
    ensures Kind(r.0) == Kind(built)
  {
    var cached := CachedValue(items, key, now);
    if Kind(cached) == Kind(built) then (cached, AfterRead(items, key, now))
    else (built, Written(AfterRead(items, key, now), key, built, ttlMs, now))
  }

  /** A hit returns the cached value and changes nothing. */
  lemma CacheFirstHit(items: Items, key: string, built: CachePayload, ttlMs: nat, now: int)
    requires built != Null && Kind(CachedValue(items, key, now)) == Kind(built)
    ensures CacheFirst(items, key, built, ttlMs, now) == (CachedValue(items, key, now), items)
  {
  }

  /** A miss returns the built value; until the TTL runs out, every later
      read returns that same value, whatever it would build itself, and
      changes nothing. */
  lemma CacheFirstMissStores(items: Items, key: string, built: CachePayload, ttlMs: nat, now: int,
                             other: CachePayload, otherTtlMs: nat, later: int)
    requires built != Null && Kind(CachedValue(items, key, now)) != Kind(built)
    requires Kind(other) == Kind(built) && later <= now + ttlMs
    ensures CacheFirst(items, key, built, ttlMs, now).0 == built
    ensures var after := CacheFirst(items, key, built, ttlMs, now).1;
      CacheFirst(after, key, other, otherTtlMs, later) == (built, after)
  {
    var after := CacheFirst(items, key, built, ttlMs, now).1;
    WriteThenRead(AfterRead(items, key, now), key, built, ttlMs, now, later);
    assert CachedValue(after, key, later) == built;
  }

  /** Reading twice at the same instant is reading once. */
  lemma CacheFirstIdempotent(items: Items, key: string, built: CachePayload, ttlMs: nat, now: int,
                             other: CachePayload, otherTtlMs: nat)
    requires built != Null && Kind(other) == Kind(built)
    ensures var (v, after) := CacheFirst(items, key, built, ttlMs, now);
      CacheFirst(after, key, other, otherTtlMs, now) == (v, after)
  {
    if Kind(CachedValue(items, key, now)) != Kind(built) {
      CacheFirstMissStores(items, key, built, ttlMs, now, other, otherTtlMs, now);
    }
  }

  /** After an invalidation, `setCachedData(key, null, 0)`, the next read
      is a miss: it returns the built value. */
  lemma CacheFirstAfterInvalidation(items: Items, key: string, t: int, built: CachePayload, ttlMs: nat, now: int)
    requires built != Null
    ensures CacheFirst(Written(items, key, Null, 0, t), key, built, ttlMs, now).0 == built
  {
    InvalidateThenRead(items, key, t, now);
  }

  /** A read leaves a second read at the same instant nothing to evict. */
  lemma ReadTwice(items: Items, key: string, now: int)
    ensures CachedValue(AfterRead(items, key, now), key, now) == CachedValue(items, key, now)
    ensures AfterRead(AfterRead(items, key, now), key, now) == AfterRead(items, key, now)
  {
  }

  /* ---------------- the typed accessors, as functions of the stored items ---------------- */

  /** `secureGet(key)` on local storage: the stored string, or null. */
  function TextAt(items: Items, k: string): (r: Option<string>)
    requires ValidItems(items) && IsTextKey(k)
    ensures r.Some? <==> k in items
  {
    if k in items then Some(items[k].text) else None
  }

  function BoolText(b: bool): string {
    if b then "true" else "false"
  }

  /** `getAuthStatus`: true exactly when the stored status is the text "true". */
  function AuthStatusOf(items: Items): bool
    requires ValidItems(items)
  {
    TextAt(items, AUTH_STATUS_KEY) == Some("true")
  }

  /** `getBiometricEnabled`, read the same way as the auth status. */
  function BiometricEnabledOf(items: Items): bool
    requires ValidItems(items)
  {
    TextAt(items, BIOMETRIC_ENABLED_KEY) == Some("true")
  }

  /** `getLanguage`: the stored language, or 'fr' when it is absent or empty. */
  function LanguageOf(items: Items): (lang: string)
    requires ValidItems(items)
    ensures lang != ""
    ensures LANGUAGE_KEY !in items ==> lang == "fr"
    ensures LANGUAGE_KEY in items && items[LANGUAGE_KEY].text != "" ==> lang == items[LANGUAGE_KEY].text
  {
    match TextAt(items, LANGUAGE_KEY)
    case Some(s) => if s != "" then s else "fr"
    case None => "fr"
  }

  function UserDataOf(items: Items): Option<User>
    requires ValidItems(items)
  {
    if USER_DATA_KEY in items then Some(items[USER_DATA_KEY].doc.user) else None
  }

  function BiometricCredentialsOf(items: Items): Option<LoginCredentials>
    requires ValidItems(items)
  {
    if BIOMETRIC_CREDENTIALS_KEY in items then Some(items[BIOMETRIC_CREDENTIALS_KEY].doc.credentials) else None
  }

  /** The default `getNotificationPreferences` of the storage service gives
      when nothing is stored. It sets only billing, outages and promotions;
      the absent maintenance and tickets fields read as false. */
  const STORAGE_DEFAULT_PREFERENCES: NotificationPreferences :=
    NotificationPreferences(billing := true, outages := true, promotions := false,
                            maintenance := false, tickets := false)

  function StoredPreferencesOf(items: Items): Option<NotificationPreferences>
    requires ValidItems(items)
  {
    if NOTIFICATION_PREFS_KEY in items then Some(items[NOTIFICATION_PREFS_KEY].doc.prefs) else None
  }

  /** Storing a status and reading it back gives the status stored. */
  lemma AuthStatusRoundTrip(items: Items, b: bool)
    requires ValidItems(items)
    ensures ValidItems(items[AUTH_STATUS_KEY := Text(BoolText(b))])
    ensures AuthStatusOf(items[AUTH_STATUS_KEY := Text(BoolText(b))]) == b
  {
  }

  /** Storing a non-empty language and reading it back gives that language. */
  lemma LanguageRoundTrip(items: Items, lang: string)
    requires ValidItems(items) && lang != ""
    ensures ValidItems(items[LANGUAGE_KEY := Text(lang)])
    ensures LanguageOf(items[LANGUAGE_KEY := Text(lang)]) == lang
  {
  }

  /* ---------------- the service ---------------- */

  class StorageService {
    /** `localStorage`: key to stored string. */
    var items: Items

    predicate Valid()
      reads this
    {
      ValidItems(items)
    }

    /** The service over the local storage as the application finds it. */
    constructor (initial: Items)
      requires ValidItems(initial)
      ensures Valid() && items == initial
    {
      items := initial;
    }

    /* ----- authentication tokens ----- */

    method GetAuthToken() returns (token: Option<string>)
      requires Valid()
      ensures token == TextAt(items, AUTH_TOKEN_KEY)
    {
      token := TextAt(items, AUTH_TOKEN_KEY);
    }

    method SetAuthToken(token: string)
      requires Valid()
      modifies this
      ensures Valid() && items == old(items)[AUTH_TOKEN_KEY := Text(token)]
    {
      items := items[AUTH_TOKEN_KEY := Text(token)];
    }

    method ClearAuthToken()
      requires Valid()
      modifies this
      ensures Valid() && items == old(items) - {AUTH_TOKEN_KEY}
    {
      items := items - {AUTH_TOKEN_KEY};
    }

    method GetRefreshToken() returns (token: Option<string>)
      requires Valid()
      ensures token == TextAt(items, REFRESH_TOKEN_KEY)
    {
      token := TextAt(items, REFRESH_TOKEN_KEY);
    }

    method SetRefreshToken(token: string)
      requires Valid()
      modifies this
      ensures Valid() && items == old(items)[REFRESH_TOKEN_KEY := Text(token)]
    {
      items := items[REFRESH_TOKEN_KEY := Text(token)];
    }

    method ClearRefreshToken()
      requires Valid()
      modifies this
      ensures Valid() && items == old(items) - {REFRESH_TOKEN_KEY}
    {
      items := items - {REFRESH_TOKEN_KEY};
    }

    /* ----- user data ----- */

    method GetUserData() returns (user: Option<User>)
      requires Valid()
      ensures user == UserDataOf(items)
    {
      user := UserDataOf(items);
    }

    method SetUserData(user: User)
      requires Valid()
      modifies this
      ensures Valid() && items == old(items)[USER_DATA_KEY := Json(UserDoc(user))]
    {
      items := items[USER_DATA_KEY := Json(UserDoc(user))];
    }

    method ClearUserData()
      requires Valid()
      modifies this
      ensures Valid() && items == old(items) - {USER_DATA_KEY}
    {
      items := items - {USER_DATA_KEY};
    }

    /* ----- authentication status ----- */

    method GetAuthStatus() returns (status: bool)
      requires Valid()
      ensures status <==> AUTH_STATUS_KEY in items && items[AUTH_STATUS_KEY] == Text("true")
    {
      status := AuthStatusOf(items);
    }

    method SetAuthStatus(isAuthenticated: bool)
      requires Valid()
      modifies this
      ensures Valid() && items == old(items)[AUTH_STATUS_KEY := Text(BoolText(isAuthenticated))]
      ensures AuthStatusOf(items) == isAuthenticated
    {
      items := items[AUTH_STATUS_KEY := Text(BoolText(isAuthenticated))];
    }

    /* ----- biometric data ----- */

    method GetBiometricCredentials() returns (credentials: Option<LoginCredentials>)
      requires Valid()
      ensures credentials == BiometricCredentialsOf(items)
    {
      credentials := BiometricCredentialsOf(items);
    }

    method SetBiometricCredentials(credentials: LoginCredentials)
      requires Valid()
      modifies this
      ensures Valid() && items == old(items)[BIOMETRIC_CREDENTIALS_KEY := Json(CredentialsDoc(credentials))]
    {
      items := items[BIOMETRIC_CREDENTIALS_KEY := Json(CredentialsDoc(credentials))];
    }

    method ClearBiometricCredentials()
      requires Valid()
      modifies this
      ensures Valid() && items == old(items) - {BIOMETRIC_CREDENTIALS_KEY}
    {
      items := items - {BIOMETRIC_CREDENTIALS_KEY};
    }

    method GetBiometricEnabled() returns (enabled: bool)
      requires Valid()
      ensures enabled <==> BIOMETRIC_ENABLED_KEY in items && items[BIOMETRIC_ENABLED_KEY] == Text("true")
    {
      enabled := BiometricEnabledOf(items);
    }

    method SetBiometricEnabled(enabled: bool)
      requires Valid()
      modifies this
      ensures Valid() && items == old(items)[BIOMETRIC_ENABLED_KEY := Text(BoolText(enabled))]
    {
      items := items[BIOMETRIC_ENABLED_KEY := Text(BoolText(enabled))];
    }

    /* ----- preferences ----- */

    method GetNotificationPreferences() returns (prefs: NotificationPreferences)
      requires Valid()
      ensures NOTIFICATION_PREFS_KEY !in items ==> prefs == STORAGE_DEFAULT_PREFERENCES
      ensures NOTIFICATION_PREFS_KEY in items ==> prefs == items[NOTIFICATION_PREFS_KEY].doc.prefs
    {
      match StoredPreferencesOf(items)
      case Some(p) => prefs := p;
      case None => prefs := STORAGE_DEFAULT_PREFERENCES;
    }

    method SetNotificationPreferences(prefs: NotificationPreferences)
      requires Valid()
      modifies this
      ensures Valid() && items == old(items)[NOTIFICATION_PREFS_KEY := Json(PrefsDoc(prefs))]
    {
      items := items[NOTIFICATION_PREFS_KEY := Json(PrefsDoc(prefs))];
    }

    method GetLanguage() returns (lang: string)
      requires Valid()
      ensures lang == LanguageOf(items)
    {
      lang := LanguageOf(items);
    }

    method SetLanguage(language: string)
      requires Valid()
      modifies this
      ensures Valid() && items == old(items)[LANGUAGE_KEY := Text(language)]
    {
      items := items[LANGUAGE_KEY := Text(language)];
    }

    /* ----- the cache ----- */

    /** `getCachedData(key)`: the cached value, or null when the entry is
        absent, empty, unparseable or expired; an expired entry is removed. */
    method GetCachedData(key: string, now: int) returns (data: CachePayload)
      requires Valid()
      modifies this
      ensures Valid()
      ensures data == CachedValue(old(items), key, now)
      ensures items == AfterRead(old(items), key, now)
    {
      CacheKeyIsNotFixed(key);
      data := CachedValue(items, key, now);
      if Expired(items, CacheKey(key), now) {
        items := items - {CacheKey(key)};
      }
    }

    /** `setCachedData(key, data, expiryHours)`, the TTL given in milliseconds. */
    method SetCachedData(key: string, data: CachePayload, ttlMs: nat, now: int)
      requires Valid()
      modifies this
      ensures Valid()
      ensures items == Written(old(items), key, data, ttlMs, now)
    {
      CacheKeyIsNotFixed(key);
      items := items[CacheKey(key) := Json(CacheEntry(data, now + ttlMs))];
    }

    /** Removes, one by one, every key of a snapshot of the keys that starts
        with `prefix`. */
    method RemoveKeysWithPrefix(prefix: string)
      requires Valid()
      modifies this
      ensures Valid()
      ensures items == WithoutPrefix(old(items), prefix)
    {
      var keys := items.Keys;
      while keys != {}
        invariant keys <= old(items).Keys
        invariant items.Keys == set k | k in old(items) && !(k !in keys && StartsWith(k, prefix))
        invariant forall k :: k in items ==> items[k] == old(items)[k]
        decreases keys
      {
        var key :| key in keys;
        if StartsWith(key, prefix) {
          items := items - {key};
        }
        keys := keys - {key};
      }
    }

    /** `clearCache`: removes exactly the cache entries. */
    method ClearCache()
      requires Valid()
      modifies this
      ensures Valid()
      ensures items == WithoutPrefix(old(items), CACHE_PREFIX)
    {
      RemoveKeysWithPrefix(CACHE_PREFIX);
    }

    /** `clearAll` on local storage: removes every key of the application. */
    method ClearAll()
      requires Valid()
      modifies this
      ensures Valid()
      ensures items == WithoutPrefix(old(items), APP_PREFIX)
    {
      RemoveKeysWithPrefix(APP_PREFIX);
    }
  }
}
