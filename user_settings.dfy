/** Per-user settings kept in the `user_settings` table: the defaults, the defaulting read,
    and the per-provider API-key dictionary with its set, delete and lookup.

    The table is a `SettingsStore` object holding one row per user id. Whether each
    database request succeeds is a boolean parameter: `selectOk` (the read answered, with a
    row or with "no rows"), `insertOk` (creating the default row succeeded) and `updateOk`
    (the update request succeeded). Every update stamps `updated_at` with the ISO text of
    `new Date()`, which is the parameter `now`. */
module UserSettings {
  import opened Wrappers
  import AiProviders

  datatype Theme = Light | Dark | Auto

  /** Every column of a settings row except the user id and the key dictionary. */
  datatype Preferences = Preferences(
    speechProvider: string,
    speechModel: string,
    textProvider: string,
    textModel: string,
    autoSave: bool,
    defaultCategory: string,
    theme: Theme,
    language: string)

  /** The `UserSettings` value handed to callers. */
  datatype Settings = Settings(userId: string, prefs: Preferences, apiKeys: map<string, string>)

  /** A stored row; its `api_keys` column may be null, and `updated_at` is `None` until an
      update has stamped it (the insert leaves it to the database). */
  datatype StoredRow = StoredRow(prefs: Preferences, apiKeys: Option<map<string, string>>, updatedAt: Option<string>)

  /** `DEFAULT_SETTINGS` without its (empty) key dictionary. */
  const DefaultPreferences: Preferences :=
    Preferences("browser-speech", "browser-speech-api", "google", "gemini-pro", true, "工作", Auto, "zh-CN")

  /** `{ user_id: userId, ...DEFAULT_SETTINGS }` */
  function Defaults(userId: string): Settings {
    Settings(userId, DefaultPreferences, map[])
  }

  /** The row `createUserSettings` inserts. */
  const DefaultRow: StoredRow := StoredRow(DefaultPreferences, Some(map[]), None)

  /** The value `getUserSettings(userId)` resolves to: the stored row with a null key column
      read as `{}`; the defaults when there is no row (whether or not creating one succeeds),
      and the defaults when the read fails. It never fails itself. */
  function Fetched(rows: map<string, StoredRow>, userId: string, selectOk: bool, insertOk: bool): (s: Settings)
    ensures s.userId == userId
    ensures !selectOk || userId !in rows ==> s == Defaults(userId)
    ensures selectOk && userId in rows ==>
      s.prefs == rows[userId].prefs &&
      s.apiKeys == (if rows[userId].apiKeys.Some? then rows[userId].apiKeys.value else map[])
  {
    if !selectOk || userId !in rows then Defaults(userId)
    else
      var row := rows[userId];
      Settings(userId, row.prefs, if row.apiKeys.Some? then row.apiKeys.value else map[])
  }

  /** The table after `getUserSettings(userId)`: the default row is added exactly when the
      read succeeded, found no row, and the insert succeeded. */
  function AfterFetch(rows: map<string, StoredRow>, userId: string, selectOk: bool, insertOk: bool): (r: map<string, StoredRow>)
    ensures r.Keys == rows.Keys + (if selectOk && insertOk then {userId} else {})
    ensures forall u :: u in rows ==> u in r && r[u] == rows[u]
    ensures userId in r && userId !in rows ==> r[userId] == DefaultRow
  {
    if selectOk && userId !in rows && insertOk then rows[userId := DefaultRow] else rows
  }

  /** The table after `updateUserSettings(userId, { api_keys: keys })` at time `now`; `None`
      when the request fails or (because of `.single()`) no row matches. */
  function KeysWritten(rows: map<string, StoredRow>, userId: string, keys: map<string, string>, now: string, updateOk: bool)
    : (r: Option<map<string, StoredRow>>)
    ensures r.Some? <==> updateOk && userId in rows
    ensures r.Some? ==>
      r.value.Keys == rows.Keys &&
      r.value[userId].apiKeys == Some(keys) && r.value[userId].updatedAt == Some(now) &&
      r.value[userId].prefs == rows[userId].prefs &&
      forall u :: u in rows && u != userId ==> r.value[u] == rows[u]
  {
    if updateOk && userId in rows then Some(rows[userId := rows[userId].(apiKeys := Some(keys), updatedAt := Some(now))]) else None
  }

  /** The table after `updateUserSettings(userId, prefs)` with every preference column, at
      time `now`; `None` when the request fails or no row matches. */
  function PrefsWritten(rows: map<string, StoredRow>, userId: string, prefs: Preferences, now: string, updateOk: bool)
    : (r: Option<map<string, StoredRow>>)
    ensures r.Some? <==> updateOk && userId in rows
    ensures r.Some? ==>
      r.value.Keys == rows.Keys &&
      r.value[userId].prefs == prefs && r.value[userId].updatedAt == Some(now) &&
      r.value[userId].apiKeys == rows[userId].apiKeys &&
      forall u :: u in rows && u != userId ==> r.value[u] == rows[u]
  {
    if updateOk && userId in rows then Some(rows[userId := rows[userId].(prefs := prefs, updatedAt := Some(now))]) else None
  }

  /** `settings.api_keys[provider] || null`: an absent or empty key is null. */
  function LookupKey(keys: map<string, string>, provider: string): (r: Option<string>)
    ensures r.Some? <==> provider in keys && keys[provider] != ""
    ensures r.Some? ==> r.value == keys[provider]
  {
    if provider in keys && keys[provider] != "" then Some(keys[provider]) else None
  }

  /** `{ ...keys, [provider]: apiKey }` */
  function WithKey(keys: map<string, string>, provider: string, apiKey: string): (r: map<string, string>)
    ensures r.Keys == keys.Keys + {provider}
    ensures r[provider] == apiKey
    ensures forall q :: q in keys && q != provider ==> r[q] == keys[q]
  {
    keys[provider := apiKey]
  }

  /** A copy of `keys` with `delete copy[provider]`. */
  function WithoutKey(keys: map<string, string>, provider: string): (r: map<string, string>)
    ensures r.Keys == keys.Keys - {provider}
    ensures forall q :: q in r ==> r[q] == keys[q]
  {
    keys - {provider}
  }

  /** The table after `updateApiKey` or `removeApiKey` with the new dictionary `keys`. */
  function AfterWrite(fetched: map<string, StoredRow>, userId: string, keys: map<string, string>, now: string, updateOk: bool)
    : map<string, StoredRow>
  {
    var w := KeysWritten(fetched, userId, keys, now, updateOk);
    if w.Some? then w.value else fetched
  }

  class SettingsStore {
    /** The `user_settings` table, keyed by `user_id`. */
    var rows: map<string, StoredRow>

    constructor()
      ensures rows == map[]
    {
      rows := map[];
    }

    /** `getUserSettings(userId)`, which may insert the default row. */
    method GetUserSettings(userId: string, selectOk: bool, insertOk: bool) returns (s: Settings)
      modifies this
      ensures s == Fetched(old(rows), userId, selectOk, insertOk)
      ensures rows == AfterFetch(old(rows), userId, selectOk, insertOk)
    {
      if !selectOk {
        return Defaults(userId);
      }
      if userId !in rows {
        if insertOk {
          rows := rows[userId := DefaultRow];
        }
        return Defaults(userId);
      }
      var row := rows[userId];
      var keys := if row.apiKeys.Some? then row.apiKeys.value else map[];
      s := Settings(userId, row.prefs, keys);
    }

    /** `updateUserSettings(userId, { api_keys: keys })`; `ok` is false where the source
        throws. */
    method UpdateApiKeys(userId: string, keys: map<string, string>, now: string, updateOk: bool) returns (ok: bool)
      modifies this
      ensures ok == KeysWritten(old(rows), userId, keys, now, updateOk).Some?
      ensures rows == AfterWrite(old(rows), userId, keys, now, updateOk)
    {
      if !updateOk || userId !in rows {
        return false;
      }
      rows := rows[userId := rows[userId].(apiKeys := Some(keys), updatedAt := Some(now))];
      ok := true;
    }

    /** `updateUserSettings(userId, prefs)`; `ok` is false where the source throws. */
    method UpdatePreferences(userId: string, prefs: Preferences, now: string, updateOk: bool) returns (ok: bool)
      modifies this
      ensures ok == PrefsWritten(old(rows), userId, prefs, now, updateOk).Some?
      ensures rows == (if ok then PrefsWritten(old(rows), userId, prefs, now, updateOk).value else old(rows))
    {
      if !updateOk || userId !in rows {
        return false;
      }
      rows := rows[userId := rows[userId].(prefs := prefs, updatedAt := Some(now))];
      ok := true;
    }

    /** `updateApiKey(userId, provider, apiKey)`: read the settings, then write the old
        dictionary with `provider` set. */
    method UpdateApiKey(userId: string, provider: string, apiKey: string, now: string, selectOk: bool, insertOk: bool, updateOk: bool)
      returns (ok: bool)
      modifies this
      ensures
        var fetched := AfterFetch(old(rows), userId, selectOk, insertOk);
        var keys := WithKey(Fetched(old(rows), userId, selectOk, insertOk).apiKeys, provider, apiKey);
        ok == KeysWritten(fetched, userId, keys, now, updateOk).Some? &&
        rows == AfterWrite(fetched, userId, keys, now, updateOk)
    {
      var settings := GetUserSettings(userId, selectOk, insertOk);
      var keys := WithKey(settings.apiKeys, provider, apiKey);
      ok := UpdateApiKeys(userId, keys, now, updateOk);
    }

    /** `removeApiKey(userId, provider)`: read the settings, then write the old dictionary
        without `provider`. */
    method RemoveApiKey(userId: string, provider: string, now: string, selectOk: bool, insertOk: bool, updateOk: bool)
      returns (ok: bool)
      modifies this
      ensures
        var fetched := AfterFetch(old(rows), userId, selectOk, insertOk);
        var keys := WithoutKey(Fetched(old(rows), userId, selectOk, insertOk).apiKeys, provider);
        ok == KeysWritten(fetched, userId, keys, now, updateOk).Some? &&
        rows == AfterWrite(fetched, userId, keys, now, updateOk)
    {
      var settings := GetUserSettings(userId, selectOk, insertOk);
      var keys := WithoutKey(settings.apiKeys, provider);
      ok := UpdateApiKeys(userId, keys, now, updateOk);
    }

    /** `getApiKey(userId, provider)`: never fails; it too may insert the default row. */
    method GetApiKey(userId: string, provider: string, selectOk: bool, insertOk: bool) returns (key: Option<string>)
      modifies this
      ensures key == LookupKey(Fetched(old(rows), userId, selectOk, insertOk).apiKeys, provider)
      ensures rows == AfterFetch(old(rows), userId, selectOk, insertOk)
    {
      var settings := GetUserSettings(userId, selectOk, insertOk);
      key := LookupKey(settings.apiKeys, provider);
    }
  }

  /** What `getApiKey` answers for `provider` after a successful `updateApiKey` that wrote
      the non-empty `apiKey`. Entries of other providers read as before. */
  lemma SetThenGet(rows: map<string, StoredRow>, userId: string, provider: string, apiKey: string, now: string,
                   insertOk: bool, insertOk2: bool)
    requires apiKey != ""
    requires userId in AfterFetch(rows, userId, true, insertOk)
    ensures
      var fetched := AfterFetch(rows, userId, true, insertOk);
      var keys := WithKey(Fetched(rows, userId, true, insertOk).apiKeys, provider, apiKey);
      var after := AfterWrite(fetched, userId, keys, now, true);
      LookupKey(Fetched(after, userId, true, insertOk2).apiKeys, provider) == Some(apiKey) &&
      forall q :: q != provider ==>
        LookupKey(Fetched(after, userId, true, insertOk2).apiKeys, q) ==
        LookupKey(Fetched(rows, userId, true, insertOk).apiKeys, q)
  {
  }

  /** After a successful `removeApiKey`, `getApiKey` for that provider is null, and other
      providers read as before. */
  lemma RemoveThenGet(rows: map<string, StoredRow>, userId: string, provider: string, now: string, insertOk: bool, insertOk2: bool)
    requires userId in AfterFetch(rows, userId, true, insertOk)
    ensures
      var fetched := AfterFetch(rows, userId, true, insertOk);
      var keys := WithoutKey(Fetched(rows, userId, true, insertOk).apiKeys, provider);
      var after := AfterWrite(fetched, userId, keys, now, true);
      LookupKey(Fetched(after, userId, true, insertOk2).apiKeys, provider) == None &&
      forall q :: q != provider ==>
        LookupKey(Fetched(after, userId, true, insertOk2).apiKeys, q) ==
        LookupKey(Fetched(rows, userId, true, insertOk).apiKeys, q)
  {
  }

  /** When the read inside `updateApiKey` fails it proceeds with the defaults, so a
      successful write replaces the whole stored dictionary by `{ provider: apiKey }`. */
  lemma ReadErrorReplacesKeys(rows: map<string, StoredRow>, userId: string, provider: string, apiKey: string, now: string,
                               insertOk: bool)
    requires userId in rows
    ensures
      var keys := WithKey(Fetched(rows, userId, false, insertOk).apiKeys, provider, apiKey);
      var after := AfterWrite(AfterFetch(rows, userId, false, insertOk), userId, keys, now, true);
      after[userId].apiKeys == Some(map[provider := apiKey]) && after[userId].updatedAt == Some(now)
  {
  }

  /** Without a stored row and with a failing insert, nothing is written: the update finds
      no row to change. */
  lemma NoRowNoWrite(rows: map<string, StoredRow>, userId: string, keys: map<string, string>, now: string, updateOk: bool)
    requires userId !in rows
    ensures KeysWritten(AfterFetch(rows, userId, true, false), userId, keys, now, updateOk) == None
  {
  }

  /** The default speech pair names a speech model of the catalogue. */
  lemma DefaultSpeechModelResolves()
    ensures
      var m := AiProviders.GetModelById(DefaultPreferences.speechProvider, DefaultPreferences.speechModel);
      m.Some? && m.value.modelType == AiProviders.Speech
  {
    AiProviders.LookupFindsCatalogueEntry(6);
    AiProviders.FindModelFirst(AiProviders.BrowserSpeech.models, "browser-speech-api", 0);
  }

  /** The default text pair names a text model of the catalogue. */
  lemma DefaultTextModelResolves()
    ensures
      var m := AiProviders.GetModelById(DefaultPreferences.textProvider, DefaultPreferences.textModel);
      m.Some? && m.value.modelType == AiProviders.Text
  {
    var google := AiProviders.Catalogue[2];
    assert google == AiProviders.Google;
    AiProviders.LookupFindsCatalogueEntry(2);
    assert AiProviders.GetProviderById(DefaultPreferences.textProvider) == Some(google);
    AiProviders.FindModelFirst(google.models, DefaultPreferences.textModel, 0);
  }
}
