/** The settings page: the model lists of the chosen providers, the free badge, the API-key
    cards, the visibility toggles of the key fields, and saving and removing API keys.

    The page state is a `SettingsView` object and the table a `SettingsStore`. The signed-in
    user, the confirmation dialog and the answers of the database requests are parameters;
    `Object.entries(tempApiKeys)` is a parameter too, a sequence of pairs that lists every
    temporary key once, in the order the dictionary enumerates them. */
module SettingsPage {
  import opened Wrappers
  import opened AiProviders
  import opened UserSettings
  import Seqs

  predicate OfType(m: AiModel, t: ModelType) { m.modelType == t }

  /** `AI_PROVIDERS.find(p => p.id === providerId)?.models.filter(m => m.type === t) || []` */
  function ProviderModels(providerId: string, t: ModelType): seq<AiModel> {
    match FindProvider(Catalogue, providerId)
    case None => []
    case Some(p) => Seqs.Filter(p.models, m => OfType(m, t))
  }

  /** An unknown provider has no models; a known one lists exactly its models of the type,
      and all of them, in its order, when it has no model of another type. */
  lemma ProviderModelsOfType(providerId: string, t: ModelType)
    ensures FindProvider(Catalogue, providerId).None? ==> ProviderModels(providerId, t) == []
    ensures FindProvider(Catalogue, providerId).Some? ==>
      var p := FindProvider(Catalogue, providerId).value;
      p in Catalogue && p.id == providerId &&
      (forall m :: m in ProviderModels(providerId, t) <==> m in p.models && m.modelType == t) &&
      ((forall m :: m in p.models ==> m.modelType == t) ==> ProviderModels(providerId, t) == p.models)
  {
    var found := FindProvider(Catalogue, providerId);
    if found.Some? {
      var models := found.value.models;
      Seqs.FilterMembers(models, m => OfType(m, t));
      if forall m :: m in models ==> m.modelType == t {
        Seqs.FilterAll(models, m => OfType(m, t));
      }
    }
  }

  /** `getSpeechModels()` */
  function SpeechModels(settings: Option<Settings>): seq<AiModel> {
    if settings.None? then [] else ProviderModels(settings.value.prefs.speechProvider, Speech)
  }

  /** `getTextModels()` */
  function TextModels(settings: Option<Settings>): seq<AiModel> {
    if settings.None? then [] else ProviderModels(settings.value.prefs.textProvider, Text)
  }

  /** Both lists are empty before the settings are loaded; afterwards they hold exactly the
      speech (text) models of the chosen speech (text) provider, and nothing for an
      unknown provider. */
  lemma ModelListsFollowTheChoice(settings: Option<Settings>)
    ensures settings.None? ==> SpeechModels(settings) == [] && TextModels(settings) == []
    ensures settings.Some? && FindProvider(Catalogue, settings.value.prefs.speechProvider).None? ==>
      SpeechModels(settings) == []
    ensures settings.Some? && FindProvider(Catalogue, settings.value.prefs.textProvider).None? ==>
      TextModels(settings) == []
    ensures settings.Some? ==> forall m :: m in SpeechModels(settings) <==>
      m.modelType == Speech &&
      exists p :: p in Catalogue && p.id == settings.value.prefs.speechProvider && m in p.models
    ensures settings.Some? ==> forall m :: m in TextModels(settings) <==>
      m.modelType == Text &&
      exists p :: p in Catalogue && p.id == settings.value.prefs.textProvider && m in p.models
  {
    if settings.Some? {
      CatalogueIdsDistinct();
      var sp := settings.value.prefs.speechProvider;
      var tp := settings.value.prefs.textProvider;
      ProviderModelsOfType(sp, Speech);
      ProviderModelsOfType(tp, Text);
      SameIdSameProvider(sp);
      SameIdSameProvider(tp);
    }
  }

  /** Catalogue ids are distinct, so a provider with the id is the one `find` answers. */
  lemma SameIdSameProvider(id: string)
    ensures forall p :: p in Catalogue && p.id == id ==> FindProvider(Catalogue, id) == Some(p)
  {
    CatalogueIdsDistinct();
    forall p | p in Catalogue && p.id == id
      ensures FindProvider(Catalogue, id) == Some(p)
    {
      var i :| 0 <= i < |Catalogue| && Catalogue[i] == p;
      FindProviderFirst(Catalogue, id, i);
    }
  }

  /** The free badge beside a chosen provider:
      `getFreeProviders().some(p => p.id === providerId)`. */
  function FreeBadge(providerId: string): bool {
    FindProvider(GetFreeProviders(), providerId).Some?
  }

  /** The badge shows exactly for the ids of free catalogue providers: Google, the browser
      recogniser and Ollama. */
  lemma FreeBadgeExactly(providerId: string)
    ensures FreeBadge(providerId) <==> exists p :: p in Catalogue && p.isFree && p.id == providerId
    ensures FreeBadge(providerId) <==> providerId in {"google", "browser-speech", "ollama"}
  {
    Seqs.FilterMembers(Catalogue, IsFreeProvider);
    FreeProviders();
  }

  /** The API-key cards: `AI_PROVIDERS.filter(p => p.apiKeyRequired)`. */
  function KeyCards(): seq<AiProvider> {
    Seqs.Filter(Catalogue, NeedsApiKey)
  }

  /** A card for exactly the providers that need a key, in catalogue order. */
  lemma KeyCardsListed()
    ensures forall p :: p in KeyCards() <==> p in Catalogue && p.apiKeyRequired
    ensures KeyCards() == [OpenAI, Anthropic, Google, DeepSeek, Zhipu, Moonshot]
  {
    Seqs.FilterMembers(Catalogue, NeedsApiKey);
    KeyedProviders();
  }

  /** Whether the key field of `provider` shows its text; a missing entry reads as hidden. */
  predicate Shown(visible: map<string, bool>, provider: string) {
    provider in visible && visible[provider]
  }

  /** `{ ...prev, [provider]: !prev[provider] }` */
  function ToggledVisibility(visible: map<string, bool>, provider: string): (r: map<string, bool>)
    ensures r.Keys == visible.Keys + {provider}
    ensures Shown(r, provider) <==> !Shown(visible, provider)
    ensures forall q :: q in visible && q != provider ==> r[q] == visible[q]
  {
    visible[provider := !Shown(visible, provider)]
  }

  /** A second toggle shows or hides every field as before. */
  lemma ToggleTwiceRestoresVisibility(visible: map<string, bool>, provider: string)
    ensures forall q :: Shown(ToggledVisibility(ToggledVisibility(visible, provider), provider), q) <==> Shown(visible, q)
  {
  }

  /** `Object.entries(keys)`: every key once, each with its value. */
  ghost predicate EntriesOf(entries: seq<(string, string)>, keys: map<string, string>) {
    (forall i, j :: 0 <= i < j < |entries| ==> entries[i].0 != entries[j].0) &&
    (forall e :: e in entries <==> e.0 in keys && keys[e.0] == e.1)
  }

  /** The save loop's test `apiKey && apiKey !== settings.api_keys[provider]`: the key is
      non-empty and the stored dictionary has no entry, or another one, for the provider. */
  predicate NeedsWrite(stored: map<string, string>, e: (string, string)) {
    e.1 != "" && !(e.0 in stored && stored[e.0] == e.1)
  }

  /** The entries the save loop writes, in order, when every write succeeds. */
  function Pending(entries: seq<(string, string)>, stored: map<string, string>): seq<(string, string)> {
    Seqs.Filter(entries, e => NeedsWrite(stored, e))
  }

  /** The loop writes a provider's temporary key exactly when it is non-empty and differs
      from the stored one. */
  lemma PendingKeys(entries: seq<(string, string)>, temp: map<string, string>, stored: map<string, string>)
    requires EntriesOf(entries, temp)
    ensures forall p, k :: (p, k) in Pending(entries, stored) <==>
      p in temp && temp[p] == k && k != "" && (p !in stored || stored[p] != k)
  {
    Seqs.FilterMembers(entries, e => NeedsWrite(stored, e));
  }

  /** Splitting the entries splits the writes. */
  lemma PendingSplit(entries: seq<(string, string)>, i: nat, stored: map<string, string>)
    requires i <= |entries|
    ensures Pending(entries, stored) == Pending(entries[..i], stored) + Pending(entries[i..], stored)
  {
    assert entries == entries[..i] + entries[i..];
    Seqs.FilterConcat(entries[..i], entries[i..], e => NeedsWrite(stored, e));
  }

  /** One more entry adds at most that entry to the writes. */
  lemma PendingStep(entries: seq<(string, string)>, i: nat, stored: map<string, string>)
    requires i < |entries|
    ensures Pending(entries[..i + 1], stored) ==
      Pending(entries[..i], stored) + (if NeedsWrite(stored, entries[i]) then [entries[i]] else [])
  {
    assert entries[..i + 1] == entries[..i] + [entries[i]];
    Seqs.FilterConcat(entries[..i], [entries[i]], e => NeedsWrite(stored, e));
  }

  /** The answers to the requests of the k-th `updateApiKey` call of a save, and the clock
      reading its update stamps. */
  datatype Replies = Replies(selectOk: nat -> bool, insertOk: nat -> bool, updateOk: nat -> bool, now: nat -> string)

  /** The k-th `updateApiKey` call, of the entry `e`: the table after it, and whether it
      succeeded. */
  function WriteKey(rows: map<string, StoredRow>, userId: string, e: (string, string), replies: Replies, k: nat)
    : (map<string, StoredRow>, bool)
  {
    var fetched := AfterFetch(rows, userId, replies.selectOk(k), replies.insertOk(k));
    var keys := WithKey(Fetched(rows, userId, replies.selectOk(k), replies.insertOk(k)).apiKeys, e.0, e.1);
    (AfterWrite(fetched, userId, keys, replies.now(k), replies.updateOk(k)),
     KeysWritten(fetched, userId, keys, replies.now(k), replies.updateOk(k)).Some?)
  }

  /** The table after the calls for `writes`, one after another. */
  function TableAfter(rows: map<string, StoredRow>, userId: string, writes: seq<(string, string)>, replies: Replies)
    : map<string, StoredRow>
    decreases |writes|
  {
    if writes == [] then rows
    else WriteKey(TableAfter(rows, userId, writes[..|writes| - 1], replies), userId, writes[|writes| - 1], replies, |writes| - 1).0
  }

  /** Whether the k-th of the calls for `writes` succeeded. */
  predicate WriteSucceeded(rows: map<string, StoredRow>, userId: string, writes: seq<(string, string)>, replies: Replies, k: nat)
    requires k < |writes|
  {
    WriteKey(TableAfter(rows, userId, writes[..k], replies), userId, writes[k], replies, k).1
  }

  /** A further call leaves the earlier calls and their outcomes as they were. */
  lemma TableAfterExtend(rows: map<string, StoredRow>, userId: string, writes: seq<(string, string)>,
                         e: (string, string), replies: Replies)
    ensures TableAfter(rows, userId, writes + [e], replies) ==
      WriteKey(TableAfter(rows, userId, writes, replies), userId, e, replies, |writes|).0
    ensures WriteSucceeded(rows, userId, writes + [e], replies, |writes|) ==
      WriteKey(TableAfter(rows, userId, writes, replies), userId, e, replies, |writes|).1
    ensures forall k :: 0 <= k < |writes| ==>
      WriteSucceeded(rows, userId, writes + [e], replies, k) == WriteSucceeded(rows, userId, writes, replies, k)
  {
    assert (writes + [e])[..|writes|] == writes;
    forall k | 0 <= k < |writes|
      ensures WriteSucceeded(rows, userId, writes + [e], replies, k) == WriteSucceeded(rows, userId, writes, replies, k)
    {
      assert (writes + [e])[..k] == writes[..k];
    }
  }

  /** The key part of `handleSaveSettings`: for each entry that needs a write, in order,
      `updateApiKey`, stopping at the first call that throws. `written` lists the entries
      whose call was made; they are the first of the pending writes, all of them when `ok`,
      and every call succeeded except, when not `ok`, the last. */
  method SaveApiKeys(store: SettingsStore, userId: string, entries: seq<(string, string)>,
                     stored: map<string, string>, replies: Replies)
    returns (written: seq<(string, string)>, ok: bool)
    modifies store
    ensures |written| <= |Pending(entries, stored)|
    ensures written == Pending(entries, stored)[..|written|]
    ensures store.rows == TableAfter(old(store.rows), userId, written, replies)
    ensures ok ==> written == Pending(entries, stored)
    ensures !ok ==> |written| > 0
    ensures forall k :: 0 <= k < |written| ==>
      (WriteSucceeded(old(store.rows), userId, written, replies, k) <==> ok || k < |written| - 1)
  {
    ghost var rows0 := store.rows;
    written := [];
    ok := true;
    var i := 0;
    while i < |entries|
      invariant i <= |entries|
      invariant written == Pending(entries[..i], stored)
      invariant store.rows == TableAfter(rows0, userId, written, replies)
      invariant forall k :: 0 <= k < |written| ==> WriteSucceeded(rows0, userId, written, replies, k)
    {
      var e := entries[i];
      PendingStep(entries, i, stored);
      if NeedsWrite(stored, e) {
        var n := |written|;
        var success := store.UpdateApiKey(userId, e.0, e.1, replies.now(n), replies.selectOk(n), replies.insertOk(n), replies.updateOk(n));
        TableAfterExtend(rows0, userId, written, e, replies);
        written := written + [e];
        if !success {
          PendingSplit(entries, i + 1, stored);
          ok := false;
          return;
        }
      }
      i := i + 1;
    }
    assert entries[..i] == entries;
  }

  /** Every pending write was made and none threw. */
  predicate AllSaved(rows: map<string, StoredRow>, userId: string, pending: seq<(string, string)>,
                     written: seq<(string, string)>, replies: Replies)
  {
    written == pending && forall k :: 0 <= k < |written| ==> WriteSucceeded(rows, userId, written, replies, k)
  }

  /** The page state. */
  class SettingsView {
    var settings: Option<Settings>
    var loading: bool
    var saving: bool
    var showApiKeys: map<string, bool>
    var tempApiKeys: map<string, string>

    constructor ()
      ensures settings.None? && loading && !saving && showApiKeys == map[] && tempApiKeys == map[]
    {
      settings := None;
      loading := true;
      saving := false;
      showApiKeys := map[];
      tempApiKeys := map[];
    }

    /** `loadSettings()`: with a user, the settings read and their key dictionary become the
        page's settings and temporary keys; the page stops loading either way. */
    method LoadSettings(store: SettingsStore, user: Option<string>, selectOk: bool, insertOk: bool)
      modifies this, store
      ensures user.None? ==>
        store.rows == old(store.rows) && settings == old(settings) && tempApiKeys == old(tempApiKeys)
      ensures user.Some? ==>
        settings == Some(Fetched(old(store.rows), user.value, selectOk, insertOk)) &&
        tempApiKeys == settings.value.apiKeys &&
        store.rows == AfterFetch(old(store.rows), user.value, selectOk, insertOk)
      ensures !loading && saving == old(saving) && showApiKeys == old(showApiKeys)
    {
      if user.Some? {
        var s := store.GetUserSettings(user.value, selectOk, insertOk);
        settings := Some(s);
        tempApiKeys := s.apiKeys;
      }
      loading := false;
    }

    /** `toggleApiKeyVisibility(provider)` */
    method ToggleApiKeyVisibility(provider: string)
      modifies this
      ensures showApiKeys == ToggledVisibility(old(showApiKeys), provider)
      ensures settings == old(settings) && tempApiKeys == old(tempApiKeys)
      ensures loading == old(loading) && saving == old(saving)
    {
      showApiKeys := ToggledVisibility(showApiKeys, provider);
    }

    /** Typing into the key field of `provider`: `{ ...tempApiKeys, [provider]: value }`. */
    method EditApiKey(provider: string, value: string)
      modifies this
      ensures tempApiKeys == WithKey(old(tempApiKeys), provider, value)
      ensures settings == old(settings) && showApiKeys == old(showApiKeys)
      ensures loading == old(loading) && saving == old(saving)
    {
      tempApiKeys := tempApiKeys[provider := value];
    }

    /** The part of `handleSaveSettings()` after the preference columns are written: the
        key writes, then, when none threw, the reload. `stored` is `settings.api_keys` and
        `entries` is `Object.entries(tempApiKeys)`. */
    method SaveKeysAndReload(store: SettingsStore, userId: string, entries: seq<(string, string)>,
                             stored: map<string, string>, replies: Replies,
                             reloadSelectOk: bool, reloadInsertOk: bool)
      returns (saved: bool, written: seq<(string, string)>)
      requires EntriesOf(entries, tempApiKeys)
      modifies this, store
      ensures forall p, k :: (p, k) in written ==>
        p in old(tempApiKeys) && old(tempApiKeys)[p] == k && k != "" && (p !in stored || stored[p] != k)
      ensures |written| <= |Pending(entries, stored)|
      ensures written == Pending(entries, stored)[..|written|]
      ensures saved <==> AllSaved(old(store.rows), userId, Pending(entries, stored), written, replies)
      ensures saved ==>
        store.rows == AfterFetch(TableAfter(old(store.rows), userId, written, replies), userId, reloadSelectOk, reloadInsertOk)
      ensures saved ==>
        settings == Some(Fetched(TableAfter(old(store.rows), userId, written, replies), userId, reloadSelectOk, reloadInsertOk))
      ensures saved ==> settings.Some? && tempApiKeys == settings.value.apiKeys
      ensures !saved ==> store.rows == TableAfter(old(store.rows), userId, written, replies)
      ensures !saved ==> settings == old(settings) && tempApiKeys == old(tempApiKeys)
      ensures saving == old(saving) && showApiKeys == old(showApiKeys)
    {
      ghost var rows0 := store.rows;
      var ok;
      written, ok := SaveApiKeys(store, userId, entries, stored, replies);
      PendingKeys(entries, tempApiKeys, stored);
      assert forall e :: e in written ==> e in Pending(entries, stored);
      if !ok {
        assert !WriteSucceeded(rows0, userId, written, replies, |written| - 1);
        return false, written;
      }
      LoadSettings(store, Some(userId), reloadSelectOk, reloadInsertOk);
      saved := true;
    }

    /** `handleSaveSettings()`. `entries` is `Object.entries(tempApiKeys)`. Without settings
        nothing happens. Otherwise the page is saving until the end, and: without a user the
        save ends silently (`None`); a throw from the preference write ends it with the
        failure alert (`Some(false)`); after that it goes on as `SaveKeysAndReload`, whose
        outcome picks the alert. */
    method HandleSaveSettings(store: SettingsStore, user: Option<string>, entries: seq<(string, string)>,
                              prefsNow: string, prefsOk: bool, replies: Replies, reloadSelectOk: bool, reloadInsertOk: bool)
      returns (alert: Option<bool>, written: seq<(string, string)>)
      requires EntriesOf(entries, tempApiKeys)
      modifies this, store
      ensures old(settings).None? ==>
        alert.None? && written == [] && store.rows == old(store.rows) &&
        settings == old(settings) && tempApiKeys == old(tempApiKeys) && saving == old(saving)
      ensures old(settings).Some? ==> !saving
      ensures showApiKeys == old(showApiKeys)
      ensures old(settings).Some? && user.None? ==>
        alert.None? && written == [] && store.rows == old(store.rows) &&
        settings == old(settings) && tempApiKeys == old(tempApiKeys)
      ensures old(settings).Some? ==> forall p, k :: (p, k) in written ==>
        p in old(tempApiKeys) && old(tempApiKeys)[p] == k && k != "" &&
        (p !in old(settings).value.apiKeys || old(settings).value.apiKeys[p] != k)
      ensures old(settings).Some? && user.Some? ==> alert.Some?
      ensures (old(settings).Some? && user.Some? &&
               PrefsWritten(old(store.rows), user.value, old(settings).value.prefs, prefsNow, prefsOk).None?) ==>
        alert == Some(false) && written == [] && store.rows == old(store.rows) &&
        settings == old(settings) && tempApiKeys == old(tempApiKeys)
      ensures (old(settings).Some? && user.Some? &&
               PrefsWritten(old(store.rows), user.value, old(settings).value.prefs, prefsNow, prefsOk).Some?) ==>
        var rows := PrefsWritten(old(store.rows), user.value, old(settings).value.prefs, prefsNow, prefsOk).value;
        var pending := Pending(entries, old(settings).value.apiKeys);
        |written| <= |pending| && written == pending[..|written|] &&
        (alert == Some(true) <==> AllSaved(rows, user.value, pending, written, replies))
      ensures old(settings).Some? && user.Some? && alert == Some(true) ==>
        var rows := PrefsWritten(old(store.rows), user.value, old(settings).value.prefs, prefsNow, prefsOk).value;
        var after := TableAfter(rows, user.value, written, replies);
        store.rows == AfterFetch(after, user.value, reloadSelectOk, reloadInsertOk) &&
        settings == Some(Fetched(after, user.value, reloadSelectOk, reloadInsertOk)) &&
        tempApiKeys == settings.value.apiKeys
      ensures (old(settings).Some? && user.Some? && alert == Some(false) &&
               PrefsWritten(old(store.rows), user.value, old(settings).value.prefs, prefsNow, prefsOk).Some?) ==>
        var rows := PrefsWritten(old(store.rows), user.value, old(settings).value.prefs, prefsNow, prefsOk).value;
        store.rows == TableAfter(rows, user.value, written, replies) &&
        settings == old(settings) && tempApiKeys == old(tempApiKeys)
    {
      written := [];
      if settings.None? {
        return None, [];
      }
      var current := settings.value;
      saving := true;
      if user.None? {
        saving := false;
        return None, [];
      }
      var prefsSaved := store.UpdatePreferences(user.value, current.prefs, prefsNow, prefsOk);
      if !prefsSaved {
        saving := false;
        return Some(false), [];
      }
      var saved;
      saved, written := SaveKeysAndReload(store, user.value, entries, current.apiKeys, replies, reloadSelectOk, reloadInsertOk);
      saving := false;
      alert := Some(saved);
    }

    /** `handleRemoveApiKey(provider)` after the dialog answered `confirmed`. When
        `removeApiKey` succeeds the page reloads, and then the temporary keys are set to the
        ones the page held before the click, less `provider`: the reloaded dictionary is
        overwritten, so unsaved keys of other providers stay. A failed removal alerts
        (`Some(false)`) and leaves the page as it was. */
    method HandleRemoveApiKey(store: SettingsStore, provider: string, confirmed: bool, user: Option<string>,
                              now: string, selectOk: bool, insertOk: bool, updateOk: bool,
                              reloadSelectOk: bool, reloadInsertOk: bool)
      returns (alert: Option<bool>)
      modifies this, store
      ensures !confirmed || user.None? ==>
        alert.None? && store.rows == old(store.rows) &&
        settings == old(settings) && tempApiKeys == old(tempApiKeys) && loading == old(loading)
      ensures confirmed && user.Some? ==>
        var fetched := AfterFetch(old(store.rows), user.value, selectOk, insertOk);
        var keys := WithoutKey(Fetched(old(store.rows), user.value, selectOk, insertOk).apiKeys, provider);
        var removed := AfterWrite(fetched, user.value, keys, now, updateOk);
        alert == Some(KeysWritten(fetched, user.value, keys, now, updateOk).Some?) &&
        (alert.value ==>
          store.rows == AfterFetch(removed, user.value, reloadSelectOk, reloadInsertOk) &&
          settings == Some(Fetched(removed, user.value, reloadSelectOk, reloadInsertOk)) &&
          tempApiKeys == WithoutKey(old(tempApiKeys), provider) && !loading) &&
        (!alert.value ==>
          store.rows == removed && settings == old(settings) &&
          tempApiKeys == old(tempApiKeys) && loading == old(loading))
      ensures saving == old(saving) && showApiKeys == old(showApiKeys)
    {
      if !confirmed || user.None? {
        return None;
      }
      var before := tempApiKeys;
      var ok := store.RemoveApiKey(user.value, provider, now, selectOk, insertOk, updateOk);
      if !ok {
        return Some(false);
      }
      LoadSettings(store, user, reloadSelectOk, reloadInsertOk);
      tempApiKeys := before - {provider};
      alert := Some(true);
    }
  }

  /** After a successful removal the page no longer has a temporary key for the provider,
      while another provider's unsaved temporary key survives the reload. */
  lemma RemovalKeepsOtherTempKeys(temp: map<string, string>, provider: string, other: string)
    requires other in temp && other != provider
    ensures provider !in WithoutKey(temp, provider)
    ensures other in WithoutKey(temp, provider) && WithoutKey(temp, provider)[other] == temp[other]
  {
  }
}
