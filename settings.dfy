/**
 * The AI settings dialog: the active provider's settings and a key vault that
 * keeps one API key per provider, so that switching provider and back does
 * not lose a key.
 */
module SettingsDialog {
  import opened Model

  /** `getDefaultModel`. */
  function DefaultModel(p: Provider): (r: string)
    ensures r != ""
    ensures p == DeepSeek <==> r == "deepseek-chat"
    ensures p == OpenAI <==> r == "gpt-3.5-turbo"
    ensures p == Gemini <==> r == "gemini-3-flash-preview"
  {
    match p
    case DeepSeek => "deepseek-chat"
    case OpenAI => "gpt-3.5-turbo"
    case Gemini => "gemini-3-flash-preview"
  }

  /** `getDefaultUrl`: Gemini has none; the others have their fixed endpoint. */
  function DefaultUrl(p: Provider): (r: string)
    ensures r == "" <==> p == Gemini
    ensures p == DeepSeek ==> r == "https://api.deepseek.com"
    ensures p == OpenAI ==> r == "https://api.openai.com/v1"
  {
    match p
    case DeepSeek => "https://api.deepseek.com"
    case OpenAI => "https://api.openai.com/v1"
    case Gemini => ""
  }

  /** The key vault: a key per provider; a provider missing from a stored vault has none. */
  type Vault = map<Provider, string>

  /** `vault[p] || ''`. */
  function KeyOf(v: Vault, p: Provider): string
  {
    if p in v then v[p] else ""
  }

  /** The active settings together with the vault. */
  datatype Config = Config(settings: Settings, vault: Vault)

  /**
   * `handleProviderChange`: the typed key is filed under the old provider;
   * the new provider becomes active with its filed key and its default
   * endpoint and model.
   */
  function SwitchTo(c: Config, p: Provider): (r: Config)
    ensures r.vault == c.vault[c.settings.provider := c.settings.apiKey]
    ensures r.settings == Settings(p, KeyOf(r.vault, p), DefaultUrl(p), DefaultModel(p))
  {
    var v := c.vault[c.settings.provider := c.settings.apiKey];
    Config(Settings(p, KeyOf(v, p), DefaultUrl(p), DefaultModel(p)), v)
  }

  /** A switch files the old key under the old provider and changes no other provider's entry. */
  lemma SwitchKeepsOtherKeys(c: Config, p: Provider, q: Provider)
    requires q != c.settings.provider
    ensures KeyOf(SwitchTo(c, p).vault, q) == KeyOf(c.vault, q)
    ensures KeyOf(SwitchTo(c, p).vault, c.settings.provider) == c.settings.apiKey
  {
  }

  /** Switching away and straight back restores the key that was active, with the provider's defaults. */
  lemma SwitchBack(c: Config, p: Provider)
    ensures var a := c.settings.provider; var r := SwitchTo(SwitchTo(c, p), a);
      r.settings == Settings(a, c.settings.apiKey, DefaultUrl(a), DefaultModel(a))
  {
    var a := c.settings.provider;
    var mid := SwitchTo(c, p);
    if p != a {
      assert KeyOf(mid.vault, a) == c.settings.apiKey;
    }
  }

  /**
   * A key typed for the provider switched to is filed when switching away, and
   * comes back when switching to it again.
   */
  lemma TypedKeySurvives(c: Config, p: Provider, q: Provider, typed: string)
    requires q != p
    ensures var mid := SwitchTo(c, p);
      var edited := mid.(settings := mid.settings.(apiKey := typed));
      SwitchTo(SwitchTo(edited, q), p).settings.apiKey == typed
  {
  }

  /** The vault written on save, and synchronised on load: the active provider's entry is the active key. */
  function Synced(v: Vault, s: Settings): (r: Vault)
    ensures KeyOf(r, s.provider) == s.apiKey
    ensures forall q :: q != s.provider ==> KeyOf(r, q) == KeyOf(v, q)
  {
    v[s.provider := s.apiKey]
  }

  datatype Snapshot = Snapshot(settings: Settings, keyVault: Vault, saved: bool)

  class SettingsModal {
    var settings: Settings
    var keyVault: Vault
    var saved: bool

    function State(): Snapshot
      reads this
    {
      Snapshot(settings, keyVault, saved)
    }

    /** Gemini with no key, and an empty key for every provider. */
    constructor ()
      ensures State() == Snapshot(Settings(Gemini, "", "", ""), map[Gemini := "", OpenAI := "", DeepSeek := ""], false)
    {
      settings := Settings(Gemini, "", "", "");
      keyVault := map[Gemini := "", OpenAI := "", DeepSeek := ""];
      saved := false;
    }

    /**
     * Opening the dialog: stored settings, when there are some, replace the
     * current ones; the stored vault, or else the current one, gets the active
     * key filed under the active provider.
     */
    method Load(storedSettings: Option<Settings>, storedVault: Option<Vault>)
      modifies this
      ensures settings == (if storedSettings.Some? then storedSettings.value else old(settings))
      ensures keyVault == Synced(if storedVault.Some? then storedVault.value else old(keyVault), settings)
      ensures saved == old(saved)
    {
      if storedSettings.Some? {
        settings := storedSettings.value;
      }
      var base := if storedVault.Some? then storedVault.value else keyVault;
      keyVault := Synced(base, settings);
    }

    /** `handleSave`: what is written to storage; the dialog shows it saved. */
    method Save() returns (storedSettings: Settings, storedVault: Vault)
      modifies this
      ensures storedSettings == settings && storedVault == Synced(keyVault, settings)
      ensures State() == old(State()).(saved := true)
    {
      storedSettings := settings;
      storedVault := Synced(keyVault, settings);
      saved := true;
    }

    method ChangeProvider(p: Provider)
      modifies this
      ensures Config(settings, keyVault) == SwitchTo(Config(old(settings), old(keyVault)), p)
      ensures saved == old(saved)
    {
      var c := SwitchTo(Config(settings, keyVault), p);
      settings, keyVault := c.settings, c.vault;
    }

    /** Typing in the key box. */
    method SetApiKey(k: string)
      modifies this
      ensures State() == old(State()).(settings := old(settings).(apiKey := k))
    {
      settings := settings.(apiKey := k);
    }

    /** Typing in the model box. */
    method SetModel(m: string)
      modifies this
      ensures State() == old(State()).(settings := old(settings).(model := m))
    {
      settings := settings.(model := m);
    }
  }

  /** Saving right after loading writes back the vault the load made. */
  lemma SaveAfterLoad(v: Vault, s: Settings)
    ensures Synced(Synced(v, s), s) == Synced(v, s)
  {
  }
}
