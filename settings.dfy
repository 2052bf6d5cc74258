/**
 * DialogProSettings: the plugin's settings array with its built-in defaults,
 * the per-key lookup that falls back to those defaults, the sanitising
 * validation run before the array is saved, and the lazily created singleton.
 * WordPress's sanitisers are abstract functions handed in as `Sanitizers`.
 */
module PluginSettings {
  import opened Php

  /** The keys of DEFAULTS, in declaration order. */
  const DefaultKeys: seq<string> := [
    "api_endpoint", "api_token", "chat_position", "chat_width", "primary_color",
    "font_family", "font_size", "token_limit", "welcome_message", "logging_level"
  ]

  /** DEFAULTS: the value each known key takes when nothing is stored for it. */
  const Defaults: map<string, Value> := map[
    "api_endpoint" := Str(""),
    "api_token" := Str(""),
    "chat_position" := Str("bottom-right"),
    "chat_width" := Str("20"),
    "primary_color" := Str("#007bff"),
    "font_family" := Str("Arial, sans-serif"),
    "font_size" := Str("14"),
    "token_limit" := Str("8500"),
    "welcome_message" := Str("Hello! How can I help you today?"),
    "logging_level" := Str("error")
  ]

  /** The lower and upper bound validation clamps chat_width to. */
  const MinChatWidth: int := 10
  const MaxChatWidth: int := 100

  /** The sanitisers WordPress provides: esc_url_raw, sanitize_text_field, sanitize_hex_color. */
  datatype Sanitizers = Sanitizers(
    urlRaw: Value -> string,
    textField: Value -> string,
    hexColor: Value -> Option<string>)

  lemma DefaultKeysCoverDefaults()
    ensures forall k :: k in Defaults <==> k in DefaultKeys
  {
  }

  lemma DefaultKeysInDefaults()
    ensures forall n :: 0 <= n < |DefaultKeys| ==> DefaultKeys[n] in Defaults
  {
  }

  /** `$input[$key] ?? $default`: a missing or null input entry takes the key's default. */
  function InputOrDefault(input: map<string, Value>, key: string): (v: Value)
    requires key in Defaults
    ensures key in input && input[key] != Null ==> v == input[key]
    ensures key !in input || input[key] == Null ==> v == Defaults[key]
  {
    if key in input && input[key] != Null then input[key] else Defaults[key]
  }

  /** min(100, max(10, $n)). */
  function ClampWidth(n: int): (w: int)
    ensures MinChatWidth <= w <= MaxChatWidth
    ensures MinChatWidth <= n <= MaxChatWidth ==> w == n
    ensures n < MinChatWidth ==> w == MinChatWidth
    ensures n > MaxChatWidth ==> w == MaxChatWidth
  {
    if n > MaxChatWidth then MaxChatWidth else if n < MinChatWidth then MinChatWidth else n
  }

  /** chat_width is a key of DEFAULTS, and its field is the clamped integer value. */
  lemma ChatWidthField(v: Value, san: Sanitizers)
    ensures "chat_width" in Defaults
    ensures SanitizeField("chat_width", v, san) == Int(ClampWidth(IntVal(v)))
  {
  }

  /** The switch inside validate_settings: how one key's raw value is cleaned. */
  function SanitizeField(key: string, v: Value, san: Sanitizers): Value
  {
    if key == "api_endpoint" then Str(san.urlRaw(v))
    else if key == "api_token" then Str(san.textField(v))
    else if key == "chat_width" then Int(ClampWidth(IntVal(v)))
    else if key == "primary_color" then
      (match san.hexColor(v) case Some(c) => Str(c) case None => Null)
    else Str(san.textField(v))
  }

  /**
   * validate_settings($input): one entry per key of DEFAULTS and no other,
   * each the sanitised input value or, when that is missing or null, the
   * sanitised default.
   */
  method ValidateSettings(input: map<string, Value>, san: Sanitizers) returns (validated: map<string, Value>)
    ensures validated.Keys == Defaults.Keys
    ensures forall k :: k in validated ==> validated[k] == SanitizeField(k, InputOrDefault(input, k), san)
    ensures validated["chat_width"].Int?
    ensures MinChatWidth <= validated["chat_width"].i <= MaxChatWidth
  {
    DefaultKeysInDefaults();
    validated := map[];
    for n := 0 to |DefaultKeys|
      invariant forall k :: k in validated <==> k in DefaultKeys[..n]
      invariant forall k :: k in validated ==> k in Defaults && validated[k] == SanitizeField(k, InputOrDefault(input, k), san)
    {
      var key := DefaultKeys[n];
      assert DefaultKeys[..n + 1] == DefaultKeys[..n] + [key];
      validated := validated[key := SanitizeField(key, InputOrDefault(input, key), san)];
    }
    assert DefaultKeys[..|DefaultKeys|] == DefaultKeys;
    DefaultKeysCoverDefaults();
    ChatWidthField(InputOrDefault(input, "chat_width"), san);
  }

  /** What the constructor loads: the stored settings array, or DEFAULTS when none is stored. */
  function StoredOrDefaults(stored: Option<map<string, Value>>): map<string, Value>
  {
    match stored
    case Some(options) => options
    case None => Defaults
  }

  class Settings {
    /** The settings array read from the option store when the object was built. */
    const options: map<string, Value>

    constructor (stored: Option<map<string, Value>>)
      ensures options == StoredOrDefaults(stored)
    {
      options := StoredOrDefaults(stored);
    }

    /**
     * get_option($key): the stored value unless it is missing or null, else
     * the key's default, else null. A second argument at a call site is
     * ignored by PHP, since this method declares one parameter.
     */
    function GetOption(key: string): (v: Value)
      ensures key in options && options[key] != Null ==> v == options[key]
      ensures (key !in options || options[key] == Null) && key in Defaults ==> v == Defaults[key]
      ensures (key !in options || options[key] == Null) && key !in Defaults ==> v == Null
    {
      if key in options && options[key] != Null then options[key]
      else if key in Defaults then Defaults[key]
      else Null
    }
  }

  /** The class's static $instance slot. */
  class SettingsRegistry {
    var instance: Settings?

    constructor ()
      ensures instance == null
    {
      instance := null;
    }

    /** get_instance(): builds the settings object on first use and returns that object ever after. */
    method GetInstance(stored: Option<map<string, Value>>) returns (s: Settings)
      modifies this
      ensures old(instance) != null ==> s == old(instance)
      ensures old(instance) == null ==> fresh(s) && s.options == StoredOrDefaults(stored)
      ensures instance == s
    {
      if instance == null {
        instance := new Settings(stored);
      }
      s := instance;
    }
  }

  /** With nothing stored, the token limit is "8500" and casts to 8500, the position is bottom-right. */
  lemma DefaultLookups(s: Settings)
    requires s.options == map[]
    ensures s.GetOption("token_limit") == Str("8500")
    ensures IntVal(s.GetOption("token_limit")) == 8500
    ensures s.GetOption("chat_position") == Str("bottom-right")
    ensures s.GetOption("enabled_post_types") == Null
  {
    DefaultEntries();
    DefaultLimitCasts();
  }

  /** The entries of DEFAULTS the lookups above read, and a key it does not have. */
  lemma DefaultEntries()
    ensures "token_limit" in Defaults && Defaults["token_limit"] == Str("8500")
    ensures "chat_position" in Defaults && Defaults["chat_position"] == Str("bottom-right")
    ensures "enabled_post_types" !in Defaults
  {
  }

  /** The default token limit, a string, casts to the integer 8500. */
  lemma DefaultLimitCasts()
    ensures IntVal(Str("8500")) == 8500
  {
    var s := "8500";
    assert DigitsValue(s) == 8500 by {
      assert s[..3] == "850" && s[..3][..2] == "85" && s[..3][..2][..1] == "8";
      assert DigitsValue("8") == 8;
    }
    IntCastOfDigits(s);
  }
}
