/** The configuration store (src/main/services/ConfigManager.ts): the category
    validators, the shortcut pattern, and the app_config, api_config and
    shortcut_config tables with the per-category cache. Stored values are
    kept as values: serialising on write and parsing on read are the identity
    here. */
module Config {
  import opened Types
  import opened Text
  import opened Backends

  // ---------------------------------------------------------------------
  // Values and JavaScript's parseInt
  // ---------------------------------------------------------------------

  /** A configuration value as JavaScript sees it. Numbers are whole here,
      and `String(n)` is their plain decimal text, which JavaScript gives
      only below 10^21 in magnitude. */
  datatype Value = Str(s: string) | Num(n: int) | Bool(b: bool) | NullValue

  /** `String(v)`, the text `parseInt` reads. */
  function ValueText(v: Value): string
  {
    match v
    case Str(s) => s
    case Num(n) => IntToString(n)
    case Bool(b) => if b then "true" else "false"
    case NullValue => "null"
  }

  /** The longest prefix of decimal digits. */
  function DigitPrefix(s: string): (p: string)
    ensures AllDigits(p) && |p| <= |s| && p == s[..|p|]
    ensures |p| == |s| || !IsDigit(s[|p|])
  {
    if s != [] && IsDigit(s[0]) then
      var rest := DigitPrefix(s[1..]);
      assert s[..|rest| + 1] == [s[0]] + s[1..][..|rest|];
      [s[0]] + rest
    else []
  }

  predicate IsHexDigit(c: char) { IsDigit(c) || 'a' <= c <= 'f' || 'A' <= c <= 'F' }

  function HexDigitValue(c: char): (d: nat)
    requires IsHexDigit(c)
    ensures d < 16
  {
    if IsDigit(c) then DigitValue(c) else if 'a' <= c <= 'f' then c as int - 87 else c as int - 55
  }

  /** The longest prefix of hexadecimal digits. */
  function HexPrefix(s: string): (p: string)
    ensures |p| <= |s| && p == s[..|p|] && forall i :: 0 <= i < |p| ==> IsHexDigit(p[i])
    ensures |p| == |s| || !IsHexDigit(s[|p|])
  {
    if s != [] && IsHexDigit(s[0]) then
      var rest := HexPrefix(s[1..]);
      assert s[..|rest| + 1] == [s[0]] + s[1..][..|rest|];
      [s[0]] + rest
    else []
  }

  function HexValue(s: string): nat
    requires forall i :: 0 <= i < |s| ==> IsHexDigit(s[i])
  {
    if s == [] then 0 else HexValue(s[..|s| - 1]) * 16 + HexDigitValue(s[|s| - 1])
  }

  /** Whether the text after the sign selects base 16 (`0x` or `0X`). */
  predicate HexMarked(u: string)
  {
    |u| >= 2 && u[0] == '0' && (u[1] == 'x' || u[1] == 'X')
  }

  /** The longest run of decimal digits at the start, or NaN (None) when there is none. */
  function DecimalMagnitude(u: string): (r: Option<int>)
    ensures r.Some? ==> r.value >= 0
  {
    var p := DigitPrefix(u);
    if p == [] then None else Some(DigitsValue(p))
  }

  function HexMagnitude(u: string): (r: Option<int>)
    ensures r.Some? ==> r.value >= 0
  {
    var p := HexPrefix(u);
    if p == [] then None else Some(HexValue(p))
  }

  /** The text after the sign: `0x` or `0X` selects base 16. */
  function Magnitude(u: string): (r: Option<int>)
    ensures r.Some? ==> r.value >= 0
  {
    if HexMarked(u) then HexMagnitude(u[2..]) else DecimalMagnitude(u)
  }

  /** One optional sign, then the magnitude. */
  function Signed(t: string): Option<int>
  {
    if t != [] && t[0] == '-' then
      (var m := Magnitude(t[1..]); if m.None? then None else Some(-m.value))
    else if t != [] && t[0] == '+' then Magnitude(t[1..])
    else Magnitude(t)
  }

  /** `parseInt(text)` with no radix: leading whitespace is skipped, then the
      signed magnitude is read; no digit at all is NaN (None). */
  function ParseIntText(text: string): (r: Option<int>)
  {
    Signed(TrimStart(text))
  }

  function ParseInt(v: Value): Option<int>
  {
    ParseIntText(ValueText(v))
  }

  lemma TrimStartKeeps(s: string)
    requires s != [] && !IsJsSpace(s[0])
    ensures TrimStart(s) == s
  {
  }

  /** A run of digits reads as its value ... */
  lemma ParseIntOfDigits(d: string)
    requires AllDigits(d) && d != []
    ensures Magnitude(d) == Some(DigitsValue(d))
    ensures ParseIntText(d) == Some(DigitsValue(d))
  {
    assert IsDigit(d[0]) && !IsJsSpace(d[0]);
    TrimStartKeeps(d);
    assert DigitPrefix(d) == d;
    assert !HexMarked(d);
  }

  /** ... and after a minus sign as its negation. */
  lemma ParseIntOfNegative(d: string)
    requires AllDigits(d) && d != []
    ensures ParseIntText("-" + d).Some? && ParseIntText("-" + d).value == -(DigitsValue(d) as int)
  {
    ParseIntOfDigits(d);
    var m := "-" + d;
    TrimStartKeeps(m);
    assert m[0] == '-' && m[1..] == d;
  }

  /** A whole number reads back as itself. */
  lemma ParseIntOfNumber(n: int)
    ensures ParseInt(Num(n)) == Some(n)
  {
    var k: nat := if n < 0 then -n else n;
    NatToStringRoundTrip(k);
    ParseIntOfDigits(NatToString(k));
    ParseIntOfNegative(NatToString(k));
  }

  /** The digit prefix of digits followed by a non-digit is those digits. */
  lemma {:induction false} DigitPrefixOf(d: string, rest: string)
    requires AllDigits(d)
    requires rest == [] || !IsDigit(rest[0])
    ensures DigitPrefix(d + rest) == d
    decreases |d|
  {
    if d != [] {
      assert (d + rest)[1..] == d[1..] + rest;
      DigitPrefixOf(d[1..], rest);
      assert [d[0]] + d[1..] == d;
    }
  }

  /** The hexadecimal prefix of hex digits followed by a non-hex-digit is those digits. */
  lemma {:induction false} HexPrefixOf(h: string, rest: string)
    requires forall i :: 0 <= i < |h| ==> IsHexDigit(h[i])
    requires rest == [] || !IsHexDigit(rest[0])
    ensures HexPrefix(h + rest) == h
    decreases |h|
  {
    if h != [] {
      assert (h + rest)[1..] == h[1..] + rest;
      assert IsHexDigit(h[0]);
      HexPrefixOf(h[1..], rest);
      assert [h[0]] + h[1..] == h;
    }
  }

  /** Reading stops at the first non-digit: trailing text is ignored. */
  lemma ParseIntStopsAtNonDigit(d: string, rest: string)
    requires AllDigits(d) && d != []
    requires rest == [] || !IsDigit(rest[0])
    requires !HexMarked(d + rest)
    ensures ParseIntText(d + rest).Some? && ParseIntText(d + rest).value == DigitsValue(d)
  {
    var t := d + rest;
    assert t[0] == d[0] && IsDigit(t[0]) && !IsJsSpace(t[0]);
    TrimStartKeeps(t);
    DigitPrefixOf(d, rest);
  }

  /** A `0x` or `0X` marker reads the hexadecimal digits after it, up to the
      first character that is not one. */
  lemma ParseIntOfHex(t: string, h: string, rest: string)
    requires |t| >= 2 && t[0] == '0' && (t[1] == 'x' || t[1] == 'X') && t[2..] == h + rest
    requires h != [] && forall i :: 0 <= i < |h| ==> IsHexDigit(h[i])
    requires rest == [] || !IsHexDigit(rest[0])
    ensures ParseIntText(t).Some? && ParseIntText(t).value == HexValue(h)
  {
    HexPrefixOf(h, rest);
    assert Magnitude(t) == Some(HexValue(h));
    TrimStartKeeps(t);
  }

  /** A text that starts with neither whitespace, a sign nor a digit is NaN. */
  lemma ParseIntRefuses(t: string)
    requires t != [] && !IsJsSpace(t[0]) && !IsDigit(t[0]) && t[0] != '-' && t[0] != '+'
    ensures ParseIntText(t).None?
  {
    TrimStartKeeps(t);
    assert !HexMarked(t);
    assert DigitPrefix(t) == [];
  }

  /** A boolean has no number in it. */
  lemma ParseIntOfBool(b: bool)
    ensures ParseInt(Bool(b)).None?
  {
    var t := ValueText(Bool(b));
    assert t[0] == 't' || t[0] == 'f';
    ParseIntRefuses(t);
  }

  // ---------------------------------------------------------------------
  // Validators
  // ---------------------------------------------------------------------

  const ThemeError: string := "主题必须是 light、dark 或 system"
  const LanguageError: string := "语言必须是 zh-CN 或 en-US"
  const AudioFormatError: string := "音频格式必须是 wav、mp3、m4a 或 flac"
  const SampleRateError: string := "采样率必须是 8000、16000、22050、44100 或 48000"

  const Themes: set<Value> := {Str("light"), Str("dark"), Str("system")}
  const Languages: set<Value> := {Str("zh-CN"), Str("en-US")}
  const AudioFormats: set<Value> := {Str("wav"), Str("mp3"), Str("m4a"), Str("flac")}
  const SampleRates: set<int> := {8000, 16000, 22050, 44100, 48000}

  /** A configuration object: the keys present and their values. */
  type ConfigObject = map<string, Value>

  /** The UI rules: a present theme is one of three, a present language one of two. */
  predicate UiRules(config: ConfigObject)
  {
    ("theme" in config ==> config["theme"] in Themes) && ("language" in config ==> config["language"] in Languages)
  }

  /** The audio rules: a present format is one of four, and a present sample
      rate parses to one of five rates. */
  predicate AudioRules(config: ConfigObject)
  {
    ("audioFormat" in config ==> config["audioFormat"] in AudioFormats)
    && ("sampleRate" in config ==> ParseInt(config["sampleRate"]).Some? && ParseInt(config["sampleRate"]).value in SampleRates)
  }

  function ValidateUiConfig(config: ConfigObject): (errors: seq<string>)
    ensures ThemeError in errors <==> ("theme" in config && config["theme"] !in Themes)
    ensures LanguageError in errors <==> ("language" in config && config["language"] !in Languages)
    ensures forall e :: e in errors ==> e == ThemeError || e == LanguageError
  {
    (if "theme" in config && config["theme"] !in Themes then [ThemeError] else [])
    + (if "language" in config && config["language"] !in Languages then [LanguageError] else [])
  }

  function ValidateAudioConfig(config: ConfigObject): (errors: seq<string>)
    ensures AudioFormatError in errors <==> ("audioFormat" in config && config["audioFormat"] !in AudioFormats)
    ensures SampleRateError in errors <==>
      ("sampleRate" in config && !(ParseInt(config["sampleRate"]).Some? && ParseInt(config["sampleRate"]).value in SampleRates))
    ensures forall e :: e in errors ==> e == AudioFormatError || e == SampleRateError
  {
    var rate := if "sampleRate" in config then ParseInt(config["sampleRate"]) else None;
    (if "audioFormat" in config && config["audioFormat"] !in AudioFormats then [AudioFormatError] else [])
    + (if "sampleRate" in config && !(rate.Some? && rate.value in SampleRates) then [SampleRateError] else [])
  }

  /** The system validator has no rule. */
  function ValidateSystemConfig(config: ConfigObject): (errors: seq<string>)
    ensures errors == []
  {
    []
  }

  /** `validateConfig`: valid exactly when the category's rules hold; an
      unknown category is the one error naming it. */
  function ValidateConfig(category: string, config: ConfigObject): (r: ValidationResult)
    ensures r.isValid <==> r.errors == []
    ensures category == "ui" ==> (r.isValid <==> UiRules(config))
    ensures category == "audio" ==> (r.isValid <==> AudioRules(config))
    ensures category == "system" ==> r.isValid
    ensures category !in {"ui", "audio", "system"} ==> r.errors == ["未知的配置分类: " + category]
  {
    if category == "ui" then Validation(ValidateUiConfig(config))
    else if category == "audio" then Validation(ValidateAudioConfig(config))
    else if category == "system" then Validation(ValidateSystemConfig(config))
    else Validation(["未知的配置分类: " + category])
  }

  /** The UI cases the test suite checks. */
  lemma ValidateUiExamples()
    ensures ValidateConfig("ui", map["theme" := Str("dark")]).isValid
    ensures ThemeError in ValidateConfig("ui", map["theme" := Str("invalid")]).errors
  {
  }

  /** The audio cases the test suite checks. */
  lemma ValidateAudioExamples()
    ensures ValidateConfig("audio", map["audioFormat" := Str("wav")]).isValid
    ensures AudioFormatError in ValidateConfig("audio", map["audioFormat" := Str("invalid")]).errors
  {
  }

  /** A sample rate given as a number is accepted exactly when it is one of the five rates. */
  lemma SampleRateNumbers(n: int)
    ensures ValidateConfig("audio", map["sampleRate" := Num(n)]).isValid <==> n in SampleRates
  {
    ParseIntOfNumber(n);
  }

  /** An unknown category is the one error naming it, whatever the object holds. */
  lemma ValidateUnknownExample()
    ensures ValidateConfig("unknown", map["key" := Str("value")]).errors == ["未知的配置分类: unknown"]
  {
    assert "未知的配置分类: " + "unknown" == "未知的配置分类: unknown";
  }

  // ---------------------------------------------------------------------
  // The shortcut pattern ^(CommandOrControl|Alt|Shift|Ctrl|Meta|Super)?(\+[A-Z0-9])+$
  // ---------------------------------------------------------------------

  const Modifiers: seq<string> := ["CommandOrControl", "Alt", "Shift", "Ctrl", "Meta", "Super"]

  predicate IsKeyChar(c: char) { 'A' <= c <= 'Z' || '0' <= c <= '9' }

  /** One or more `+X` with X a capital letter or a digit, and nothing else. */
  predicate PlusKeys(s: string)
    decreases |s|
  {
    |s| >= 2 && s[0] == '+' && IsKeyChar(s[1]) && (|s| == 2 || PlusKeys(s[2..]))
  }

  /** `isValidShortcut`: the whole key is either a run of `+X`, or one of the
      modifiers followed by such a run. */
  predicate IsValidShortcut(key: string)
  {
    PlusKeys(key) || exists i :: 0 <= i < |Modifiers| && StartsWith(key, Modifiers[i]) && PlusKeys(key[|Modifiers[i]|..])
  }

  /** The shortcuts the pattern describes: an optional modifier, then one `+X`
      per key. */
  function Plus(keys: seq<char>): (s: string)
    ensures |s| == 2 * |keys|
  {
    if keys == [] then "" else "+" + [keys[0]] + Plus(keys[1..])
  }

  function Shortcut(modifier: string, keys: seq<char>): string
  {
    modifier + Plus(keys)
  }

  predicate KeyChars(keys: seq<char>)
  {
    keys != [] && forall i :: 0 <= i < |keys| ==> IsKeyChar(keys[i])
  }

  /** The keys of a run of `+X`. */
  function KeysOf(s: string): (keys: seq<char>)
    requires PlusKeys(s)
    ensures KeyChars(keys) && Plus(keys) == s
    decreases |s|
  {
    if |s| == 2 then
      assert Plus([s[1]]) == s;
      [s[1]]
    else
      var rest := KeysOf(s[2..]);
      assert ([s[1]] + rest)[1..] == rest;
      assert s == "+" + [s[1]] + s[2..];
      [s[1]] + rest
  }

  lemma {:induction false} PlusIsPlusKeys(keys: seq<char>)
    requires KeyChars(keys)
    ensures PlusKeys(Plus(keys))
    decreases |keys|
  {
    var s := Plus(keys);
    if |keys| > 1 {
      PlusIsPlusKeys(keys[1..]);
      assert s[2..] == Plus(keys[1..]);
    }
  }

  /** Every shortcut the pattern describes is accepted ... */
  lemma ShortcutAccepted(modifier: string, keys: seq<char>)
    requires modifier == "" || modifier in Modifiers
    requires KeyChars(keys)
    ensures IsValidShortcut(Shortcut(modifier, keys))
  {
    PlusIsPlusKeys(keys);
    var s := Shortcut(modifier, keys);
    assert s[|modifier|..] == Plus(keys);
    if modifier != "" {
      var i :| 0 <= i < |Modifiers| && Modifiers[i] == modifier;
      assert StartsWith(s, Modifiers[i]) && PlusKeys(s[|Modifiers[i]|..]);
    }
  }

  /** ... and every accepted key is such a shortcut. */
  lemma ShortcutParsed(key: string) returns (modifier: string, keys: seq<char>)
    requires IsValidShortcut(key)
    ensures modifier == "" || modifier in Modifiers
    ensures KeyChars(keys) && key == Shortcut(modifier, keys)
  {
    if PlusKeys(key) {
      modifier, keys := "", KeysOf(key);
    } else {
      var i :| 0 <= i < |Modifiers| && StartsWith(key, Modifiers[i]) && PlusKeys(key[|Modifiers[i]|..]);
      modifier, keys := Modifiers[i], KeysOf(key[|Modifiers[i]|..]);
      assert key == modifier + key[|modifier|..];
    }
  }

  /** A modifier may be followed only by `+X` runs, so a second modifier is
      refused. */
  lemma SecondModifierRefused(key: string)
    requires StartsWith(key, "CommandOrControl+Shift")
    ensures !IsValidShortcut(key)
  {
    assert key[0] == 'C' && key[1] == 'o' && key[16] == '+' && key[17] == 'S' && key[18] == 'h';
    forall i | 0 <= i < |Modifiers| && StartsWith(key, Modifiers[i])
      ensures !PlusKeys(key[|Modifiers[i]|..])
    {
      assert Modifiers[i] == "CommandOrControl" by {
        assert key[..|Modifiers[i]|] == Modifiers[i];
        assert Modifiers[i][0] == 'C' && Modifiers[i][1] == 'o';
      }
      assert key[16..][2] == 'h';
    }
  }

  lemma LowerCaseRefused()
    ensures !IsValidShortcut("invalid")
  {
    assert !StartsWith("invalid", "CommandOrControl") && !StartsWith("invalid", "Alt") && !StartsWith("invalid", "Shift");
    assert !StartsWith("invalid", "Ctrl") && !StartsWith("invalid", "Meta") && !StartsWith("invalid", "Super");
  }

  // ---------------------------------------------------------------------
  // Tables
  // ---------------------------------------------------------------------

  /** An app_config row; `configKey` is unique across all categories, so the
      table is keyed by it. */
  datatype ConfigRow = ConfigRow(category: string, value: Value, isSystem: bool)

  /** A shortcut_config row; `action` is unique, so the table is keyed by it. */
  datatype ShortcutRow = ShortcutRow(key: string, isEnabled: bool)

  /** `getApiConfig(apiType)`: the first active api_config row of that type. */
  function GetApiConfig(rows: seq<ApiConfig>, apiType: string): (r: Option<ApiConfig>)
    ensures r.Some? ==> r.value in rows && r.value.apiType == apiType && r.value.isActive
    ensures r.None? <==> forall i :: 0 <= i < |rows| ==> !(rows[i].apiType == apiType && rows[i].isActive)
  {
    if rows == [] then None
    else if rows[0].apiType == apiType && rows[0].isActive then Some(rows[0])
    else
      var r := GetApiConfig(rows[1..], apiType);
      assert forall i :: 1 <= i < |rows| ==> rows[i] == rows[1..][i - 1];
      r
  }

  /** The row of `key` in `category`, as the keyed query finds it. */
  function Lookup(rows: map<string, ConfigRow>, category: string, key: string): (v: Option<Value>)
    ensures v.Some? <==> key in rows && rows[key].category == category
  {
    if key in rows && rows[key].category == category then Some(rows[key].value) else None
  }

  /** The whole category, as the unkeyed query builds it. */
  function CategoryValues(rows: map<string, ConfigRow>, category: string): (m: map<string, Value>)
    ensures forall k :: k in m <==> Lookup(rows, category, k).Some?
    ensures forall k :: k in m ==> m[k] == Lookup(rows, category, k).value
  {
    map k | k in rows && rows[k].category == category :: rows[k].value
  }

  /** A cached category never contradicts the table: every row of the
      category is cached with its value. */
  ghost predicate Coherent(rows: map<string, ConfigRow>, cache: map<string, map<string, Value>>)
  {
    forall c, k :: c in cache && k in rows && rows[k].category == c ==> k in cache[c] && cache[c][k] == rows[k].value
  }

  /** A coherent cache answers for a category as the keyed query does. */
  lemma CachedAgreesWithLookup(rows: map<string, ConfigRow>, cache: map<string, map<string, Value>>, category: string, key: string)
    requires Coherent(rows, cache) && category in cache
    requires Lookup(rows, category, key).Some?
    ensures key in cache[category] && cache[category][key] == Lookup(rows, category, key).value
  {
  }

  datatype Store = Store(rows: map<string, ConfigRow>, cache: map<string, map<string, Value>>)

  /** `setConfig`: validate, refuse a system row of the same category, write
      the row (replacing any row with that key, whatever its category), then
      set the key in the category's cached map, loading it first when absent. */
  function SetSpec(s: Store, category: string, key: string, value: Value): (r: Result<Store>)
  {
    var v := ValidateConfig(category, map[key := value]);
    if !v.isValid then Err(PlainError("配置验证失败: " + Join(v.errors, ", ")))
    else if key in s.rows && s.rows[key].category == category && s.rows[key].isSystem then Err(PlainError("系统配置不允许修改"))
    else
      var rows := s.rows[key := ConfigRow(category, value, false)];
      var loaded := if category in s.cache then s.cache[category] else CategoryValues(rows, category);
      Ok(Store(rows, s.cache[category := loaded[key := value]]))
  }

  function Join(parts: seq<string>, sep: string): string
  {
    if parts == [] then "" else if |parts| == 1 then parts[0] else parts[0] + sep + Join(parts[1..], sep)
  }

  /** An invalid value is refused before anything is read or written. */
  lemma SetConfigValidatesFirst(s: Store, category: string, key: string, value: Value)
    requires !ValidateConfig(category, map[key := value]).isValid
    ensures SetSpec(s, category, key, value).Err?
    ensures StartsWith(SetSpec(s, category, key, value).error.message, "配置验证失败: ")
  {
  }

  /** A system row is refused when addressed through its own category. */
  lemma SetConfigRefusesSystemRow(s: Store, category: string, key: string, value: Value)
    requires ValidateConfig(category, map[key := value]).isValid
    requires key in s.rows && s.rows[key].category == category && s.rows[key].isSystem
    ensures SetSpec(s, category, key, value) == Err(PlainError("系统配置不允许修改"))
  {
  }

  /** After a successful write both the keyed query and the cache give the new
      value, and the cache stays coherent with the table. */
  lemma SetThenGet(s: Store, category: string, key: string, value: Value)
    requires Coherent(s.rows, s.cache)
    requires SetSpec(s, category, key, value).Ok?
    ensures var t := SetSpec(s, category, key, value).value;
      && Lookup(t.rows, category, key) == Some(value)
      && category in t.cache && t.cache[category][key] == value
      && Coherent(t.rows, t.cache)
  {
    var t := SetSpec(s, category, key, value).value;
    forall c, k | c in t.cache && k in t.rows && t.rows[k].category == c
      ensures k in t.cache[c] && t.cache[c][k] == t.rows[k].value
    {
      if c == category && k != key {
        if category in s.cache {
          assert s.rows[k] == t.rows[k];
        }
      }
    }
  }

  /** The seeded system row `storagePath` is guarded only within category
      "system": written through category "ui" it is replaced by a user row,
      while a cached "system" map keeps the old value. */
  lemma SystemRowWritableFromOtherCategory(s: Store, old_path: Value, path: string)
    requires "storagePath" in s.rows && s.rows["storagePath"] == ConfigRow("system", old_path, true)
    requires "system" in s.cache && s.cache["system"] == map["storagePath" := old_path]
    ensures SetSpec(s, "system", "storagePath", Str(path)) == Err(PlainError("系统配置不允许修改"))
    ensures var r := SetSpec(s, "ui", "storagePath", Str(path));
      && r.Ok? && r.value.rows["storagePath"] == ConfigRow("ui", Str(path), false)
      && r.value.cache["system"]["storagePath"] == old_path
      && Lookup(r.value.rows, "system", "storagePath").None?
  {
    assert ValidateUiConfig(map["storagePath" := Str(path)]) == [];
  }

  /** `checkShortcutConflict(key, action)`: another action holds the key; an
      empty action excludes nothing. */
  predicate Conflict(shortcuts: map<string, ShortcutRow>, key: string, action: string)
  {
    exists a :: a in shortcuts && shortcuts[a].key == key && (action == "" || a != action)
  }

  /** No two actions share a key. */
  ghost predicate KeysUnique(shortcuts: map<string, ShortcutRow>)
  {
    forall a, b :: a in shortcuts && b in shortcuts && a != b ==> shortcuts[a].key != shortcuts[b].key
  }

  /** `updateShortcut`: check the pattern, then conflicts, then update the
      action's row (an unknown action updates nothing). */
  function ShortcutUpdate(shortcuts: map<string, ShortcutRow>, action: string, key: string, isEnabled: bool): (r: Result<map<string, ShortcutRow>>)
  {
    if !IsValidShortcut(key) then Err(PlainError("无效的快捷键格式"))
    else if Conflict(shortcuts, key, action) then Err(PlainError("快捷键冲突"))
    else if action in shortcuts then Ok(shortcuts[action := ShortcutRow(key, isEnabled)])
    else Ok(shortcuts)
  }

  /** An accepted update keeps keys unique, and changes only the named action's row. */
  lemma ShortcutUpdateKeepsKeysUnique(shortcuts: map<string, ShortcutRow>, action: string, key: string, isEnabled: bool)
    requires KeysUnique(shortcuts)
    requires ShortcutUpdate(shortcuts, action, key, isEnabled).Ok?
    ensures var s := ShortcutUpdate(shortcuts, action, key, isEnabled).value;
      && KeysUnique(s) && s.Keys == shortcuts.Keys
      && (forall a :: a in s && a != action ==> s[a] == shortcuts[a])
      && (action in s ==> s[action] == ShortcutRow(key, isEnabled))
  {
    var s := ShortcutUpdate(shortcuts, action, key, isEnabled).value;
    forall a, b | a in s && b in s && a != b
      ensures s[a].key != s[b].key
    {
      if a == action {
        assert b in shortcuts && b != action;
      } else if b == action {
        assert a in shortcuts && a != action;
      }
    }
  }

  /** The three default shortcuts, as seeded. */
  const DefaultShortcuts: map<string, ShortcutRow> := map[
    "startRecording" := ShortcutRow("CommandOrControl+Shift+R", true),
    "stopRecording" := ShortcutRow("CommandOrControl+Shift+S", true),
    "showWindow" := ShortcutRow("CommandOrControl+Shift+W", true)]

  /** The defaults have distinct keys. */
  lemma DefaultShortcutsUnique()
    ensures KeysUnique(DefaultShortcuts)
  {
    assert DefaultShortcuts["startRecording"].key[23] == 'R';
    assert DefaultShortcuts["stopRecording"].key[23] == 'S';
    assert DefaultShortcuts["showWindow"].key[23] == 'W';
  }

  /** The test's rebinding of startRecording to a two-modifier key is refused
      by the pattern, whatever the table holds. */
  lemma TwoModifierRebindRefused(shortcuts: map<string, ShortcutRow>)
    ensures ShortcutUpdate(shortcuts, "startRecording", "CommandOrControl+Shift+A", true) == Err(PlainError("无效的快捷键格式"))
  {
    SecondModifierRefused("CommandOrControl+Shift+A");
  }

  // ---------------------------------------------------------------------
  // The store object
  // ---------------------------------------------------------------------

  /** What `getConfig` returns: a category's map, or one value (null when absent). */
  datatype ConfigAnswer = Whole(values: map<string, Value>) | One(value: Option<Value>)

  class ConfigManager {
    var rows: map<string, ConfigRow>
    var apiRows: seq<ApiConfig>
    var shortcuts: map<string, ShortcutRow>
    var cache: map<string, map<string, Value>>

    ghost predicate Valid()
      reads this
    {
      KeysUnique(shortcuts) && Coherent(rows, cache)
    }

    constructor (rows: map<string, ConfigRow>, apiRows: seq<ApiConfig>, shortcuts: map<string, ShortcutRow>)
      requires KeysUnique(shortcuts)
      ensures Valid() && this.rows == rows && this.apiRows == apiRows && this.shortcuts == shortcuts && cache == map[]
    {
      this.rows, this.apiRows, this.shortcuts, cache := rows, apiRows, shortcuts, map[];
    }

    /** `getConfig(category, key)`; an absent key is "", which the source
        treats alike. Only the unkeyed form reads or fills the cache. */
    method GetConfig(category: string, key: string) returns (r: ConfigAnswer)
      requires Valid()
      modifies this
      ensures Valid() && rows == old(rows) && apiRows == old(apiRows) && shortcuts == old(shortcuts)
      ensures key != "" ==> r == One(Lookup(rows, category, key)) && cache == old(cache)
      ensures key == "" && category in old(cache) ==> r == Whole(old(cache)[category]) && cache == old(cache)
      ensures key == "" && category !in old(cache) ==>
        r == Whole(CategoryValues(rows, category)) && cache == old(cache)[category := CategoryValues(rows, category)]
    {
      if category in cache && key == "" {
        return Whole(cache[category]);
      }
      if key != "" {
        return One(Lookup(rows, category, key));
      }
      var values := CategoryValues(rows, category);
      cache := cache[category := values];
      r := Whole(values);
    }

    method SetConfig(category: string, key: string, value: Value) returns (r: Result<()>)
      requires Valid()
      modifies this
      ensures Valid() && apiRows == old(apiRows) && shortcuts == old(shortcuts)
      ensures var spec := SetSpec(Store(old(rows), old(cache)), category, key, value);
        && (spec.Err? ==> r == Err(spec.error) && rows == old(rows) && cache == old(cache))
        && (spec.Ok? ==> r == Ok(()) && Store(rows, cache) == spec.value)
    {
      var validation := ValidateConfig(category, map[key := value]);
      if !validation.isValid {
        return Err(PlainError("配置验证失败: " + Join(validation.errors, ", ")));
      }
      if key in rows && rows[key].category == category && rows[key].isSystem {
        return Err(PlainError("系统配置不允许修改"));
      }
      ghost var before := Store(rows, cache);
      rows := rows[key := ConfigRow(category, value, false)];
      var loaded: map<string, Value>;
      if category in cache {
        loaded := cache[category];
      } else {
        loaded := CategoryValues(rows, category);
      }
      cache := cache[category := loaded[key := value]];
      SetThenGet(before, category, key, value);
      r := Ok(());
    }

    method UpdateShortcut(action: string, key: string, isEnabled: bool) returns (r: Result<()>)
      requires Valid()
      modifies this
      ensures Valid() && rows == old(rows) && apiRows == old(apiRows) && cache == old(cache)
      ensures var spec := ShortcutUpdate(old(shortcuts), action, key, isEnabled);
        && (spec.Err? ==> r == Err(spec.error) && shortcuts == old(shortcuts))
        && (spec.Ok? ==> r == Ok(()) && shortcuts == spec.value)
    {
      if !IsValidShortcut(key) {
        return Err(PlainError("无效的快捷键格式"));
      }
      if Conflict(shortcuts, key, action) {
        return Err(PlainError("快捷键冲突"));
      }
      ShortcutUpdateKeepsKeysUnique(shortcuts, action, key, isEnabled);
      if action in shortcuts {
        shortcuts := shortcuts[action := ShortcutRow(key, isEnabled)];
      }
      r := Ok(());
    }

  }
}
