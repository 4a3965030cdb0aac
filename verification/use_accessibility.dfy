/**
 * The accessibility settings provider: a four-field settings record, loaded from storage
 * over the defaults, persisted after every change, and mirrored as classes on the document
 * root. `JSON.parse` is an oracle: the loader receives the record it produced, if any.
 */
module UseAccessibility {
  import opened Wrappers

  datatype FontSize = Normal | Large | ExtraLarge

  datatype Settings = Settings(fontSize: FontSize, highContrast: bool, reduceMotion: bool, screenReaderMode: bool)

  const Defaults := Settings(Normal, false, false, false)

  /** The keys of the settings record, and a value of one of its fields. */
  datatype Key = FontSizeKey | HighContrastKey | ReduceMotionKey | ScreenReaderModeKey
  datatype Value = SizeValue(size: FontSize) | FlagValue(flag: bool)

  /** A value of the right type for `key`, as the record type demands of `updateSetting`. */
  predicate Fits(key: Key, v: Value) {
    (key == FontSizeKey) == v.SizeValue?
  }

  /** The field `key` of `s`. */
  function Get(s: Settings, key: Key): (v: Value)
    ensures Fits(key, v)
  {
    match key
    case FontSizeKey => SizeValue(s.fontSize)
    case HighContrastKey => FlagValue(s.highContrast)
    case ReduceMotionKey => FlagValue(s.reduceMotion)
    case ScreenReaderModeKey => FlagValue(s.screenReaderMode)
  }

  /** `{ ...prev, [key]: value }`: the given key takes the value, every other key is kept. */
  function Update(s: Settings, key: Key, v: Value): (r: Settings)
    requires Fits(key, v)
    ensures Get(r, key) == v
    ensures forall k :: k != key ==> Get(r, k) == Get(s, k)
  {
    match key
    case FontSizeKey => s.(fontSize := v.size)
    case HighContrastKey => s.(highContrast := v.flag)
    case ReduceMotionKey => s.(reduceMotion := v.flag)
    case ScreenReaderModeKey => s.(screenReaderMode := v.flag)
  }

  /** A parsed stored record: each field present or missing. */
  datatype Saved = Saved(fontSize: Option<FontSize>, highContrast: Option<bool>,
                         reduceMotion: Option<bool>, screenReaderMode: Option<bool>)

  /** The field `key` of a parsed record, if present. */
  function SavedGet(saved: Saved, key: Key): (v: Option<Value>)
    ensures v.Some? ==> Fits(key, v.value)
  {
    match key
    case FontSizeKey => if saved.fontSize.Some? then Some(SizeValue(saved.fontSize.value)) else None
    case HighContrastKey => if saved.highContrast.Some? then Some(FlagValue(saved.highContrast.value)) else None
    case ReduceMotionKey => if saved.reduceMotion.Some? then Some(FlagValue(saved.reduceMotion.value)) else None
    case ScreenReaderModeKey =>
      if saved.screenReaderMode.Some? then Some(FlagValue(saved.screenReaderMode.value)) else None
  }

  /** `{ ...base, ...saved }`: a present saved field overrides, a missing one takes the base's. */
  function Merge(base: Settings, saved: Saved): (r: Settings)
    ensures forall k :: Get(r, k) == if SavedGet(saved, k).Some? then SavedGet(saved, k).value else Get(base, k)
  {
    Settings(
      if saved.fontSize.Some? then saved.fontSize.value else base.fontSize,
      if saved.highContrast.Some? then saved.highContrast.value else base.highContrast,
      if saved.reduceMotion.Some? then saved.reduceMotion.value else base.reduceMotion,
      if saved.screenReaderMode.Some? then saved.screenReaderMode.value else base.screenReaderMode)
  }

  /**
   * The initial settings: the defaults when nothing (or the empty text) is stored or the text
   * does not parse; otherwise the parsed record over the defaults.
   */
  function Load(stored: Option<string>, parsed: Option<Saved>): (s: Settings)
    ensures stored.None? || stored == Some("") || parsed.None? ==> s == Defaults
    ensures stored.Some? && stored.value != "" && parsed.Some? ==> s == Merge(Defaults, parsed.value)
  {
    if stored.None? || stored.value == "" then Defaults
    else match parsed
      case None => Defaults
      case Some(p) => Merge(Defaults, p)
  }

  /** The record `JSON.stringify` writes: every field present. */
  function Saving(s: Settings): (saved: Saved)
    ensures forall k :: SavedGet(saved, k) == Some(Get(s, k))
  {
    Saved(Some(s.fontSize), Some(s.highContrast), Some(s.reduceMotion), Some(s.screenReaderMode))
  }

  function SizeName(size: FontSize): string {
    match size
    case Normal => "normal"
    case Large => "large"
    case ExtraLarge => "extra-large"
  }

  function BoolText(b: bool): string {
    if b then "true" else "false"
  }

  /** The JSON text `JSON.stringify(settings)` produces. */
  function Stringify(s: Settings): (text: string)
    ensures text != "" && text[0] == '{'
  {
    "{\"fontSize\":\"" + SizeName(s.fontSize)
    + "\",\"highContrast\":" + BoolText(s.highContrast)
    + ",\"reduceMotion\":" + BoolText(s.reduceMotion)
    + ",\"screenReaderMode\":" + BoolText(s.screenReaderMode) + "}"
  }

  /** Persisted settings are read back unchanged on the next load. */
  lemma PersistThenLoad(s: Settings)
    ensures Load(Some(Stringify(s)), Some(Saving(s))) == s
  {
    var r := Load(Some(Stringify(s)), Some(Saving(s)));
    assert Get(r, FontSizeKey) == Get(s, FontSizeKey);
    assert Get(r, HighContrastKey) == Get(s, HighContrastKey);
    assert Get(r, ReduceMotionKey) == Get(s, ReduceMotionKey);
    assert Get(r, ScreenReaderModeKey) == Get(s, ScreenReaderModeKey);
  }

  /**
   * The mount-time check of system preferences: a preference can only switch
   * `reduceMotion` or `highContrast` on, never off, and the other fields are kept.
   */
  function WithSystemPreferences(s: Settings, prefersReducedMotion: bool, prefersHighContrast: bool): (r: Settings)
    ensures r.reduceMotion <==> s.reduceMotion || prefersReducedMotion
    ensures r.highContrast <==> s.highContrast || prefersHighContrast
    ensures r.fontSize == s.fontSize && r.screenReaderMode == s.screenReaderMode
  {
    var afterMotion := if prefersReducedMotion && !s.reduceMotion then s.(reduceMotion := true) else s;
    if prefersHighContrast && !s.highContrast then afterMotion.(highContrast := true) else afterMotion
  }

  function FontClass(size: FontSize): string {
    "font-size-" + SizeName(size)
  }

  const FontClasses: set<string> := {FontClass(Normal), FontClass(Large), FontClass(ExtraLarge)}
  const HighContrastClass := "high-contrast"
  const ReduceMotionClass := "reduce-motion"
  const ScreenReaderModeClass := "screen-reader-mode"

  /** The root's classes that the provider manages; all others are left alone. */
  const Managed: set<string> := FontClasses + {HighContrastClass, ReduceMotionClass, ScreenReaderModeClass}

  /**
   * The classes the effect leaves on the document root: exactly one font-size class, the
   * three toggles as the settings say, and every unmanaged class kept.
   */
  function AppliedClasses(classes: set<string>, s: Settings): (r: set<string>)
    ensures r * FontClasses == {FontClass(s.fontSize)}
    ensures HighContrastClass in r <==> s.highContrast
    ensures ReduceMotionClass in r <==> s.reduceMotion
    ensures ScreenReaderModeClass in r <==> s.screenReaderMode
    ensures r - Managed == classes - Managed
  {
    var sized := classes - FontClasses + {FontClass(s.fontSize)};
    var contrast := if s.highContrast then sized + {HighContrastClass} else sized - {HighContrastClass};
    var motion := if s.reduceMotion then contrast + {ReduceMotionClass} else contrast - {ReduceMotionClass};
    if s.screenReaderMode then motion + {ScreenReaderModeClass} else motion - {ScreenReaderModeClass}
  }

  /** Running the effect twice leaves what running it once for the later settings leaves. */
  lemma ApplyTwice(classes: set<string>, first: Settings, second: Settings)
    ensures AppliedClasses(AppliedClasses(classes, first), second) == AppliedClasses(classes, second)
  {
    var once := AppliedClasses(classes, second);
    var twice := AppliedClasses(AppliedClasses(classes, first), second);
    forall c | c in twice ensures c in once {
      if c !in Managed {
        assert c in AppliedClasses(classes, first) - Managed;
      }
    }
    forall c | c in once ensures c in twice {
      if c !in Managed {
        assert c in classes - Managed;
      }
    }
  }

  /** The provider's state: the settings, the stored text, and the document root's classes. */
  class AccessibilityProvider {
    var settings: Settings
    /** `localStorage['accessibility-settings']`. */
    var stored: Option<string>
    var classes: set<string>

    /** The effect has run for the current settings. */
    predicate Applied()
      reads this
    {
      stored == Some(Stringify(settings)) && classes * FontClasses == {FontClass(settings.fontSize)}
    }

    /** Mounting: load over the defaults, then the persisting effect, then the system preferences. */
    constructor (saved: Option<string>, parsed: Option<Saved>, classes0: set<string>,
                 prefersReducedMotion: bool, prefersHighContrast: bool)
      ensures settings == WithSystemPreferences(Load(saved, parsed), prefersReducedMotion, prefersHighContrast)
      ensures Applied() && classes == AppliedClasses(classes0, settings)
    {
      settings := Load(saved, parsed);
      stored := saved;
      classes := classes0;
      new;
      Apply();
      ghost var loaded := settings;
      CheckSystemPreferences(prefersReducedMotion, prefersHighContrast);
      ApplyTwice(classes0, loaded, settings);
    }

    /** The effect run after every settings change: persist, then set the root's classes. */
    method Apply()
      modifies this
      ensures settings == old(settings)
      ensures stored == Some(Stringify(settings))
      ensures classes == AppliedClasses(old(classes), settings)
      ensures Applied()
    {
      stored := Some(Stringify(settings));
      classes := classes - FontClasses;
      classes := classes + {FontClass(settings.fontSize)};
      if settings.highContrast {
        classes := classes + {HighContrastClass};
      } else {
        classes := classes - {HighContrastClass};
      }
      if settings.reduceMotion {
        classes := classes + {ReduceMotionClass};
      } else {
        classes := classes - {ReduceMotionClass};
      }
      if settings.screenReaderMode {
        classes := classes + {ScreenReaderModeClass};
      } else {
        classes := classes - {ScreenReaderModeClass};
      }
    }

    /** The mount effect that reads `prefers-reduced-motion` and `prefers-contrast`. */
    method CheckSystemPreferences(prefersReducedMotion: bool, prefersHighContrast: bool)
      modifies this
      ensures settings == WithSystemPreferences(old(settings), prefersReducedMotion, prefersHighContrast)
      ensures classes == AppliedClasses(old(classes), settings)
      ensures Applied()
    {
      var current := settings;
      if prefersReducedMotion && !current.reduceMotion {
        settings := settings.(reduceMotion := true);
      }
      if prefersHighContrast && !current.highContrast {
        settings := settings.(highContrast := true);
      }
      Apply();
    }

    /** `updateSetting`: one key changes, then the effect runs. */
    method UpdateSetting(key: Key, value: Value)
      requires Fits(key, value)
      modifies this
      ensures settings == Update(old(settings), key, value)
      ensures classes == AppliedClasses(old(classes), settings)
      ensures Applied()
    {
      settings := Update(settings, key, value);
      Apply();
    }

    /** `resetSettings`: back to the defaults, then the effect runs. */
    method ResetSettings()
      modifies this
      ensures settings == Defaults
      ensures classes == AppliedClasses(old(classes), Defaults)
      ensures Applied()
    {
      settings := Defaults;
      Apply();
    }
  }
}
