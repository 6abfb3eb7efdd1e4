/**
 * `getPresetThemeStyles` (src/utils/theme-preset-helper.ts): the styles of a named preset,
 * laid over the default theme. Light tokens come from the preset's light styles, then the
 * defaults; dark tokens from the preset's dark styles, then its light styles, then the
 * default dark styles.
 *
 * The preset store is the map `presets`; the default theme is a parameter.
 */
module ThemePresetHelper {
  import opened Common
  import opened AiTypes

  /** A preset's styles as stored: either mode may be missing. */
  datatype PresetStyles = PresetStyles(light: Option<StyleMap>, dark: Option<StyleMap>)

  datatype ThemePreset = ThemePreset(styles: PresetStyles)

  /** `section || {}`. */
  function OrEmpty(m: Option<StyleMap>): (r: StyleMap)
    ensures m.None? ==> r == map[]
    ensures m.Some? ==> r == m.value
  {
    if m.Some? then m.value else map[]
  }

  /** `getPresetThemeStyles(name)`. */
  function GetPresetThemeStyles(name: string, defaults: ThemeStyles, presets: map<string, ThemePreset>): (r: ThemeStyles)
    ensures name == "default" || name !in presets ==> r == defaults
    ensures name != "default" && name in presets ==>
      var light := OrEmpty(presets[name].styles.light);
      var dark := OrEmpty(presets[name].styles.dark);
      (forall k :: k in r.light <==> k in light || k in defaults.light)
      && (forall k :: k in r.light ==> r.light[k] == if k in light then light[k] else defaults.light[k])
      && (forall k :: k in r.dark <==> k in dark || k in light || k in defaults.dark)
      && (forall k :: k in r.dark ==>
            r.dark[k] == if k in dark then dark[k] else if k in light then light[k] else defaults.dark[k])
  {
    if name == "default" then defaults
    else if name !in presets then defaults
    else
      var preset := presets[name];
      ThemeStyles(defaults.light + OrEmpty(preset.styles.light),
                  defaults.dark + OrEmpty(preset.styles.light) + OrEmpty(preset.styles.dark))
  }

  /** Every token of the default theme is present in every preset's styles, in both modes. */
  lemma KeysCoverDefaults(name: string, defaults: ThemeStyles, presets: map<string, ThemePreset>)
    ensures defaults.light.Keys <= GetPresetThemeStyles(name, defaults, presets).light.Keys
    ensures defaults.dark.Keys <= GetPresetThemeStyles(name, defaults, presets).dark.Keys
  {
  }

  /** A light override the preset does not repeat in its dark styles also shows in dark mode. */
  lemma DarkInheritsLight(name: string, defaults: ThemeStyles, presets: map<string, ThemePreset>, k: string)
    requires name != "default" && name in presets
    requires k in OrEmpty(presets[name].styles.light) && k !in OrEmpty(presets[name].styles.dark)
    ensures k in GetPresetThemeStyles(name, defaults, presets).dark
    ensures GetPresetThemeStyles(name, defaults, presets).dark[k] == presets[name].styles.light.value[k]
  {
  }

  /** A preset without styles is the default theme. */
  lemma EmptyPresetIsDefault(name: string, defaults: ThemeStyles, presets: map<string, ThemePreset>)
    requires name in presets && presets[name].styles == PresetStyles(None, None)
    ensures GetPresetThemeStyles(name, defaults, presets) == defaults
  {
    var r := GetPresetThemeStyles(name, defaults, presets);
    if name != "default" {
      assert r.light == defaults.light + map[];
      assert r.dark == defaults.dark + map[] + map[];
    }
  }
}
