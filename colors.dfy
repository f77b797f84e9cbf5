/**
 * The two colour palettes and the theme lookup with its fallback to dark.
 */
module Colors {

  type Palette = map<string, string>

  /** The twelve colour keys every palette defines. */
  const PaletteKeys: set<string> := {
    "background", "surface", "surfaceLight", "card", "text", "textSecondary",
    "primary", "primaryDark", "secondary", "border", "success", "error"
  }

  const DarkPalette: Palette := map[
    "background" := "#0A0E27",
    "surface" := "#1A1F3A",
    "surfaceLight" := "#252A45",
    "card" := "#1E2340",
    "text" := "#FFFFFF",
    "textSecondary" := "#A0A5BA",
    "primary" := "#00D9FF",
    "primaryDark" := "#00A8CC",
    "secondary" := "#FF0080",
    "border" := "#2A2F4A",
    "success" := "#00FF88",
    "error" := "#FF3B5C"
  ]

  const LightPalette: Palette := map[
    "background" := "#FFFFFF",
    "surface" := "#F5F7FA",
    "surfaceLight" := "#E8ECF0",
    "card" := "#FFFFFF",
    "text" := "#1A1F3A",
    "textSecondary" := "#6B7280",
    "primary" := "#00A8CC",
    "primaryDark" := "#007799",
    "secondary" := "#FF0080",
    "border" := "#E5E7EB",
    "success" := "#00AA66",
    "error" := "#DC2626"
  ]

  /** `COLORS`, keyed by theme name. */
  const ColorTable: map<string, Palette> := map["dark" := DarkPalette, "light" := LightPalette]

  /** `getThemeColors`: the palette stored under the theme name, or the dark
      palette for a name the table does not hold. */
  function ThemeColors(theme: string): (p: Palette)
    ensures theme == "dark" ==> p == DarkPalette
    ensures theme == "light" ==> p == LightPalette
    ensures theme != "light" ==> p == DarkPalette
  {
    if theme in ColorTable then ColorTable[theme] else ColorTable["dark"]
  }

  /** Whatever the theme, the result is one of the two palettes and so
      defines exactly the twelve colour keys. */
  lemma ThemeColorsTotal(theme: string)
    ensures ThemeColors(theme) == DarkPalette || ThemeColors(theme) == LightPalette
    ensures ThemeColors(theme).Keys == PaletteKeys
  {
  }

  /** The colour keys in the order the table lists them. */
  const KeyList: seq<string> := [
    "background", "surface", "surfaceLight", "card", "text", "textSecondary",
    "primary", "primaryDark", "secondary", "border", "success", "error"
  ]

  lemma {:induction false} DistinctCount(xs: seq<string>)
    requires forall i, j :: 0 <= i < j < |xs| ==> xs[i] != xs[j]
    ensures |set x | x in xs| == |xs|
  {
    if xs != [] {
      var rest := xs[1..];
      DistinctCount(rest);
      assert (set x | x in xs) == {xs[0]} + (set x | x in rest);
      assert xs[0] !in (set x | x in rest);
    }
  }

  lemma KeyListDistinct()
    ensures forall i, j :: 0 <= i < j < |KeyList| ==> KeyList[i] != KeyList[j]
  {
    forall i, j | 0 <= i < j < |KeyList| ensures KeyList[i] != KeyList[j] {
      var a, b := KeyList[i], KeyList[j];
      assert |a| != |b| || a[0] != b[0] || a[1] != b[1] || a[|a| - 1] != b[|b| - 1];
    }
  }

  /** The key set lists twelve distinct names. */
  lemma PaletteKeyCount()
    ensures |PaletteKeys| == 12
  {
    assert PaletteKeys == set x | x in KeyList;
    KeyListDistinct();
    DistinctCount(KeyList);
  }

  /** Both palettes define the same twelve keys. */
  lemma PalettesShareKeys()
    ensures DarkPalette.Keys == LightPalette.Keys == PaletteKeys
    ensures |PaletteKeys| == 12
  {
    PaletteKeyCount();
  }
}
