/** The configuration record and its theme catalog (the `Config` and `Theme`
    structs of src/main.rs), with the first-match lookup by terminal theme name. */
module Themes {
  import opened Wrappers

  /** Rust's `i32`. */
  const I32Min: int := -0x8000_0000
  const I32Max: int := 0x7FFF_FFFF
  type I32 = x: int | I32Min <= x <= I32Max

  /** One pairing of a terminal colour scheme with a Neovim colour scheme and,
      optionally, the Neovim plugin that provides it. */
  datatype Theme = Theme(term: string, nvimPlugin: Option<string>, nvimThemename: string)

  /** The user's configuration. Paths are kept as written; tilde expansion is
      not part of this model. A non-positive `hoursPerRandomization` turns the
      scheduled reroll off. */
  datatype Config = Config(
    cacheFileLocation: string,
    termEnvVarName: string,
    nvimThemeEnvVarName: string,
    nvimPluginEnvVarName: string,
    writeTermLua: bool,
    termLuaPath: string,
    hoursPerRandomization: I32,
    themes: seq<Theme>)

  /** The placeholder theme of a fresh configuration. */
  function DefaultTheme(): Theme {
    Theme("plugin-name", None, "nvim-plugin-colorscheme")
  }

  /** The configuration used when the user has not written one. */
  function DefaultConfig(): Config {
    Config(
      "~/.config/themester/.themecache",
      "TERM_THEME",
      "NVIM_THEME",
      "NVIM_THEME_PLUGIN",
      true,
      "~/.config/wezterm/dynamic_theme.lua",
      0,
      [DefaultTheme()])
  }

  /** Some catalog entry is named `term`. */
  predicate HasTerm(themes: seq<Theme>, term: string) {
    exists i :: 0 <= i < |themes| && themes[i].term == term
  }

  /** The position of the FIRST catalog entry named `term`, if any. */
  function FirstWithTerm(themes: seq<Theme>, term: string): (r: Option<nat>)
    ensures r.Some? ==> r.value < |themes| && themes[r.value].term == term
    ensures r.Some? ==> forall j :: 0 <= j < r.value ==> themes[j].term != term
    ensures r.None? <==> !HasTerm(themes, term)
    decreases |themes|
  {
    if |themes| == 0 then None
    else if themes[0].term == term then Some(0)
    else match FirstWithTerm(themes[1..], term)
      case None => None
      case Some(k) => Some(k + 1)
  }

  /** The entry an iterator `find` on `term` returns: the first one with that
      name, which need not be the entry that was drawn when names repeat. */
  function Lookup(themes: seq<Theme>, term: string): (r: Option<Theme>)
    ensures r.Some? <==> HasTerm(themes, term)
    ensures r.Some? ==> exists i :: 0 <= i < |themes| && themes[i] == r.value
                                    && r.value.term == term
                                    && (forall j :: 0 <= j < i ==> themes[j].term != term)
  {
    match FirstWithTerm(themes, term)
    case None => None
    case Some(i) => Some(themes[i])
  }

  /** A drawn name always finds an entry, and with unique names it finds the
      drawn entry itself. */
  lemma LookupDrawn(themes: seq<Theme>, k: nat)
    requires k < |themes|
    ensures Lookup(themes, themes[k].term).Some?
    ensures (forall i, j :: 0 <= i < j < |themes| ==> themes[i].term != themes[j].term)
            ==> Lookup(themes, themes[k].term) == Some(themes[k])
  {
  }
}
