/** `randomize` of src/main.rs: the selection policy combined with the
    rendering of the export block and of the reload-file content. The draw
    stream stands for the operating system's generator; the reload-file write
    is returned as the content to write rather than performed. */
module Randomizer {
  import opened Wrappers
  import opened Themes
  import opened Exports
  import opened Selector

  /** The line printed, ahead of everything else, when the catalog is empty. */
  const NoThemesDiagnostic: string := "echo \"Error: no themes!\""

  /** What one call of `randomize` produces: the export text it returns, the
      content it writes to the reload file (`None` when it writes nothing),
      the diagnostic it prints, and how many draws it consumed. */
  datatype RandomizeOutcome = RandomizeOutcome(
    exportText: string,
    termLua: Option<string>,
    diagnostic: Option<string>,
    drawsUsed: nat)

  /** The reload-file write for a chosen name, if writing is switched on. */
  function LuaWrite(config: Config, term: string): Option<string> {
    if config.writeTermLua then Some(TermLuaContent(term)) else None
  }

  /** The export text for a chosen name: the lines are filled from the first
      catalog entry with that name. The branch for a name with no entry
      mirrors the source's two branches and is never taken
      (`Themes.LookupDrawn`). */
  function Render(config: Config, term: string, quoteTerm: bool): string {
    match Lookup(config.themes, term)
    case Some(theme) => ExportBlock(config, term, theme, quoteTerm)
    case None => if quoteTerm then Assignment(config.termEnvVarName, term, true) else ""
  }

  /** The whole of `randomize`, with the active terminal theme (the value of
      the configured environment variable, if set) passed in. */
  function Randomize(config: Config, active: Option<string>, draws: seq<nat>): (r: RandomizeOutcome)
    requires SourceCovers(draws, |config.themes|)
    ensures r.drawsUsed == Select(config.themes, active, draws).drawsUsed
    ensures r.diagnostic.Some? <==> |config.themes| == 0
    ensures r.diagnostic.Some? ==> r.diagnostic.value == NoThemesDiagnostic
    ensures r.exportText == "" <==> !Select(config.themes, active, draws).pick.Picked?
    ensures r.termLua.Some? <==> Select(config.themes, active, draws).pick.Picked? && config.writeTermLua
    ensures Select(config.themes, active, draws).pick.Picked? ==>
              var t := Select(config.themes, active, draws).pick.term;
              && Lookup(config.themes, t).Some?
              && r.exportText == ExportBlock(config, t, Lookup(config.themes, t).value, active.Some?)
              && (config.writeTermLua ==> r.termLua == Some(TermLuaContent(t)))
  {
    var s := Select(config.themes, active, draws);
    match s.pick
    case NoThemes => RandomizeOutcome("", None, Some(NoThemesDiagnostic), 0)
    case GaveUp => RandomizeOutcome("", None, None, s.drawsUsed)
    case Picked(t) =>
      assert Lookup(config.themes, t).Some?;
      RandomizeOutcome(Render(config, t, active.Some?), LuaWrite(config, t), None, s.drawsUsed)
  }

  /** `randomize` in the source's imperative shape: one pass of up to
      `Retries` draws that returns at the first differing draw, writing the
      reload file before the editor lines are looked up. It computes exactly `Randomize`. */
  method RandomizeLoop(config: Config, active: Option<string>, draws: seq<nat>)
    returns (exportText: string, termLua: Option<string>, diagnostic: Option<string>, used: nat)
    requires SourceCovers(draws, |config.themes|)
    ensures RandomizeOutcome(exportText, termLua, diagnostic, used) == Randomize(config, active, draws)
  {
    if |config.themes| == 0 {
      exportText, termLua, diagnostic, used := "", None, Some(NoThemesDiagnostic), 0;
    } else if active.Some? {
      exportText, termLua, used := RetryLoop(config, active.value, draws);
      diagnostic := None;
    } else {
      var chosen := Drawn(config.themes, draws, 0);
      termLua := LuaWrite(config, chosen);
      exportText := RenderLines(config, chosen, false);
      diagnostic, used := None, 1;
    }
  }

  /** The `for` loop of the active-theme branch. */
  method RetryLoop(config: Config, active: string, draws: seq<nat>)
    returns (exportText: string, termLua: Option<string>, used: nat)
    requires |config.themes| > 0 && SourceCovers(draws, |config.themes|)
    ensures var r := Randomize(config, Some(active), draws);
            exportText == r.exportText && termLua == r.termLua && used == r.drawsUsed
  {
    exportText, termLua, used := "", None, 0;
    var i := 0;
    while i < Retries
      invariant i <= Retries && used == i
      invariant exportText == "" && termLua.None?
      invariant forall j :: 0 <= j < i ==> Drawn(config.themes, draws, j) == active
    {
      var chosen := Drawn(config.themes, draws, i);
      used := used + 1;
      if chosen != active {
        termLua := LuaWrite(config, chosen);
        exportText := RenderLines(config, chosen, true);
        assert FirstDiffering(config.themes, active, draws, 0) == Some(i);
        assert Randomize(config, Some(active), draws) == RandomizeOutcome(exportText, termLua, None, used);
        return;
      }
      i := i + 1;
    }
    assert FirstDiffering(config.themes, active, draws, 0).None?;
    assert Randomize(config, Some(active), draws) == RandomizeOutcome("", None, None, Retries);
  }

  /** The export text built as the source builds it: the terminal line
      first, then, when the name has a catalog entry, the two editor lines.
      Without an entry the quoted branch keeps the terminal line and the bare
      branch discards it for the empty string. */
  method RenderLines(config: Config, chosen: string, quoteTerm: bool)
    returns (exportText: string)
    ensures exportText == Render(config, chosen, quoteTerm)
  {
    exportText := Assignment(config.termEnvVarName, chosen, quoteTerm);
    var nvim := Lookup(config.themes, chosen);
    if nvim.Some? {
      exportText := exportText + "\n" + Assignment(config.nvimThemeEnvVarName, nvim.value.nvimThemename, true);
      exportText := exportText + "\n" + Assignment(config.nvimPluginEnvVarName, PluginValue(nvim.value), true);
    } else if !quoteTerm {
      exportText := "";
    }
  }

  // ---------------------------------------------------------------- properties

  /** When a theme is picked, the export text reads back as three assignments:
      the terminal variable to the picked name, and the editor-theme and
      plugin variables to the fields of the FIRST catalog entry with that
      name, the plugin defaulting to empty. */
  lemma RandomizeExportReadsBack(config: Config, active: Option<string>, draws: seq<nat>)
    requires SourceCovers(draws, |config.themes|)
    requires Select(config.themes, active, draws).pick.Picked?
    requires var t := Select(config.themes, active, draws).pick.term;
             BlockWellFormed(config, t, Lookup(config.themes, t).value, active.Some?)
    ensures var t := Select(config.themes, active, draws).pick.term;
            var theme := Lookup(config.themes, t).value;
            ParseBlock(Randomize(config, active, draws).exportText)
              == [Some((config.termEnvVarName, t)),
                  Some((config.nvimThemeEnvVarName, theme.nvimThemename)),
                  Some((config.nvimPluginEnvVarName, PluginValue(theme)))]
  {
    var t := Select(config.themes, active, draws).pick.term;
    ExportBlockRoundTrip(config, t, Lookup(config.themes, t).value, active.Some?);
  }

  /** With an active theme, the export text is empty exactly when all
      `Retries` draws name the active theme; then nothing is written to the
      reload file and the whole budget has been spent. */
  lemma ExhaustionIffAllDrawsActive(config: Config, a: string, draws: seq<nat>)
    requires |config.themes| > 0 && SourceCovers(draws, |config.themes|)
    ensures var r := Randomize(config, Some(a), draws);
            r.exportText == "" <==> forall j :: 0 <= j < Retries ==> Drawn(config.themes, draws, j) == a
    ensures var r := Randomize(config, Some(a), draws);
            r.exportText == "" ==> r.termLua.None? && r.drawsUsed == Retries
  {
  }

  /** A one-theme catalog whose theme is active can never change theme: the
      export text is always empty, whatever the draws. */
  lemma SingletonActiveAlwaysEmpty(config: Config, draws: seq<nat>)
    requires |config.themes| == 1 && SourceCovers(draws, 1)
    ensures Randomize(config, Some(config.themes[0].term), draws)
         == RandomizeOutcome("", None, None, Retries)
  {
  }

  /** The shipped default configuration holds one theme, so once that theme
      is active every later randomization comes back empty. */
  lemma DefaultConfigStuckOnceActive(draws: seq<nat>)
    requires SourceCovers(draws, 1)
    ensures Randomize(DefaultConfig(), Some("plugin-name"), draws).exportText == ""
  {
  }

  /** The editor fields come from the first entry with the drawn name, not
      from the drawn entry: here the second entry is drawn, but the first,
      which shares its name, supplies the editor theme and the plugin. */
  lemma EditorFieldsFromFirstMatch()
    ensures var first := Theme("nord", Some("nordic"), "nordic");
            var config := DefaultConfig().(themes := [first, Theme("nord", None, "nordfox")]);
            Randomize(config, None, [1, 1, 1, 1, 1, 1, 1, 1, 1, 1]).exportText
              == ExportBlock(config, "nord", first, false)
  {
  }

  /** With no active theme one draw decides: the block carries the drawn name
      bare and the drawn entry's editor fields, and the reload file names it. */
  lemma NoActiveScenario()
    ensures var nordfox := Theme("nordfox", Some("nordic"), "nordic");
            var config := DefaultConfig().(themes := [
                nordfox, Theme("tokyonight-night", Some("tokyonight"), "tokyonight-night")]);
            Randomize(config, None, [0, 0, 0, 0, 0, 0, 0, 0, 0, 0])
              == RandomizeOutcome(ExportBlock(config, "nordfox", nordfox, false),
                                  Some(TermLuaContent("nordfox")), None, 1)
  {
  }

  /** With the active theme drawn ten times in a row the result is empty,
      nothing is written and all ten draws are spent, even though the
      catalog holds another theme. */
  lemma ActiveRepeatedScenario()
    ensures var config := DefaultConfig().(themes := [
                Theme("nordfox", Some("nordic"), "nordic"),
                Theme("tokyonight-night", Some("tokyonight"), "tokyonight-night")]);
            Randomize(config, Some("nordfox"), [0, 0, 0, 0, 0, 0, 0, 0, 0, 0])
              == RandomizeOutcome("", None, None, Retries)
  {
  }
}
