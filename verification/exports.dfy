/** The text the program produces for a chosen theme: the block of shell
    `export` lines printed to standard output and cached, and the Lua file
    the terminal emulator reloads. Each renderer has a decoder beside it, and
    the lemmas show that decoding recovers what was rendered. The decoders
    split text; they are not a shell or a Lua interpreter. Nothing is escaped
    on the way out, so a value holding blanks, quotes, backslashes, `$` or
    backticks reads back here but not under `eval` or Lua. */
module Exports {
  import opened Wrappers
  import opened Themes

  /** `"` + v + `"`: the double-quoted form of a value. */
  function Quote(v: string): string {
    "\"" + v + "\""
  }

  /** One shell assignment `export NAME=VALUE`, with the value double-quoted
      or bare. */
  function Assignment(name: string, value: string, quoted: bool): string {
    "export " + name + "=" + (if quoted then Quote(value) else value)
  }

  /** The plugin value written for a theme; a theme without a plugin exports
      the empty string. */
  function PluginValue(t: Theme): string {
    t.nvimPlugin.GetOr("")
  }

  /** The three-line export block for the drawn name `term` and the catalog
      entry `theme` found for it. Only the terminal line's quoting varies. */
  function ExportBlock(config: Config, term: string, theme: Theme, quoteTerm: bool): string {
    Assignment(config.termEnvVarName, term, quoteTerm)
    + "\n" + Assignment(config.nvimThemeEnvVarName, theme.nvimThemename, true)
    + "\n" + Assignment(config.nvimPluginEnvVarName, PluginValue(theme), true)
  }

  /** Content of the terminal emulator's reload file: a Lua chunk returning
      the terminal theme name as a string literal. */
  function TermLuaContent(term: string): string {
    "return \"" + term + "\""
  }

  // ---------------------------------------------------------------- decoders

  /** Position of the first `c` in `s`. */
  function IndexOf(s: string, c: char): (r: Option<nat>)
    ensures r.Some? ==> r.value < |s| && s[r.value] == c && c !in s[..r.value]
    ensures r.None? <==> c !in s
  {
    if |s| == 0 then None
    else if s[0] == c then Some(0)
    else match IndexOf(s[1..], c)
      case None => None
      case Some(k) => assert s[..k + 1] == [s[0]] + s[1..][..k]; Some(k + 1)
  }

  /** `v` is wrapped in a pair of double quotes. */
  predicate IsQuoted(v: string) {
    |v| >= 2 && v[0] == '"' && v[|v| - 1] == '"'
  }

  /** The value a quoted or bare assignment right-hand side stands for. */
  function Unquote(v: string): string {
    if IsQuoted(v) then v[1..|v| - 1] else v
  }

  /** Reads one `export NAME=VALUE` line back as its name and value; the name
      ends at the first `=`. */
  function ParseAssignment(line: string): Option<(string, string)> {
    if |line| < 7 || line[..7] != "export " then None
    else
      var body := line[7..];
      match IndexOf(body, '=')
      case None => None
      case Some(k) => Some((body[..k], Unquote(body[k + 1..])))
  }

  /** Splits text at every newline; there is always at least one line. */
  function SplitLines(s: string): (ls: seq<string>)
    ensures |ls| >= 1
    decreases |s|
  {
    if |s| == 0 then [""]
    else
      var rest := SplitLines(s[1..]);
      if s[0] == '\n' then [""] + rest
      else [[s[0]] + rest[0]] + rest[1..]
  }

  /** Reads back every line of an export block. */
  function ParseBlock(s: string): seq<Option<(string, string)>> {
    var ls := SplitLines(s);
    seq(|ls|, i requires 0 <= i < |ls| => ParseAssignment(ls[i]))
  }

  /** Reads back the reload file's Lua chunk as the name it returns. */
  function ParseTermLua(s: string): Option<string> {
    if |s| >= 9 && s[..8] == "return \"" && s[|s| - 1] == '"' then Some(s[8..|s| - 1])
    else None
  }

  // ------------------------------------------------------------- round trips

  /** A name that survives the `NAME=` syntax and stays on one line. */
  predicate SafeName(n: string) {
    '=' !in n && '\n' !in n
  }

  /** Decoding an assignment gives back its name and value: always for a
      quoted value, and for a bare value unless it already looks quoted. */
  lemma ParseAssignmentRoundTrip(name: string, value: string, quoted: bool)
    requires '=' !in name
    requires quoted || !IsQuoted(value)
    ensures ParseAssignment(Assignment(name, value, quoted)) == Some((name, value))
  {
    var line := Assignment(name, value, quoted);
    var rhs := if quoted then Quote(value) else value;
    assert line[..7] == "export ";
    var body := line[7..];
    assert body == name + "=" + rhs;
    assert body[|name|] == '=';
    assert body[..|name|] == name;
    assert IndexOf(body, '=') == Some(|name|);
    assert body[|name| + 1..] == rhs;
    if quoted {
      assert IsQuoted(rhs);
      assert rhs[1..|rhs| - 1] == value;
    }
  }

  /** Text without a newline is a single line. */
  lemma {:induction false} SplitLinesSingle(a: string)
    requires '\n' !in a
    ensures SplitLines(a) == [a]
    decreases |a|
  {
    if |a| > 0 {
      SplitLinesSingle(a[1..]);
      assert [a[0]] + a[1..] == a;
    }
  }

  /** A line without a newline, a newline, then the rest: the line comes off
      first. */
  lemma {:induction false} SplitLinesCons(a: string, b: string)
    requires '\n' !in a
    ensures SplitLines(a + "\n" + b) == [a] + SplitLines(b)
    decreases |a|
  {
    var s := a + "\n" + b;
    if |a| == 0 {
      assert s[0] == '\n' && s[1..] == b;
    } else {
      assert s[0] == a[0];
      assert s[1..] == a[1..] + "\n" + b;
      SplitLinesCons(a[1..], b);
      assert [a[0]] + a[1..] == a;
    }
  }

  /** Every line of a block renders on one line when no name or value holds a
      newline, and the bare terminal value does not already look quoted. */
  predicate BlockWellFormed(config: Config, term: string, theme: Theme, quoteTerm: bool) {
    && SafeName(config.termEnvVarName)
    && SafeName(config.nvimThemeEnvVarName)
    && SafeName(config.nvimPluginEnvVarName)
    && '\n' !in term && '\n' !in theme.nvimThemename && '\n' !in PluginValue(theme)
    && (quoteTerm || !IsQuoted(term))
  }

  /** An assignment of a one-line name and value is one line. */
  lemma AssignmentOneLine(name: string, value: string, quoted: bool)
    requires '\n' !in name && '\n' !in value
    ensures '\n' !in Assignment(name, value, quoted)
  {
  }

  /** Three one-line texts joined by newlines split back into those three. */
  lemma SplitThreeLines(l1: string, l2: string, l3: string)
    requires '\n' !in l1 && '\n' !in l2 && '\n' !in l3
    ensures SplitLines(l1 + "\n" + l2 + "\n" + l3) == [l1, l2, l3]
  {
    assert l1 + "\n" + l2 + "\n" + l3 == l1 + "\n" + (l2 + "\n" + l3);
    SplitLinesCons(l1, l2 + "\n" + l3);
    SplitLinesCons(l2, l3);
    SplitLinesSingle(l3);
  }

  /** The export block reads back, line by line and in order, as the terminal
      variable set to the drawn name, the editor-theme variable set to the
      entry's colour scheme and the plugin variable set to its plugin (or
      empty). */
  lemma ExportBlockRoundTrip(config: Config, term: string, theme: Theme, quoteTerm: bool)
    requires BlockWellFormed(config, term, theme, quoteTerm)
    ensures ParseBlock(ExportBlock(config, term, theme, quoteTerm))
         == [Some((config.termEnvVarName, term)),
             Some((config.nvimThemeEnvVarName, theme.nvimThemename)),
             Some((config.nvimPluginEnvVarName, PluginValue(theme)))]
  {
    var l1 := Assignment(config.termEnvVarName, term, quoteTerm);
    var l2 := Assignment(config.nvimThemeEnvVarName, theme.nvimThemename, true);
    var l3 := Assignment(config.nvimPluginEnvVarName, PluginValue(theme), true);
    AssignmentOneLine(config.termEnvVarName, term, quoteTerm);
    AssignmentOneLine(config.nvimThemeEnvVarName, theme.nvimThemename, true);
    AssignmentOneLine(config.nvimPluginEnvVarName, PluginValue(theme), true);
    SplitThreeLines(l1, l2, l3);
    ParseAssignmentRoundTrip(config.termEnvVarName, term, quoteTerm);
    ParseAssignmentRoundTrip(config.nvimThemeEnvVarName, theme.nvimThemename, true);
    ParseAssignmentRoundTrip(config.nvimPluginEnvVarName, PluginValue(theme), true);
  }

  /** The reload file gives back exactly the name it was written for. */
  lemma TermLuaRoundTrip(term: string)
    ensures ParseTermLua(TermLuaContent(term)) == Some(term)
  {
  }
}
