/** The program's entry points as transitions of an abstract store: the
    files it reads and writes (keyed by their configured, unexpanded paths),
    the instant of the last randomization and the text printed to standard
    output. The environment, clock and generator are passed in. */
module Themester {
  import opened Wrappers
  import opened Themes
  import opened Exports
  import opened Selector
  import opened Randomizer
  import opened RerollGate

  /** Everything the program touches between invocations, plus its output.
      The last-randomization instant, which the source keeps in a local-data
      file of its own, is a separate field and never aliases a configured
      path. */
  datatype Store = Store(
    files: map<string, string>,
    lastRandomized: Option<Timestamp>,
    stdout: string)

  /** What one invocation observes: the active terminal theme (the value of
      the configured environment variable, if set), the generator's draws and
      the current instant. */
  datatype Env = Env(activeTerm: Option<string>, draws: seq<nat>, now: Timestamp)

  /** An invocation either finishes with a new store or panics with a
      message. */
  datatype Run = Finished(store: Store) | Panicked(message: string)

  /** The panic message when the cache cannot be read. The source's `expect`
      also appends the I/O error after a colon; that error is not modelled. */
  const CacheReadError: string := "echo \"Could not read cache file!\""

  /** The last randomization, defaulting to the epoch when none was recorded. */
  function LastRandomized(s: Store): Timestamp {
    s.lastRandomized.GetOr(0)
  }

  /** `println!`: the line and a newline. */
  function Println(out: string, line: string): string {
    out + line + "\n"
  }

  /** `randomize_theme`: pick and render, write the reload file when
      enabled, overwrite the cache with the export text (even when it is
      empty), record the instant and print the export text. */
  function RandomizeTheme(config: Config, env: Env, store: Store): (s: Store)
    requires SourceCovers(env.draws, |config.themes|)
    ensures var r := Randomize(config, env.activeTerm, env.draws);
            && config.cacheFileLocation in s.files
            && s.files[config.cacheFileLocation] == r.exportText
            && s.lastRandomized == Some(env.now)
            && s.stdout == Println(if |config.themes| == 0 then Println(store.stdout, NoThemesDiagnostic)
                                   else store.stdout,
                                   r.exportText)
    ensures var r := Randomize(config, env.activeTerm, env.draws);
            r.termLua.Some? && config.termLuaPath != config.cacheFileLocation ==>
              config.termLuaPath in s.files && s.files[config.termLuaPath] == r.termLua.value
    ensures var r := Randomize(config, env.activeTerm, env.draws);
            forall p :: p in s.files <==>
              p in store.files || p == config.cacheFileLocation || (r.termLua.Some? && p == config.termLuaPath)
    ensures var r := Randomize(config, env.activeTerm, env.draws);
            forall p :: (p in store.files && p != config.cacheFileLocation
                         && !(r.termLua.Some? && p == config.termLuaPath)) ==> s.files[p] == store.files[p]
  {
    var r := Randomize(config, env.activeTerm, env.draws);
    var out := match r.diagnostic case Some(d) => Println(store.stdout, d) case None => store.stdout;
    var files := if r.termLua.Some? then store.files[config.termLuaPath := r.termLua.value] else store.files;
    Store(files[config.cacheFileLocation := r.exportText], Some(env.now), Println(out, r.exportText))
  }

  /** `load_cache`: randomize when the gate is open, otherwise print the
      cached text as it is and change nothing else. A missing cache file
      panics. */
  function LoadCache(config: Config, env: Env, store: Store): (r: Run)
    requires GateDefined(config.hoursPerRandomization)
    requires SourceCovers(env.draws, |config.themes|)
    ensures ShouldReroll(config.hoursPerRandomization, LastRandomized(store), env.now) ==>
              r == Finished(RandomizeTheme(config, env, store))
    ensures !ShouldReroll(config.hoursPerRandomization, LastRandomized(store), env.now) ==>
              if config.cacheFileLocation in store.files
              then r.Finished?
                   && r.store.files == store.files
                   && r.store.lastRandomized == store.lastRandomized
                   && r.store.stdout == Println(store.stdout, store.files[config.cacheFileLocation])
              else r == Panicked(CacheReadError)
  {
    if ShouldReroll(config.hoursPerRandomization, LastRandomized(store), env.now) then
      Finished(RandomizeTheme(config, env, store))
    else if config.cacheFileLocation in store.files then
      Finished(store.(stdout := Println(store.stdout, store.files[config.cacheFileLocation])))
    else
      Panicked(CacheReadError)
  }

  // ------------------------------------------------------------ dispatching

  /** The operation the first argument selects. */
  datatype Command = MissingArgument | ShowHelp | RandomizeCmd | LoadCmd | ShowVersion

  /** The panic message when no argument is given. */
  const MissingArgumentMessage: string := "Not enough arguments! Try -h for help."

  /** The usage text. */
  const HelpText: string :=
    "Arguments:\n\t-h for help (this)\n\teval $(themester -r) to randomize your theme"
    + "\n\teval $(themester -l) in your .zshrc to load the last session's theme environment variables"

  /** The version line for the crate version `version`. */
  function VersionText(version: string): string {
    "themester.zsh version " + version + " by Jack Hamilton"
  }

  /** `main`'s match on the first argument after the program name; anything
      unrecognised shows the help. */
  function Dispatch(args: seq<string>): (c: Command)
    ensures c == MissingArgument <==> |args| < 2
    ensures |args| >= 2 && args[1] !in {"-r", "-l", "-v"} ==> c == ShowHelp
  {
    if |args| < 2 then MissingArgument
    else match args[1]
      case "-h" => ShowHelp
      case "-r" => RandomizeCmd
      case "-l" => LoadCmd
      case "-v" => ShowVersion
      case _ => ShowHelp
  }

  /** The flag that selects each operation. */
  function Flag(c: Command): string
    requires c != MissingArgument
  {
    match c
    case ShowHelp => "-h"
    case RandomizeCmd => "-r"
    case LoadCmd => "-l"
    case ShowVersion => "-v"
  }

  /** Each operation's flag selects it, and arguments after the first are
      ignored. */
  lemma DispatchFlagRoundTrip(c: Command, program: string, rest: seq<string>)
    requires c != MissingArgument
    ensures Dispatch([program, Flag(c)] + rest) == c
  {
  }

  /** One invocation of the program with argument list `args`. */
  function Execute(args: seq<string>, version: string, config: Config, env: Env, store: Store): (r: Run)
    requires Dispatch(args) == LoadCmd ==> GateDefined(config.hoursPerRandomization)
    requires SourceCovers(env.draws, |config.themes|)
    ensures r.Panicked? <==>
              Dispatch(args) == MissingArgument
              || (Dispatch(args) == LoadCmd && LoadCache(config, env, store).Panicked?)
    ensures Dispatch(args) == RandomizeCmd ==> r == Finished(RandomizeTheme(config, env, store))
    ensures Dispatch(args) == LoadCmd ==> r == LoadCache(config, env, store)
    ensures Dispatch(args) == ShowHelp ==>
              r == Finished(store.(stdout := Println(store.stdout, HelpText)))
    ensures Dispatch(args) == ShowVersion ==>
              r == Finished(store.(stdout := Println(store.stdout, VersionText(version))))
  {
    match Dispatch(args)
    case MissingArgument => Panicked(MissingArgumentMessage)
    case ShowHelp => Finished(store.(stdout := Println(store.stdout, HelpText)))
    case ShowVersion => Finished(store.(stdout := Println(store.stdout, VersionText(version))))
    case RandomizeCmd => Finished(RandomizeTheme(config, env, store))
    case LoadCmd => LoadCache(config, env, store)
  }

  // ------------------------------------------------------------- properties

  /** Running the program with `-r` or `-l` performs that operation, whatever
      arguments follow. */
  lemma ExecuteFlagRuns(program: string, rest: seq<string>, version: string, config: Config, env: Env, store: Store)
    requires GateDefined(config.hoursPerRandomization)
    requires SourceCovers(env.draws, |config.themes|)
    ensures Execute([program, "-r"] + rest, version, config, env, store)
         == Finished(RandomizeTheme(config, env, store))
    ensures Execute([program, "-l"] + rest, version, config, env, store)
         == LoadCache(config, env, store)
  {
  }

  /** A load that does not reroll replays exactly the text the previous
      randomization printed (without its diagnostic), and leaves the files
      and the recorded instant as that randomization left them. */
  lemma ReplayAfterRandomize(config: Config, env: Env, store: Store, later: Env)
    requires GateDefined(config.hoursPerRandomization)
    requires SourceCovers(env.draws, |config.themes|) && SourceCovers(later.draws, |config.themes|)
    requires !ShouldReroll(config.hoursPerRandomization, env.now, later.now)
    ensures var s := RandomizeTheme(config, env, store);
            LoadCache(config, later, s)
              == Finished(s.(stdout := Println(s.stdout, Randomize(config, env.activeTerm, env.draws).exportText)))
  {
  }

  /** A load right after a randomization, with the clock not moved, never
      rerolls, whatever the interval. */
  lemma NoRerollAtSameInstant(config: Config, env: Env, store: Store)
    requires GateDefined(config.hoursPerRandomization)
    requires SourceCovers(env.draws, |config.themes|)
    ensures !ShouldReroll(config.hoursPerRandomization, LastRandomized(RandomizeTheme(config, env, store)), env.now)
  {
  }

  /** A load with the interval elapsed rerolls: the cache is overwritten with
      fresh export text and the instant is stamped. */
  lemma LoadRerollsWhenStale(config: Config, env: Env, store: Store)
    requires GateDefined(config.hoursPerRandomization)
    requires SourceCovers(env.draws, |config.themes|)
    requires config.hoursPerRandomization > 0
    requires LastRandomized(store) + config.hoursPerRandomization * 3600 < env.now
    ensures var r := LoadCache(config, env, store);
            && r.Finished?
            && r.store.lastRandomized == Some(env.now)
            && r.store.files[config.cacheFileLocation] == Randomize(config, env.activeTerm, env.draws).exportText
  {
  }

  /** With the scheduled reroll switched off, a load only replays the cache
      (or panics without it), whatever the age of the last randomization. */
  lemma LoadDisabledOnlyReplays(config: Config, env: Env, store: Store)
    requires config.hoursPerRandomization <= 0
    requires SourceCovers(env.draws, |config.themes|)
    ensures var r := LoadCache(config, env, store);
            config.cacheFileLocation in store.files ==>
              r == Finished(store.(stdout := Println(store.stdout, store.files[config.cacheFileLocation])))
    ensures config.cacheFileLocation !in store.files ==> LoadCache(config, env, store) == Panicked(CacheReadError)
  {
  }

  /** An empty catalog still overwrites the cache with empty text and stamps
      the instant, after printing the diagnostic. */
  lemma EmptyCatalogStillStamps(config: Config, env: Env, store: Store)
    requires |config.themes| == 0
    ensures var s := RandomizeTheme(config, env, store);
            && s.files[config.cacheFileLocation] == ""
            && s.lastRandomized == Some(env.now)
            && s.stdout == Println(Println(store.stdout, NoThemesDiagnostic), "")
  {
  }
}
