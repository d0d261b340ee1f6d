/**
 * The project-level Rust settings record (`RustProjectSettingsService.State`)
 * and the small rules around it: its declared defaults, the default macro
 * expansion engine, the derived `toolchain` property and `Project.toolchain`.
 *
 * The record is immutable here; a Kotlin assignment to a field becomes a
 * function returning the updated record.
 */
module Settings {
  import opened Wrappers
  import opened Decimal
  import opened Toolchain

  datatype MacroExpansionEngine = Disabled | Old | New

  datatype State = State(
    version: Option<Int32>,
    toolchainHomeDirectory: Option<string>,
    autoShowErrorsInEditor: bool,
    autoUpdateEnabled: bool,
    /** A stdlib location given by hand, for setups without rustup. */
    explicitPathToStdlib: Option<string>,
    externalLinter: ExternalLinter,
    runExternalLinterOnTheFly: bool,
    externalLinterArguments: string,
    compileAllTargets: bool,
    useOffline: bool,
    macroExpansionEngine: MacroExpansionEngine,
    doctestInjectionEnabled: bool)

  /**
   * `defaultMacroExpansionEngine`. The experiment flag `MACROS_NEW_ENGINE`
   * is read from the host, so it is a parameter here.
   */
  function DefaultMacroExpansionEngine(newEngine: bool): (e: MacroExpansionEngine)
    ensures e != Disabled
    ensures e == New <==> newEngine
    ensures e == Old <==> !newEngine
  {
    if newEngine then New else Old
  }

  /** `State()`: every field at its declared default. */
  function DefaultState(newEngine: bool): (d: State)
    ensures d.version.None? && d.toolchainHomeDirectory.None? && d.explicitPathToStdlib.None?
    ensures d.autoShowErrorsInEditor && d.autoUpdateEnabled && d.compileAllTargets && d.doctestInjectionEnabled
    ensures !d.runExternalLinterOnTheFly && !d.useOffline
    ensures d.externalLinter == CargoCheck && d.externalLinterArguments == ""
    ensures d.macroExpansionEngine == DefaultMacroExpansionEngine(newEngine)
  {
    State(
      version := None,
      toolchainHomeDirectory := None,
      autoShowErrorsInEditor := true,
      autoUpdateEnabled := true,
      explicitPathToStdlib := None,
      externalLinter := DefaultExternalLinter,
      runExternalLinterOnTheFly := false,
      externalLinterArguments := "",
      compileAllTargets := true,
      useOffline := false,
      macroExpansionEngine := DefaultMacroExpansionEngine(newEngine),
      doctestInjectionEnabled := true)
  }

  /** The getter of `State.toolchain`: the stored directory, resolved by the provider. */
  function ToolchainOf(s: State, provider: ToolchainProvider): (t: Option<RsToolchain>)
    ensures s.toolchainHomeDirectory.None? ==> t.None?
    ensures s.toolchainHomeDirectory.Some? ==> t == provider(s.toolchainHomeDirectory.value)
  {
    match s.toolchainHomeDirectory
    case None => None
    case Some(home) => provider(home)
  }

  /**
   * The setter of `State.toolchain`: it writes the toolchain's location and
   * nothing else. `separator` is the host's file separator.
   */
  function WithToolchain(s: State, t: Option<RsToolchain>, separator: char): (r: State)
    ensures t.None? ==> r.toolchainHomeDirectory.None?
    ensures t.Some? ==> r.toolchainHomeDirectory == Some(SystemIndependentPath(t.value.location, separator))
    ensures r.(toolchainHomeDirectory := s.toolchainHomeDirectory) == s
  {
    s.(toolchainHomeDirectory :=
      match t case None => None case Some(tc) => Some(SystemIndependentPath(tc.location, separator)))
  }

  /**
   * Setting a toolchain and reading it back gives it again, provided the
   * provider recognises the directory the setter stored; clearing it reads back as none.
   */
  lemma ToolchainSetGet(s: State, t: Option<RsToolchain>, separator: char, provider: ToolchainProvider)
    requires t.Some? ==> provider(SystemIndependentPath(t.value.location, separator)) == t
    ensures ToolchainOf(WithToolchain(s, t, separator), provider) == t
  {
  }

  /**
   * `Project.toolchain`: the settings toolchain when there is one; otherwise,
   * in unit-test mode only, the suggested toolchain (`RsToolchainBase.suggest()`).
   */
  function ProjectToolchain(settingsToolchain: Option<RsToolchain>, isUnitTestMode: bool,
                            suggested: Option<RsToolchain>): (t: Option<RsToolchain>)
    ensures settingsToolchain.Some? ==> t == settingsToolchain
    ensures settingsToolchain.None? && isUnitTestMode ==> t == suggested
    ensures !isUnitTestMode ==> t == settingsToolchain
    ensures t.Some? ==> t == settingsToolchain || (isUnitTestMode && t == suggested)
  {
    if settingsToolchain.Some? then settingsToolchain
    else if isUnitTestMode then suggested
    else None
  }

  /**
   * `Project.toolchain` over the settings getter: outside unit-test mode there
   * is none exactly when no home directory is stored or the registry does not
   * recognise it; in unit-test mode a suggested toolchain fills that gap.
   */
  lemma ProjectToolchainOfSettings(s: State, provider: ToolchainProvider, isUnitTestMode: bool,
                                   suggested: Option<RsToolchain>)
    ensures !isUnitTestMode ==>
      (ProjectToolchain(ToolchainOf(s, provider), isUnitTestMode, suggested).None? <==>
       (s.toolchainHomeDirectory.None? || provider(s.toolchainHomeDirectory.value).None?))
    ensures isUnitTestMode && suggested.Some? ==> ProjectToolchain(ToolchainOf(s, provider), isUnitTestMode, suggested).Some?
  {
  }

  /**
   * After the settings toolchain is assigned, the project toolchain is that
   * toolchain in either mode, provided the registry recognises the stored directory.
   */
  lemma ProjectToolchainAfterSet(s: State, t: RsToolchain, separator: char, provider: ToolchainProvider,
                                 isUnitTestMode: bool, suggested: Option<RsToolchain>)
    requires provider(SystemIndependentPath(t.location, separator)) == Some(t)
    ensures ProjectToolchain(ToolchainOf(WithToolchain(s, Some(t), separator), provider), isUnitTestMode, suggested) == Some(t)
  {
    ToolchainSetGet(s, Some(t), separator, provider);
  }
}
