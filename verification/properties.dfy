/**
 * The properties of `State` as first-class values (`KProperty1<State, *>`),
 * together with the static tags `@AffectsCargoMetadata` and
 * `@AffectsHighlighting` that the source attaches to some of them.
 */
module Properties {
  import opened Wrappers
  import opened Decimal
  import Toolchain
  import Settings

  /** One constructor per constructor property of `State`, named after it. */
  datatype Field =
    | Version
    | ToolchainHomeDirectory
    | AutoShowErrorsInEditor
    | AutoUpdateEnabled
    | ExplicitPathToStdlib
    | ExternalLinter
    | RunExternalLinterOnTheFly
    | ExternalLinterArguments
    | CompileAllTargets
    | UseOffline
    | MacroExpansionEngine
    | DoctestInjectionEnabled

  /** The value of one property, tagged with its Kotlin type. */
  datatype Value =
    | IntValue(i: Option<Int32>)
    | PathValue(p: Option<string>)
    | BoolValue(b: bool)
    | LinterValue(l: Toolchain.ExternalLinter)
    | TextValue(t: string)
    | EngineValue(e: Settings.MacroExpansionEngine)

  /** Whether `v` has the Kotlin type of property `f`. */
  predicate Fits(f: Field, v: Value) {
    match f
    case Version => v.IntValue?
    case ToolchainHomeDirectory | ExplicitPathToStdlib => v.PathValue?
    case ExternalLinter => v.LinterValue?
    case ExternalLinterArguments => v.TextValue?
    case MacroExpansionEngine => v.EngineValue?
    case _ => v.BoolValue?
  }

  /** `prop.get(state)`. */
  function Get(s: Settings.State, f: Field): (v: Value)
    ensures Fits(f, v)
  {
    match f
    case Version => IntValue(s.version)
    case ToolchainHomeDirectory => PathValue(s.toolchainHomeDirectory)
    case AutoShowErrorsInEditor => BoolValue(s.autoShowErrorsInEditor)
    case AutoUpdateEnabled => BoolValue(s.autoUpdateEnabled)
    case ExplicitPathToStdlib => PathValue(s.explicitPathToStdlib)
    case ExternalLinter => LinterValue(s.externalLinter)
    case RunExternalLinterOnTheFly => BoolValue(s.runExternalLinterOnTheFly)
    case ExternalLinterArguments => TextValue(s.externalLinterArguments)
    case CompileAllTargets => BoolValue(s.compileAllTargets)
    case UseOffline => BoolValue(s.useOffline)
    case MacroExpansionEngine => EngineValue(s.macroExpansionEngine)
    case DoctestInjectionEnabled => BoolValue(s.doctestInjectionEnabled)
  }

  /** Assignment to one property (`prop.set(state, v)`). */
  function Set(s: Settings.State, f: Field, v: Value): Settings.State
    requires Fits(f, v)
  {
    match f
    case Version => s.(version := v.i)
    case ToolchainHomeDirectory => s.(toolchainHomeDirectory := v.p)
    case AutoShowErrorsInEditor => s.(autoShowErrorsInEditor := v.b)
    case AutoUpdateEnabled => s.(autoUpdateEnabled := v.b)
    case ExplicitPathToStdlib => s.(explicitPathToStdlib := v.p)
    case ExternalLinter => s.(externalLinter := v.l)
    case RunExternalLinterOnTheFly => s.(runExternalLinterOnTheFly := v.b)
    case ExternalLinterArguments => s.(externalLinterArguments := v.t)
    case CompileAllTargets => s.(compileAllTargets := v.b)
    case UseOffline => s.(useOffline := v.b)
    case MacroExpansionEngine => s.(macroExpansionEngine := v.e)
    case DoctestInjectionEnabled => s.(doctestInjectionEnabled := v.b)
  }

  /** After an assignment the property reads back `v`, and every other property is unchanged. */
  lemma SetThenGet(s: Settings.State, f: Field, v: Value)
    requires Fits(f, v)
    ensures Get(Set(s, f, v), f) == v
    ensures forall g :: g != f ==> Get(Set(s, f, v), g) == Get(s, g)
  {
  }

  /** Two records are equal exactly when every property reads the same in both. */
  lemma Extensionality(a: Settings.State, b: Settings.State)
    ensures (forall f :: Get(a, f) == Get(b, f)) <==> a == b
  {
    if forall f :: Get(a, f) == Get(b, f) {
      assert a.version == b.version by { assert Get(a, Version) == Get(b, Version); }
      assert a.toolchainHomeDirectory == b.toolchainHomeDirectory by { assert Get(a, ToolchainHomeDirectory) == Get(b, ToolchainHomeDirectory); }
      assert a.autoShowErrorsInEditor == b.autoShowErrorsInEditor by { assert Get(a, AutoShowErrorsInEditor) == Get(b, AutoShowErrorsInEditor); }
      assert a.autoUpdateEnabled == b.autoUpdateEnabled by { assert Get(a, AutoUpdateEnabled) == Get(b, AutoUpdateEnabled); }
      assert a.explicitPathToStdlib == b.explicitPathToStdlib by { assert Get(a, ExplicitPathToStdlib) == Get(b, ExplicitPathToStdlib); }
      assert a.externalLinter == b.externalLinter by { assert Get(a, ExternalLinter) == Get(b, ExternalLinter); }
      assert a.runExternalLinterOnTheFly == b.runExternalLinterOnTheFly by { assert Get(a, RunExternalLinterOnTheFly) == Get(b, RunExternalLinterOnTheFly); }
      assert a.externalLinterArguments == b.externalLinterArguments by { assert Get(a, ExternalLinterArguments) == Get(b, ExternalLinterArguments); }
      assert a.compileAllTargets == b.compileAllTargets by { assert Get(a, CompileAllTargets) == Get(b, CompileAllTargets); }
      assert a.useOffline == b.useOffline by { assert Get(a, UseOffline) == Get(b, UseOffline); }
      assert a.macroExpansionEngine == b.macroExpansionEngine by { assert Get(a, MacroExpansionEngine) == Get(b, MacroExpansionEngine); }
      assert a.doctestInjectionEnabled == b.doctestInjectionEnabled by { assert Get(a, DoctestInjectionEnabled) == Get(b, DoctestInjectionEnabled); }
    }
  }

  /** The annotation a property carries, if any. */
  datatype Tag = AffectsCargoMetadataTag | AffectsHighlightingTag | Untagged

  function TagOf(f: Field): Tag {
    match f
    case ToolchainHomeDirectory | ExplicitPathToStdlib => AffectsCargoMetadataTag
    case ExternalLinter | RunExternalLinterOnTheFly | ExternalLinterArguments
      | CompileAllTargets | DoctestInjectionEnabled => AffectsHighlightingTag
    case _ => Untagged
  }

  /** The twelve constructor properties of `State`, in declaration order. */
  const AllFields: seq<Field> := [
    Version, ToolchainHomeDirectory, AutoShowErrorsInEditor, AutoUpdateEnabled,
    ExplicitPathToStdlib, ExternalLinter, RunExternalLinterOnTheFly, ExternalLinterArguments,
    CompileAllTargets, UseOffline, MacroExpansionEngine, DoctestInjectionEnabled]

  lemma AllFieldsComplete()
    ensures forall f :: f in AllFields
    ensures |AllFields| == 12
  {
    forall f ensures f in AllFields {
      match f
      case Version => assert AllFields[0] == f;
      case ToolchainHomeDirectory => assert AllFields[1] == f;
      case AutoShowErrorsInEditor => assert AllFields[2] == f;
      case AutoUpdateEnabled => assert AllFields[3] == f;
      case ExplicitPathToStdlib => assert AllFields[4] == f;
      case ExternalLinter => assert AllFields[5] == f;
      case RunExternalLinterOnTheFly => assert AllFields[6] == f;
      case ExternalLinterArguments => assert AllFields[7] == f;
      case CompileAllTargets => assert AllFields[8] == f;
      case UseOffline => assert AllFields[9] == f;
      case MacroExpansionEngine => assert AllFields[10] == f;
      case DoctestInjectionEnabled => assert AllFields[11] == f;
    }
  }
}
