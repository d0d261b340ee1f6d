/**
 * The two documents of the settings service test, as lemmas: a fully
 * populated version-2 document survives loading and writing unchanged, and
 * a version-1 document is upgraded and written in the current form.
 */
module ServiceTest {
  import opened Wrappers
  import Toolchain
  import opened Settings
  import opened Lexicographic
  import opened Properties
  import opened Persistence
  import opened Migration

  /** The document of `test serialization`. */
  const CurrentDocument: Document := [
    XmlOption("autoUpdateEnabled", "false"),
    XmlOption("compileAllTargets", "false"),
    XmlOption("doctestInjectionEnabled", "false"),
    XmlOption("explicitPathToStdlib", "/stdlib"),
    XmlOption("externalLinter", "Clippy"),
    XmlOption("externalLinterArguments", "--no-default-features"),
    XmlOption("macroExpansionEngine", "DISABLED"),
    XmlOption("runExternalLinterOnTheFly", "true"),
    XmlOption("toolchainHomeDirectory", "/"),
    XmlOption("useOffline", "true"),
    XmlOption("version", "2")]

  /** The record the accessors of `test serialization` expect. */
  const CurrentState: State := State(
    version := Some(2),
    toolchainHomeDirectory := Some("/"),
    autoShowErrorsInEditor := true,
    autoUpdateEnabled := false,
    explicitPathToStdlib := Some("/stdlib"),
    externalLinter := Toolchain.Clippy,
    runExternalLinterOnTheFly := true,
    externalLinterArguments := "--no-default-features",
    compileAllTargets := false,
    useOffline := true,
    macroExpansionEngine := Disabled,
    doctestInjectionEnabled := false)

  /** The option names of the test document are those of every property but `autoShowErrorsInEditor`, in order. */
  lemma CurrentDocumentAscending()
    ensures StrictlyAscending(OptionNames(CurrentDocument))
  {
    FieldsByNameAscending();
    var ns := FieldNames(FieldsByName);
    assert OptionNames(CurrentDocument) == ns[1..];
  }

  /** The option `o` is what writing `s` emits for its non-default property `f`. */
  predicate WrittenAs(s: State, newEngine: bool, f: Field, o: XmlOption) {
    !IsDefault(s, f, newEngine) && o == OptionFor(s, f)
  }

  // The eleven options of the test document are matched to their properties in
  // four groups, only to keep each proof obligation small.

  lemma CurrentFlagOptions(newEngine: bool)
    ensures WrittenAs(CurrentState, newEngine, AutoUpdateEnabled, CurrentDocument[0])
    ensures WrittenAs(CurrentState, newEngine, CompileAllTargets, CurrentDocument[1])
    ensures WrittenAs(CurrentState, newEngine, DoctestInjectionEnabled, CurrentDocument[2])
  {
  }

  lemma CurrentTextOptions(newEngine: bool)
    ensures WrittenAs(CurrentState, newEngine, ExplicitPathToStdlib, CurrentDocument[3])
    ensures WrittenAs(CurrentState, newEngine, ExternalLinterArguments, CurrentDocument[5])
  {
  }

  lemma CurrentEnumOptions(newEngine: bool)
    ensures WrittenAs(CurrentState, newEngine, ExternalLinter, CurrentDocument[4])
    ensures WrittenAs(CurrentState, newEngine, MacroExpansionEngine, CurrentDocument[6])
  {
  }

  lemma CurrentOtherOptions(newEngine: bool)
    ensures WrittenAs(CurrentState, newEngine, RunExternalLinterOnTheFly, CurrentDocument[7])
    ensures WrittenAs(CurrentState, newEngine, ToolchainHomeDirectory, CurrentDocument[8])
    ensures WrittenAs(CurrentState, newEngine, UseOffline, CurrentDocument[9])
    ensures WrittenAs(CurrentState, newEngine, Version, CurrentDocument[10])
  {
  }

  /** Each option of the test document is the written form of a property that differs from its default. */
  lemma CurrentDocumentOptions(newEngine: bool)
    ensures forall o :: o in CurrentDocument ==>
      exists f :: !IsDefault(CurrentState, f, newEngine) && o == OptionFor(CurrentState, f)
  {
    var s, doc := CurrentState, CurrentDocument;
    CurrentFlagOptions(newEngine);
    CurrentTextOptions(newEngine);
    CurrentEnumOptions(newEngine);
    CurrentOtherOptions(newEngine);
    forall o | o in doc ensures exists f :: !IsDefault(s, f, newEngine) && o == OptionFor(s, f) {
      if o == doc[0] { assert WrittenAs(s, newEngine, AutoUpdateEnabled, o); }
      else if o == doc[1] { assert WrittenAs(s, newEngine, CompileAllTargets, o); }
      else if o == doc[2] { assert WrittenAs(s, newEngine, DoctestInjectionEnabled, o); }
      else if o == doc[3] { assert WrittenAs(s, newEngine, ExplicitPathToStdlib, o); }
      else if o == doc[4] { assert WrittenAs(s, newEngine, ExternalLinter, o); }
      else if o == doc[5] { assert WrittenAs(s, newEngine, ExternalLinterArguments, o); }
      else if o == doc[6] { assert WrittenAs(s, newEngine, MacroExpansionEngine, o); }
      else if o == doc[7] { assert WrittenAs(s, newEngine, RunExternalLinterOnTheFly, o); }
      else if o == doc[8] { assert WrittenAs(s, newEngine, ToolchainHomeDirectory, o); }
      else if o == doc[9] { assert WrittenAs(s, newEngine, UseOffline, o); }
      else { assert WrittenAs(s, newEngine, Version, o); }
    }
  }

  /** Every property of the expected record that differs from its default is in the test document. */
  lemma CurrentDocumentComplete(newEngine: bool)
    ensures forall f :: !IsDefault(CurrentState, f, newEngine) ==> OptionFor(CurrentState, f) in CurrentDocument
  {
    var s, doc := CurrentState, CurrentDocument;
    forall f | !IsDefault(s, f, newEngine) ensures OptionFor(s, f) in doc {
      match f
      case AutoShowErrorsInEditor =>
      case AutoUpdateEnabled => assert doc[0] == OptionFor(s, f);
      case CompileAllTargets => assert doc[1] == OptionFor(s, f);
      case DoctestInjectionEnabled => assert doc[2] == OptionFor(s, f);
      case ExplicitPathToStdlib => assert doc[3] == OptionFor(s, f);
      case ExternalLinter => assert doc[4] == OptionFor(s, f);
      case ExternalLinterArguments => assert doc[5] == OptionFor(s, f);
      case MacroExpansionEngine => assert doc[6] == OptionFor(s, f);
      case RunExternalLinterOnTheFly => assert doc[7] == OptionFor(s, f);
      case ToolchainHomeDirectory => assert doc[8] == OptionFor(s, f);
      case UseOffline => assert doc[9] == OptionFor(s, f);
      case Version => assert doc[10] == OptionFor(s, f);
    }
  }

  /** Writing the expected record gives the test document. */
  lemma CurrentStateWritesCurrentDocument(newEngine: bool)
    ensures Serialize(CurrentState, newEngine) == CurrentDocument
  {
    CurrentDocumentAscending();
    CurrentDocumentOptions(newEngine);
    CurrentDocumentComplete(newEngine);
    SerializeDeterminedByContract(CurrentState, newEngine, CurrentDocument);
  }

  /** `test serialization`: the accessors read the loaded values and writing reproduces the document. */
  lemma SerializationTest(newEngine: bool, provider: Toolchain.ToolchainProvider)
    ensures LoadState(CurrentDocument, newEngine) == CurrentState
    ensures Serialize(LoadState(CurrentDocument, newEngine), newEngine) == CurrentDocument
    ensures LoadState(CurrentDocument, newEngine).version == Some(RustXmlFormatVersion)
    ensures ToolchainOf(LoadState(CurrentDocument, newEngine), provider) == provider("/")
  {
    CurrentStateWritesCurrentDocument(newEngine);
    LoadSerializeRoundTrip(CurrentState, newEngine);
  }

  /** The document of `test update from version 1`. */
  const Version1Document: Document := [
    XmlOption("autoUpdateEnabled", "true"),
    XmlOption("compileAllTargets", "false"),
    XmlOption("useCargoCheckAnnotator", "true"),
    XmlOption("expandMacros", "false")]

  /** What `test update from version 1` expects to be written after loading it. */
  const UpgradedDocument: Document := [
    XmlOption("compileAllTargets", "false"),
    XmlOption("macroExpansionEngine", "DISABLED"),
    XmlOption("runExternalLinterOnTheFly", "true"),
    XmlOption("version", "2")]

  /** The upgraded form of the version-1 document, before it is read. */
  const MigratedVersion1Document: Document := [
    XmlOption("autoUpdateEnabled", "true"),
    XmlOption("compileAllTargets", "false"),
    XmlOption("runExternalLinterOnTheFly", "true"),
    XmlOption("macroExpansionEngine", "DISABLED"),
    XmlOption("version", "2")]

  /** The record the version-1 document loads as, whichever engine is the default. */
  const Version1State: State := State(
    version := Some(2),
    toolchainHomeDirectory := None,
    autoShowErrorsInEditor := true,
    autoUpdateEnabled := true,
    explicitPathToStdlib := None,
    externalLinter := Toolchain.CargoCheck,
    runExternalLinterOnTheFly := true,
    externalLinterArguments := "",
    compileAllTargets := false,
    useOffline := false,
    macroExpansionEngine := Disabled,
    doctestInjectionEnabled := true)

  /** A two-option document each of whose options upgrades to one option. */
  lemma UpgradeTwoOptions(doc: Document, a: XmlOption, b: XmlOption)
    requires |doc| == 2 && UpgradeOption(doc[0]) == [a] && UpgradeOption(doc[1]) == [b]
    ensures UpgradeOptions(doc) == [a, b]
  {
    assert UpgradeOptions(doc[..0]) == [];
    UpgradeOptionsStep(doc, 0, []);
    UpgradeOptionsStep(doc, 1, [a]);
    assert doc[..2] == doc;
  }

  /** A four-option document each of whose options upgrades to one option. */
  lemma UpgradeFourOptions(doc: Document, a: XmlOption, b: XmlOption, c: XmlOption, d: XmlOption)
    requires |doc| == 4
    requires UpgradeOption(doc[0]) == [a] && UpgradeOption(doc[1]) == [b]
    requires UpgradeOption(doc[2]) == [c] && UpgradeOption(doc[3]) == [d]
    ensures UpgradeOptions(doc) == [a, b, c, d]
  {
    var front, back := doc[..2], doc[2..];
    UpgradeTwoOptions(front, a, b);
    UpgradeTwoOptions(back, c, d);
    assert front + back == doc;
    UpgradeOptionsAppend(front, back);
  }

  /** Options of other properties are kept, and the two legacy options are translated. */
  lemma Version1OptionUpgrades()
    ensures UpgradeOption(XmlOption("autoUpdateEnabled", "true")) == [XmlOption("autoUpdateEnabled", "true")]
    ensures UpgradeOption(XmlOption("compileAllTargets", "false")) == [XmlOption("compileAllTargets", "false")]
    ensures UpgradeOption(XmlOption("useCargoCheckAnnotator", "true")) == [XmlOption("runExternalLinterOnTheFly", "true")]
    ensures UpgradeOption(XmlOption("expandMacros", "false")) == [XmlOption("macroExpansionEngine", "DISABLED")]
  {
    assert "autoUpdateEnabled" != LegacyLinterKey && "autoUpdateEnabled" != LegacyMacrosKey;
    assert "compileAllTargets" != LegacyLinterKey && "compileAllTargets" != LegacyMacrosKey;
    assert "expandMacros" != LegacyLinterKey;
  }

  lemma Version1Migrated()
    ensures Migrate(Version1Document) == MigratedVersion1Document
  {
    var doc := Version1Document;
    assert forall o :: o in doc ==> o.name != Name(Properties.Version);
    LastReadableAbsent(doc, Properties.Version);
    assert DocumentVersion(doc) == 1;
    Version1OptionUpgrades();
    var m := MigratedVersion1Document;
    UpgradeFourOptions(doc, m[0], m[1], m[2], m[3]);
  }

  /** Reading the first three upgraded options into any record. */
  lemma ReadUpgradedFlags(doc: Document, d: State)
    requires |doc| == 5
    requires doc[0] == XmlOption("autoUpdateEnabled", "true")
    requires doc[1] == XmlOption("compileAllTargets", "false")
    requires doc[2] == XmlOption("runExternalLinterOnTheFly", "true")
    ensures DeserializeInto(d, doc[..3]) == d.(autoUpdateEnabled := true, compileAllTargets := false, runExternalLinterOnTheFly := true)
  {
    var s1 := Set(d, Properties.AutoUpdateEnabled, Properties.BoolValue(true));
    var s2 := Set(s1, Properties.CompileAllTargets, Properties.BoolValue(false));
    assert DeserializeInto(d, doc[..0]) == d;
    DeserializeIntoPropertyStep(d, doc, 0, d, Properties.AutoUpdateEnabled, "true");
    DeserializeIntoPropertyStep(d, doc, 1, s1, Properties.CompileAllTargets, "false");
    DeserializeIntoPropertyStep(d, doc, 2, s2, Properties.RunExternalLinterOnTheFly, "true");
  }

  /** Reading the upgraded options one by one into any record. */
  lemma ReadUpgradedOptions(doc: Document, d: State)
    requires |doc| == 5
    requires doc[0] == XmlOption("autoUpdateEnabled", "true")
    requires doc[1] == XmlOption("compileAllTargets", "false")
    requires doc[2] == XmlOption("runExternalLinterOnTheFly", "true")
    requires doc[3] == XmlOption("macroExpansionEngine", "DISABLED")
    requires doc[4] == XmlOption("version", "2")
    ensures DeserializeInto(d, doc) == d.(autoUpdateEnabled := true, compileAllTargets := false,
      runExternalLinterOnTheFly := true, macroExpansionEngine := Disabled, version := Some(2))
  {
    ReadUpgradedFlags(doc, d);
    var s3 := d.(autoUpdateEnabled := true, compileAllTargets := false, runExternalLinterOnTheFly := true);
    var s4 := Set(s3, Properties.MacroExpansionEngine, Properties.EngineValue(Disabled));
    DeserializeIntoPropertyStep(d, doc, 3, s3, Properties.MacroExpansionEngine, "DISABLED");
    DeserializeIntoPropertyStep(d, doc, 4, s4, Properties.Version, "2");
    assert doc[..5] == doc;
  }

  lemma Version1Read(newEngine: bool)
    ensures Deserialize(MigratedVersion1Document, newEngine) == Version1State
  {
    ReadUpgradedOptions(MigratedVersion1Document, DefaultState(newEngine));
  }

  lemma UpgradedDocumentAscending()
    ensures StrictlyAscending(OptionNames(UpgradedDocument))
  {
    var ns := OptionNames(UpgradedDocument);
    LessAt(ns[0], ns[1], 0);
    LessAt(ns[1], ns[2], 0);
    LessAt(ns[2], ns[3], 0);
    AdjacentAscending(ns);
  }

  lemma UpgradedDocumentOptions(newEngine: bool)
    ensures forall o :: o in UpgradedDocument ==>
      exists f :: !IsDefault(Version1State, f, newEngine) && o == OptionFor(Version1State, f)
  {
    var s, doc := Version1State, UpgradedDocument;
    forall i | 0 <= i < |doc|
      ensures exists f :: !IsDefault(s, f, newEngine) && doc[i] == OptionFor(s, f)
    {
      if i == 0 { assert !IsDefault(s, CompileAllTargets, newEngine) && doc[i] == OptionFor(s, CompileAllTargets); }
      else if i == 1 { assert !IsDefault(s, MacroExpansionEngine, newEngine) && doc[i] == OptionFor(s, MacroExpansionEngine); }
      else if i == 2 { assert !IsDefault(s, RunExternalLinterOnTheFly, newEngine) && doc[i] == OptionFor(s, RunExternalLinterOnTheFly); }
      else { assert !IsDefault(s, Properties.Version, newEngine) && doc[i] == OptionFor(s, Properties.Version); }
    }
  }

  lemma UpgradedDocumentComplete(newEngine: bool)
    ensures forall f :: !IsDefault(Version1State, f, newEngine) ==> OptionFor(Version1State, f) in UpgradedDocument
  {
    var s, doc := Version1State, UpgradedDocument;
    forall f | !IsDefault(s, f, newEngine) ensures OptionFor(s, f) in doc {
      match f
      case CompileAllTargets => assert doc[0] == OptionFor(s, f);
      case MacroExpansionEngine => assert doc[1] == OptionFor(s, f);
      case RunExternalLinterOnTheFly => assert doc[2] == OptionFor(s, f);
      case Version => assert doc[3] == OptionFor(s, f);
      case _ =>
    }
  }

  lemma Version1Writes(newEngine: bool)
    ensures Serialize(Version1State, newEngine) == UpgradedDocument
  {
    UpgradedDocumentAscending();
    UpgradedDocumentOptions(newEngine);
    UpgradedDocumentComplete(newEngine);
    SerializeDeterminedByContract(Version1State, newEngine, UpgradedDocument);
  }

  /** `test update from version 1`: legacy options translated, defaults dropped, version stamped. */
  lemma UpdateFromVersion1Test(newEngine: bool)
    ensures LoadState(Version1Document, newEngine) == Version1State
    ensures Serialize(LoadState(Version1Document, newEngine), newEngine) == UpgradedDocument
    ensures LoadState(Version1Document, newEngine).runExternalLinterOnTheFly
    ensures LoadState(Version1Document, newEngine).externalLinterArguments == ""
    ensures LoadState(Version1Document, newEngine).macroExpansionEngine == Disabled
    ensures LoadState(Version1Document, newEngine).version == Some(RustXmlFormatVersion)
  {
    Version1Migrated();
    Version1Read(newEngine);
    Version1Writes(newEngine);
  }
}
