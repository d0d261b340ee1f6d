# Rust project settings: a Dafny model

This project models the project-level settings of the IntelliJ Rust plugin, `RustProjectSettingsService`. It covers:

- the settings record `State`, with its twelve properties, their declared defaults, and the `@AffectsCargoMetadata` / `@AffectsHighlighting` annotations;
- the default macro expansion engine, which depends on the `MACROS_NEW_ENGINE` experiment;
- the derived `toolchain` property of the record, and `Project.toolchain`;
- the change event `RustSettingsChangedEvent`, with `isChanged`, `affectsCargoMetadata` and `affectsHighlighting`;
- the persisted form: the `<option name="…" value="…"/>` children of the settings element. This covers writing them, reading them back, and the version-1 upgrade that `loadState` applies before reading. The service test pins all three.

The record is an immutable datatype. A Kotlin assignment becomes a function that returns the updated record. Properties are first-class through the enumeration `Properties.Field`, with `Get`/`Set` and the annotation of each property (`TagOf`). The reflective property lists of the change event become two fixed tables. A lemma shows they hold exactly the properties carrying each annotation.

The persisted element is a sequence of name/value pairs.

**Writing.** `Persistence.Serialize` emits one option for each property that differs from its default, in ascending name order.

**Reading.** `Persistence.Deserialize` applies the options in order to a default record:

- a later option overrides an earlier one;
- a name that is not a property is ignored;
- a value that cannot be read as the property's type is ignored.

**Loading.** `Migration.LoadState` first upgrades a document whose declared version is below `RUST_XML_FORMAT_VERSION` (2), then reads it:

- `useCargoCheckAnnotator` is renamed to `runExternalLinterOnTheFly`;
- `expandMacros = false` becomes `macroExpansionEngine = DISABLED`;
- the version is stamped as 2.

**The service test.** Both scenarios are lemmas in `ServiceTest`, stated for either setting of the experiment flag:

- `test serialization`;
- `test update from version 1`.

**Parameters in place of the host.** Anything the host provides is a parameter:

- the experiment flag is `newEngine: bool`;
- the toolchain registry (`RsToolchainProvider.getToolchain`) is a function from directories to optional toolchains;
- the host's file separator (`File.separatorChar`), which `systemIndependentPath` turns into `/`, is a character;
- unit-test mode and the suggested toolchain of `Project.toolchain` are arguments.

Integers are modelled as 32-bit values, as for Kotlin's `Int`. `version` is written and read as Java decimal text, with an optional sign.

**Assumed read and write rules.** The implementation class (`RustProjectSettingsServiceImpl`) and the XML serializer are not part of this model. The rules above, for option order, unknown names and unreadable values, are therefore the choices the service test is consistent with. Other assumptions:

- booleans read exactly `true`/`false`;
- the linter's text form is `Clippy` (pinned by the test) or `Cargo Check` (assumed);
- the version a document declares is its last readable `version` option, and 1 when there is none.

## Model

| member | source | states |
|---|---|---|
| Settings.DefaultState | src/main/kotlin/org/rust/cargo/project/settings/RustProjectSettingsService.kt:30-53 | The fresh record has no version, toolchain directory or stdlib path. The four switches that default on are on and the other two are off. The linter is Cargo Check with no arguments, and the engine is the flag's default engine. |
| Settings.DefaultMacroExpansionEngine | src/main/kotlin/org/rust/cargo/project/settings/RustProjectSettingsService.kt:125-130 | The default engine is NEW exactly when the new-engine experiment is on, OLD exactly when it is off, and never DISABLED. |
| Settings.ToolchainOf | src/main/kotlin/org/rust/cargo/project/settings/RustProjectSettingsService.kt:57 | Without a stored home directory there is no toolchain. With one, the toolchain is whatever the registry resolves that directory to. |
| Settings.WithToolchain | src/main/kotlin/org/rust/cargo/project/settings/RustProjectSettingsService.kt:58-60 | Assigning no toolchain clears the home directory. Assigning one stores its location with the host separator turned into `/`. No other property changes. |
| Settings.ToolchainSetGet | src/main/kotlin/org/rust/cargo/project/settings/RustProjectSettingsService.kt:56-60 | Reading the toolchain back after assigning it gives the same toolchain, provided the registry recognises the stored directory; clearing it reads back as none. |
| Settings.ProjectToolchainOfSettings | src/main/kotlin/org/rust/cargo/project/settings/RustProjectSettingsService.kt:161-169 | Outside unit-test mode the project has no toolchain exactly when no home directory is stored or the registry does not recognise it. In unit-test mode a suggested toolchain always gives one. |
| Settings.ProjectToolchainAfterSet | src/main/kotlin/org/rust/cargo/project/settings/RustProjectSettingsService.kt:161-169 | After a toolchain is assigned to the settings, the project toolchain is that toolchain in either mode, provided the registry recognises the stored directory. |
| Settings.ProjectToolchain | src/main/kotlin/org/rust/cargo/project/settings/RustProjectSettingsService.kt:161-169 | The project toolchain is the settings toolchain when there is one. Otherwise it is the suggested toolchain in unit-test mode, and none outside it. Any toolchain returned is one of those two. |
| Toolchain.SystemIndependentPath | src/main/kotlin/org/rust/cargo/project/settings/RustProjectSettingsService.kt:59 | The stored path has the same length. Each host separator becomes `/` and every other character is kept in place. With `/` as separator the path is unchanged; with any other separator none is left. |
| Toolchain.SystemIndependentPathIdempotent | src/main/kotlin/org/rust/cargo/project/settings/RustProjectSettingsService.kt:59 | Converting an already system-independent path changes nothing. |
| Properties.Get | src/main/kotlin/org/rust/cargo/project/settings/RustProjectSettingsService.kt:30-53 | Reading a property gives a value of that property's Kotlin type. |
| Properties.Set | src/main/kotlin/org/rust/cargo/project/settings/RustProjectSettingsService.kt:30-53 | Definition: assigning one property. Its contract is stated by `Properties.SetThenGet`. |
| Properties.TagOf | src/main/kotlin/org/rust/cargo/project/settings/RustProjectSettingsService.kt:31-53 | Definition: the annotation each property carries. `ChangeEvent.TablesMatchAnnotations` and `ChangeEvent.FlagsFollowTags` relate it to the event. |
| Properties.SetThenGet | src/main/kotlin/org/rust/cargo/project/settings/RustProjectSettingsService.kt:30-53 | Assigning a property reads back the assigned value, and every other property keeps its value. |
| Properties.Extensionality | src/main/kotlin/org/rust/cargo/project/settings/RustProjectSettingsService.kt:30-53 | Two records are equal (data-class equality) exactly when every one of the twelve properties reads the same in both. |
| ChangeEvent.IsChanged | src/main/kotlin/org/rust/cargo/project/settings/RustProjectSettingsService.kt:146 | A property reported changed implies the two snapshots are different records; `ChangeEvent.NothingChangedIffEqual` gives the converse. |
| ChangeEvent.TablesMatchAnnotations | src/main/kotlin/org/rust/cargo/project/settings/RustProjectSettingsService.kt:149-152 | The cargo-metadata table holds exactly the properties annotated `@AffectsCargoMetadata`, and the highlighting table exactly those annotated `@AffectsHighlighting`. |
| ChangeEvent.AnyChanged | src/main/kotlin/org/rust/cargo/project/settings/RustProjectSettingsService.kt:139-143 | `any(::isChanged)` over a property list holds exactly when some property of the list reads differently in the old and new snapshot. |
| ChangeEvent.AffectsCargoMetadata | src/main/kotlin/org/rust/cargo/project/settings/RustProjectSettingsService.kt:139-140 | The event affects cargo metadata exactly when `toolchainHomeDirectory` or `explicitPathToStdlib` changed. |
| ChangeEvent.AffectsHighlighting | src/main/kotlin/org/rust/cargo/project/settings/RustProjectSettingsService.kt:142-143 | The event affects highlighting exactly when one of the five highlighting-annotated properties changed. |
| ChangeEvent.FlagsFollowTags | src/main/kotlin/org/rust/cargo/project/settings/RustProjectSettingsService.kt:137-153 | Each flag holds exactly when some property carrying its annotation changed. |
| ChangeEvent.IsChangedSymmetric | src/main/kotlin/org/rust/cargo/project/settings/RustProjectSettingsService.kt:146 | Swapping old and new snapshots changes neither `isChanged` nor either flag. |
| ChangeEvent.NothingChangedIffEqual | src/main/kotlin/org/rust/cargo/project/settings/RustProjectSettingsService.kt:137-146 | No property is reported changed exactly when the two snapshots are equal records. |
| ChangeEvent.UntaggedChangeIsQuiet | src/main/kotlin/org/rust/cargo/project/settings/RustProjectSettingsService.kt:137-153 | A change confined to unannotated properties (such as `useOffline` or `macroExpansionEngine`) raises neither flag. |
| ChangeEvent.SinglePropertyChange | src/main/kotlin/org/rust/cargo/project/settings/RustProjectSettingsService.kt:137-153 | Changing one property to a new value reports that property changed, and raises exactly the flag matching its annotation. |
| ChangeEvent.ToolchainChangeAffectsOnlyMetadata | src/main/kotlin/org/rust/cargo/project/settings/RustProjectSettingsService.kt:32-60 | Assigning the toolchain never affects highlighting. It affects cargo metadata exactly when the stored home directory changed. |
| Decimal.IntToString | src/test/kotlin/org/rust/cargo/project/RustProjectSettingsServiceTest.kt:40 | Definition: the decimal text of an `Int`, as written for `version`. Its contract is stated by `Decimal.ParseIntToString`. |
| Decimal.ParseInt32 | src/test/kotlin/org/rust/cargo/project/RustProjectSettingsServiceTest.kt:40 | Definition: reading an `Int` from decimal text. Its contract is stated by `Decimal.ParseIntToString`. |
| Decimal.ParseIntToString | src/test/kotlin/org/rust/cargo/project/RustProjectSettingsServiceTest.kt:40 | Every 32-bit integer is read back from its decimal text, so the written `version` survives a reload. |
| Persistence.NamesDistinct | src/main/kotlin/org/rust/cargo/project/settings/RustProjectSettingsService.kt:30-53 | Two properties have the same option name exactly when they are the same property. |
| Persistence.FieldNamedName | src/main/kotlin/org/rust/cargo/project/settings/RustProjectSettingsService.kt:30-53 | Each property's name resolves back to that property and to no other. |
| Persistence.FieldsByNameAscending | src/test/kotlin/org/rust/cargo/project/RustProjectSettingsServiceTest.kt:30-40 | The write order lists every property, with names strictly ascending. |
| Persistence.LinterText | src/test/kotlin/org/rust/cargo/project/RustProjectSettingsServiceTest.kt:34 | Definition: the text form of an external linter. Its contract is stated by `Persistence.PrintParse` and `Persistence.ParsePrint`. |
| Persistence.EngineText | src/main/kotlin/org/rust/cargo/project/settings/RustProjectSettingsService.kt:69-71 | Definition: the enum name of an engine. Its contract is stated by `Persistence.PrintParse` and `Persistence.ParsePrint`. |
| Persistence.Print | src/test/kotlin/org/rust/cargo/project/RustProjectSettingsServiceTest.kt:30-40 | Definition: the text written for a value. Its contract is stated by `Persistence.PrintParse` and `Persistence.ParsePrint`. |
| Persistence.ParseValue | src/test/kotlin/org/rust/cargo/project/RustProjectSettingsServiceTest.kt:30-43 | A text that reads at all reads as a non-null value of the property's type. |
| Persistence.PrintParse | src/test/kotlin/org/rust/cargo/project/RustProjectSettingsServiceTest.kt:30-40 | Every non-null property value is read back from the text written for it. |
| Persistence.ParsePrint | src/test/kotlin/org/rust/cargo/project/RustProjectSettingsServiceTest.kt:30-40 | For every property but `version`, the text of a readable value is exactly the text written back for it. |
| Persistence.Serialize | src/test/kotlin/org/rust/cargo/project/RustProjectSettingsServiceTest.kt:28-46 | The written options have strictly ascending names and each names a property. Each is the text of a property that differs from its default, and every such property is written. |
| Persistence.SerializeDeterminedByContract | src/test/kotlin/org/rust/cargo/project/RustProjectSettingsServiceTest.kt:28-46 | Any ascending document holding exactly the non-default properties' options is the written document, so the written form is canonical. |
| Persistence.SerializeEmptyIffDefault | src/main/kotlin/org/rust/cargo/project/settings/RustProjectSettingsService.kt:30-53 | Nothing is written exactly when the record is the default record. |
| Persistence.ApplyOption | src/test/kotlin/org/rust/cargo/project/RustProjectSettingsServiceTest.kt:43 | Definition: reading one option into the record. Its contract is stated by `Persistence.ApplyOptionReads`. |
| Persistence.DeserializeInto | src/test/kotlin/org/rust/cargo/project/RustProjectSettingsServiceTest.kt:43 | Definition: reading options one after another into an existing record. Its contract is stated by `Persistence.DeserializeIntoReads`. |
| Persistence.DeserializeIntoReads | src/test/kotlin/org/rust/cargo/project/RustProjectSettingsServiceTest.kt:43 | After reading into a record, each property holds the value of its last readable option, or the value it held before. |
| Persistence.LastReadable | src/test/kotlin/org/rust/cargo/project/RustProjectSettingsServiceTest.kt:43 | Definition: the last readable option for a property. A value it finds has that property's type and is non-null. `Persistence.DeserializeIntoReads` and `Persistence.LastReadableOverride` relate it to reading. |
| Persistence.Deserialize | src/test/kotlin/org/rust/cargo/project/RustProjectSettingsServiceTest.kt:43-58 | Definition: reading a document into a fresh record. Its contract is stated by `Persistence.DeserializeReads` and `Persistence.SerializeRoundTrip`. |
| Persistence.ApplyOptionReads | src/test/kotlin/org/rust/cargo/project/RustProjectSettingsServiceTest.kt:43 | Reading one option changes a property exactly when the option names that property with a readable value, and then sets it to that value. |
| Persistence.DeserializeReads | src/test/kotlin/org/rust/cargo/project/RustProjectSettingsServiceTest.kt:43-58 | After reading, each property holds the value of its last readable option. A property with no option keeps its declared default. |
| Persistence.LastReadableOverride | src/test/kotlin/org/rust/cargo/project/RustProjectSettingsServiceTest.kt:43 | A readable option that no later option names decides its property. |
| Persistence.SerializeRoundTrip | src/test/kotlin/org/rust/cargo/project/RustProjectSettingsServiceTest.kt:43-46 | Writing a record and reading it into a fresh record gives the same record. |
| Persistence.CanonicalDocumentRoundTrip | src/test/kotlin/org/rust/cargo/project/RustProjectSettingsServiceTest.kt:43-46 | A written document is reproduced exactly by reading it and writing again. |
| Persistence.DefaultNotWritten | src/test/kotlin/org/rust/cargo/project/RustProjectSettingsServiceTest.kt:28-46 | No written option names a property that is at its default. |
| Persistence.NonDefaultWrittenOnce | src/test/kotlin/org/rust/cargo/project/RustProjectSettingsServiceTest.kt:28-46 | A property that differs from its default is read back from the written document as its own value. |
| Persistence.EngineReadLast | src/main/kotlin/org/rust/cargo/project/settings/RustProjectSettingsService.kt:69-71 | A document with a readable `macroExpansionEngine` option is read, before any version upgrade, with the engine of the last such option. |
| Persistence.EngineReadAbsent | src/main/kotlin/org/rust/cargo/project/settings/RustProjectSettingsService.kt:125-130 | A document without a `macroExpansionEngine` option is read, before any version upgrade, with the reader's default engine. |
| Persistence.DefaultEngineFollowsReader | src/main/kotlin/org/rust/cargo/project/settings/RustProjectSettingsService.kt:125-130 | An engine equal to the writer's default engine is not written, so the record is read back, before any version upgrade, with the reader's default: NEW written with the experiment on is read as OLD with it off. |
| Persistence.NonDefaultEngineWritten | src/main/kotlin/org/rust/cargo/project/settings/RustProjectSettingsService.kt:69-71 | An engine other than the writer's default is written under its enum name and is read back, before any version upgrade, unchanged whatever the reader's flag. |
| Persistence.DisabledEngineWritten | src/main/kotlin/org/rust/cargo/project/settings/RustProjectSettingsService.kt:125-130 | A DISABLED engine is written as `DISABLED` whether the experiment is on or off. |
| Migration.DocumentVersion | src/test/kotlin/org/rust/cargo/project/RustProjectSettingsServiceTest.kt:61-90 | Definition: the version a document declares. Its contract is stated by `Migration.DocumentVersionDeclared`. |
| Migration.DocumentVersionDeclared | src/test/kotlin/org/rust/cargo/project/RustProjectSettingsServiceTest.kt:61-90 | The declared version is the value of the last readable `version` option, and 1 when there is none. |
| Migration.UpgradeOption | src/test/kotlin/org/rust/cargo/project/RustProjectSettingsServiceTest.kt:65-83 | Definition: the upgrade of one option. Its contract is stated by `Migration.UpgradeOptionShape`. |
| Migration.UpgradeOptionShape | src/test/kotlin/org/rust/cargo/project/RustProjectSettingsServiceTest.kt:65-83 | One option upgrades to at most one. The result never has a legacy or `version` name, and an option with any other name is kept as it is. |
| Migration.UpgradeOptions | src/test/kotlin/org/rust/cargo/project/RustProjectSettingsServiceTest.kt:65-83 | Definition: the upgrade of every option in order. Its contract is stated by `Migration.UpgradedNames` and `Migration.UpgradedFrom`. |
| Migration.UpgradeKeepsReads | src/test/kotlin/org/rust/cargo/project/RustProjectSettingsServiceTest.kt:65-83 | In a document without legacy options the upgrade only drops `version` options, so every other property reads the same before and after. |
| Migration.Migrate | src/test/kotlin/org/rust/cargo/project/RustProjectSettingsServiceTest.kt:61-90 | Definition: the upgrade applied before reading. Its contract is stated by `Migration.LoadStampsVersion`, `Migration.MigrateIdempotent` and `Migration.LegacyKeysDropped`. |
| Migration.LoadState | src/test/kotlin/org/rust/cargo/project/RustProjectSettingsServiceTest.kt:61-90 | Definition: loading a persisted element. Its contract is stated by `Migration.LoadStampsVersion`, `Migration.LoadSerializeRoundTrip` and `Migration.LoadSerializeStampsOldRecord`. |
| Migration.UpgradedNames | src/test/kotlin/org/rust/cargo/project/RustProjectSettingsServiceTest.kt:65-83 | No upgraded option carries a legacy name or an old version. |
| Migration.UpgradedFrom | src/test/kotlin/org/rust/cargo/project/RustProjectSettingsServiceTest.kt:65-83 | Every upgraded option comes from an option of the original document. |
| Migration.LoadStampsVersion | src/test/kotlin/org/rust/cargo/project/RustProjectSettingsServiceTest.kt:48 | After migration the declared version is at least 2. A document at version 2 or below loads with version 2; a newer one keeps its own. |
| Migration.MigrateIdempotent | src/test/kotlin/org/rust/cargo/project/RustProjectSettingsServiceTest.kt:61-85 | Migrating twice is migrating once, and a current document is left unchanged. |
| Migration.LegacyKeysDropped | src/test/kotlin/org/rust/cargo/project/RustProjectSettingsServiceTest.kt:65-83 | An upgraded document, and any written document, holds no `useCargoCheckAnnotator` or `expandMacros` option. |
| Migration.UpgradedOptionWins | src/test/kotlin/org/rust/cargo/project/RustProjectSettingsServiceTest.kt:65-89 | An old option that upgrades to an option for a property, with no later option for it, decides that property after loading. |
| Migration.LegacyLinterFlagTranslated | src/test/kotlin/org/rust/cargo/project/RustProjectSettingsServiceTest.kt:69-87 | In a version-1 document, the last `useCargoCheckAnnotator` decides `runExternalLinterOnTheFly` after loading. |
| Migration.LegacyExpandMacrosTranslated | src/test/kotlin/org/rust/cargo/project/RustProjectSettingsServiceTest.kt:70-89 | In a version-1 document, a last `expandMacros = false` loads as `macroExpansionEngine = DISABLED`. |
| Migration.AbsentPropertyLoadsDefault | src/test/kotlin/org/rust/cargo/project/RustProjectSettingsServiceTest.kt:88 | A property the document does not mention, under its own or its legacy name, loads at its declared default. |
| Migration.LoadSerializeRoundTrip | src/test/kotlin/org/rust/cargo/project/RustProjectSettingsServiceTest.kt:43-46 | A record at the current format version survives writing and loading unchanged. |
| Migration.WrittenBelowCurrent | src/test/kotlin/org/rust/cargo/project/RustProjectSettingsServiceTest.kt:61-73 | A record without a version, or below version 2, is written as a document that declares a version below 2. |
| Migration.LoadSerializeStampsOldRecord | src/test/kotlin/org/rust/cargo/project/RustProjectSettingsServiceTest.kt:43-48 | A record without a version, or below version 2, loads back from its written form with every property unchanged except `version`, which becomes 2. The fresh `State()` is such a record. |
| ServiceTest.CurrentStateWritesCurrentDocument | src/test/kotlin/org/rust/cargo/project/RustProjectSettingsServiceTest.kt:28-46 | The record with the test's expected values writes exactly the eleven options of the test document. |
| ServiceTest.SerializationTest | src/test/kotlin/org/rust/cargo/project/RustProjectSettingsServiceTest.kt:24-59 | Loading the test document gives the expected record, and writing it reproduces the document. The version is 2, and the toolchain is the one registered for `/`. |
| ServiceTest.Version1Migrated | src/test/kotlin/org/rust/cargo/project/RustProjectSettingsServiceTest.kt:65-73 | The version-1 document upgrades to its four options with the legacy names translated, followed by the version stamp. |
| ServiceTest.Version1Writes | src/test/kotlin/org/rust/cargo/project/RustProjectSettingsServiceTest.kt:76-85 | The loaded version-1 record writes exactly the expected four options. |
| ServiceTest.UpdateFromVersion1Test | src/test/kotlin/org/rust/cargo/project/RustProjectSettingsServiceTest.kt:61-90 | Loading the version-1 document gives the expected record, which writes the expected document. `runExternalLinterOnTheFly` is true, the arguments are empty, the engine is DISABLED and the version is 2. |

## Left out

- `autoShowErrorsInEditor` as a `ThreeState` service accessor: its mapping is in the implementation class, which is not part of this model. The record's boolean field is modelled.
- `modify`, `modifyTemporary` and the `settingsState` property: they copy, edit and publish the service's mutable state. The model works on immutable records, and the published change is `RustSettingsChangedEvent`.
- The `RUST_SETTINGS_TOPIC` broadcast, the `RustSettingsListener` interface and the `Project.rustSettings` service lookup: these are platform messaging and service registry. `Project.toolchain` takes the settings toolchain as an argument.
- `configureToolchain`: it opens a dialog.
- The deprecated `setToolchain(RsToolchain?)` of the record stores the location the same way as the `toolchain` setter, which is modelled. The service's deprecated `getToolchain()` is only declared in favour of the `toolchain` property; its implementation is not part of this model.
- `RsToolchainBase.suggest()` and `RsToolchainProvider.getToolchain`: their implementations are not part of this model, so the suggested toolchain and the registry are parameters.
- Settings.ToolchainOf: the getter first converts the stored directory with `Paths.get`, which throws `InvalidPathException` for a string that is not a path (one containing NUL, or on Windows one containing `<`, `>`, `|`, `?`, `*` or a misplaced `:`). The stored string comes from the persisted element and can be anything, but the model's registry returns a value for every string, so that exception is not modelled.
- Migration.UpgradeOption: an `expandMacros` option with a value other than `false` is dropped. The service test does not pin this case, and the implementation class is not part of this model.
- Decimal.ParseInt32: Java's `Integer.parseInt` also accepts non-ASCII Unicode digits. Only ASCII digits are modelled.
- XML text itself (element nesting, attribute quoting, escaping and indentation): a document is modelled as the sequence of its options.
- `src/test/kotlin/org/rust/ide/annotator/AnnotationTestFixtureBase.kt` and `src/test/kotlin/org/rust/cargo/runconfig/filters/RsBacktraceFilterCargoTest.kt`: neither touches the settings record. The first sets up annotators, inspections and batch-mode highlighting for annotator tests. The second tests the backtrace filter's links into the cargo registry.
