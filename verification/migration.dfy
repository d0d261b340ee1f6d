/**
 * Loading a persisted settings element (`loadState`): a document older than
 * format version 2 is first upgraded (legacy option names translated, the
 * version stamped), then read into a fresh record.
 */
module Migration {
  import opened Wrappers
  import opened Decimal
  import Settings
  import opened Properties
  import opened Persistence

  /** `RUST_XML_FORMAT_VERSION`. */
  const RustXmlFormatVersion: Int32 := 2

  /** The version-1 name of `runExternalLinterOnTheFly`. */
  const LegacyLinterKey: string := "useCargoCheckAnnotator"

  /** The version-1 flag replaced by `macroExpansionEngine`. */
  const LegacyMacrosKey: string := "expandMacros"

  /** The format version a document declares; a document without a readable one is version 1. */
  function DocumentVersion(doc: Document): Int32 {
    match LastReadable(doc, Version)
    case Some(IntValue(Some(v))) => v
    case _ => 1
  }

  /** The upgrade of one version-1 option; the old version option is dropped, to be stamped anew. */
  function UpgradeOption(o: XmlOption): seq<XmlOption> {
    if o.name == LegacyLinterKey then [XmlOption(Name(RunExternalLinterOnTheFly), o.value)]
    else if o.name == LegacyMacrosKey then
      if o.value == "false" then [XmlOption(Name(MacroExpansionEngine), EngineText(Settings.Disabled))] else []
    else if o.name == Name(Version) then []
    else [o]
  }

  /**
   * One option upgrades to at most one: a legacy name is translated, a version
   * dropped, and any other option kept as it is.
   */
  lemma UpgradeOptionShape(o: XmlOption)
    ensures |UpgradeOption(o)| <= 1
    ensures o.name != LegacyLinterKey && o.name != LegacyMacrosKey && o.name != Name(Version) ==> UpgradeOption(o) == [o]
    ensures forall p :: p in UpgradeOption(o) ==> p.name != LegacyLinterKey && p.name != LegacyMacrosKey && p.name != Name(Version)
  {
  }

  /** The version a document declares is its last readable `version` option, or 1 without one. */
  lemma DocumentVersionDeclared(doc: Document)
    ensures LastReadable(doc, Version).None? ==> DocumentVersion(doc) == 1
    ensures LastReadable(doc, Version).Some? ==> LastReadable(doc, Version) == Some(IntValue(Some(DocumentVersion(doc))))
  {
  }

  /** The upgrade of every option, in document order. */
  function UpgradeOptions(doc: Document): Document
    decreases |doc|
  {
    if |doc| == 0 then []
    else UpgradeOptions(doc[..|doc| - 1]) + UpgradeOption(doc[|doc| - 1])
  }

  /** No upgraded option carries a legacy name or a version. */
  lemma {:induction false} UpgradedNames(doc: Document)
    ensures forall o :: o in UpgradeOptions(doc) ==> o.name != LegacyLinterKey && o.name != LegacyMacrosKey && o.name != Name(Version)
    decreases |doc|
  {
    if |doc| > 0 {
      UpgradedNames(doc[..|doc| - 1]);
    }
  }

  /** Every upgraded option comes from some option of the original document. */
  lemma {:induction false} UpgradedFrom(doc: Document, o: XmlOption)
    requires o in UpgradeOptions(doc)
    ensures exists p :: p in doc && o in UpgradeOption(p)
    decreases |doc|
  {
    var prefix := doc[..|doc| - 1];
    if o !in UpgradeOption(doc[|doc| - 1]) {
      UpgradedFrom(prefix, o);
      var p :| p in prefix && o in UpgradeOption(p);
      assert p in doc;
    }
  }

  lemma {:induction false} UpgradeOptionsAppend(a: Document, b: Document)
    ensures UpgradeOptions(a + b) == UpgradeOptions(a) + UpgradeOptions(b)
    decreases |b|
  {
    if |b| == 0 {
      assert a + b == a;
    } else {
      assert (a + b)[..|a + b| - 1] == a + b[..|b| - 1];
      UpgradeOptionsAppend(a, b[..|b| - 1]);
    }
  }

  /** Upgrading one more option of a prefix appends that option's upgrade. */
  lemma UpgradeOptionsStep(doc: Document, k: nat, before: Document)
    requires k < |doc| && UpgradeOptions(doc[..k]) == before
    ensures UpgradeOptions(doc[..k + 1]) == before + UpgradeOption(doc[k])
  {
    assert doc[..k + 1][..k] == doc[..k];
  }

  /** The upgrade applied when the document is older than the current format. */
  function Migrate(doc: Document): Document {
    if DocumentVersion(doc) >= RustXmlFormatVersion then doc
    else UpgradeOptions(doc) + [XmlOption(Name(Version), IntToString(RustXmlFormatVersion))]
  }

  /** `loadState`: the record a persisted element loads as. */
  function LoadState(doc: Document, newEngine: bool): Settings.State {
    Deserialize(Migrate(doc), newEngine)
  }

  /** The version a document declares is the version it is read with. */
  lemma DocumentVersionIsReadVersion(doc: Document, newEngine: bool)
    ensures Deserialize(doc, newEngine).version == if LastReadable(doc, Version).Some? then Some(DocumentVersion(doc)) else None
  {
    var r := Deserialize(doc, newEngine);
    DeserializeReads(doc, newEngine, Version);
    assert Get(r, Version) == IntValue(r.version);
    assert Get(Settings.DefaultState(newEngine), Version) == IntValue(None);
  }

  /**
   * After loading, the version is the current format version, or the
   * document's own version when that is newer.
   */
  lemma LoadStampsVersion(doc: Document, newEngine: bool)
    ensures DocumentVersion(Migrate(doc)) >= RustXmlFormatVersion
    ensures DocumentVersion(doc) <= RustXmlFormatVersion ==> LoadState(doc, newEngine).version == Some(RustXmlFormatVersion)
    ensures DocumentVersion(doc) >= RustXmlFormatVersion ==> LoadState(doc, newEngine).version == Some(DocumentVersion(doc))
  {
    var m := Migrate(doc);
    if DocumentVersion(doc) < RustXmlFormatVersion {
      ParseIntToString(RustXmlFormatVersion);
      assert m[..|m| - 1] == UpgradeOptions(doc);
      assert LastReadable(m, Version) == Some(IntValue(Some(RustXmlFormatVersion)));
    }
    DocumentVersionIsReadVersion(m, newEngine);
  }

  /** Migration is idempotent, and a document already at the current format is left alone. */
  lemma MigrateIdempotent(doc: Document)
    ensures Migrate(Migrate(doc)) == Migrate(doc)
    ensures DocumentVersion(doc) >= RustXmlFormatVersion ==> Migrate(doc) == doc
  {
    LoadStampsVersion(doc, false);
  }

  /** An upgraded document holds no legacy option, and nothing written ever holds one. */
  lemma LegacyKeysDropped(doc: Document, s: Settings.State, newEngine: bool)
    ensures DocumentVersion(doc) < RustXmlFormatVersion ==>
      forall o :: o in Migrate(doc) ==> o.name != LegacyLinterKey && o.name != LegacyMacrosKey
    ensures forall o :: o in Serialize(s, newEngine) ==> o.name != LegacyLinterKey && o.name != LegacyMacrosKey
  {
    NotAName(LegacyLinterKey);
    NotAName(LegacyMacrosKey);
    UpgradedNames(doc);
  }

  /** One option that names neither `f` nor the legacy name of `f` does not upgrade to an option for `f`. */
  lemma UpgradedOptionName(p: XmlOption, o: XmlOption, f: Field, legacy: string)
    requires f == RunExternalLinterOnTheFly ==> legacy == LegacyLinterKey
    requires f == MacroExpansionEngine ==> legacy == LegacyMacrosKey
    requires p.name != Name(f) && p.name != legacy
    requires o in UpgradeOption(p)
    ensures o.name != Name(f)
  {
    NamesDistinct(f, RunExternalLinterOnTheFly);
    NamesDistinct(f, MacroExpansionEngine);
  }

  /** The options of an upgraded tail that can carry property `f`, given the tail holds none of them. */
  lemma UpgradedNameAbsent(post: Document, f: Field, legacy: string)
    requires f == RunExternalLinterOnTheFly ==> legacy == LegacyLinterKey
    requires f == MacroExpansionEngine ==> legacy == LegacyMacrosKey
    requires forall o :: o in post ==> o.name != Name(f) && o.name != legacy
    ensures forall o :: o in UpgradeOptions(post) ==> o.name != Name(f)
  {
    forall o | o in UpgradeOptions(post) ensures o.name != Name(f) {
      UpgradedFrom(post, o);
      var p :| p in post && o in UpgradeOption(p);
      UpgradedOptionName(p, o, f, legacy);
    }
  }

  lemma UpgradeOptionsSplit(pre: Document, o: XmlOption, post: Document)
    ensures UpgradeOptions(pre + [o] + post) == UpgradeOptions(pre) + UpgradeOption(o) + UpgradeOptions(post)
  {
    UpgradeOptionsAppend(pre + [o], post);
    UpgradeOptionsAppend(pre, [o]);
    assert [o][..0] == [];
  }

  /** The upgrade of a version-1 document, split around one of its options. */
  lemma MigrateSplit(pre: Document, o: XmlOption, post: Document)
    requires DocumentVersion(pre + [o] + post) < RustXmlFormatVersion
    ensures Migrate(pre + [o] + post)
         == (UpgradeOptions(pre) + UpgradeOption(o))
          + (UpgradeOptions(post) + [XmlOption(Name(Version), IntToString(RustXmlFormatVersion))])
  {
    UpgradeOptionsSplit(pre, o, post);
    var a, b, c := UpgradeOptions(pre), UpgradeOption(o), UpgradeOptions(post);
    var stamp := [XmlOption(Name(Version), IntToString(RustXmlFormatVersion))];
    assert (a + b + c) + stamp == (a + b) + (c + stamp);
  }

  /**
   * When an option of a version-1 document upgrades to a single option for
   * `f`, and nothing after it upgrades to an option for `f`, it decides `f`.
   */
  lemma UpgradedOptionWins(pre: Document, o: XmlOption, post: Document, f: Field, newEngine: bool)
    requires DocumentVersion(pre + [o] + post) < RustXmlFormatVersion
    requires |UpgradeOption(o)| == 1 && UpgradeOption(o)[0].name == Name(f)
    requires ParseValue(f, UpgradeOption(o)[0].value).Some?
    requires f != Version
    requires forall p :: p in UpgradeOptions(post) ==> p.name != Name(f)
    ensures Get(LoadState(pre + [o] + post, newEngine), f) == ParseValue(f, UpgradeOption(o)[0].value).value
  {
    var t := UpgradeOption(o)[0];
    var stamp := [XmlOption(Name(Version), IntToString(RustXmlFormatVersion))];
    var tail := UpgradeOptions(post) + stamp;
    var doc := pre + [o] + post;
    MigrateSplit(pre, o, post);
    assert Migrate(doc) == UpgradeOptions(pre) + [t] + tail;
    assert Name(f) != Name(Version) by {
      FieldNamedName(f);
    }
    assert forall p :: p in tail ==> p.name != Name(f);
    LastReadableOverride(UpgradeOptions(pre), t, tail, f);
    DeserializeReads(Migrate(doc), newEngine, f);
  }

  /** The last `useCargoCheckAnnotator` of a version-1 document becomes `runExternalLinterOnTheFly`. */
  lemma LegacyLinterFlagTranslated(pre: Document, v: string, post: Document, newEngine: bool)
    requires v == "true" || v == "false"
    requires DocumentVersion(pre + [XmlOption(LegacyLinterKey, v)] + post) < RustXmlFormatVersion
    requires forall o :: o in post ==> o.name != LegacyLinterKey && o.name != Name(RunExternalLinterOnTheFly)
    ensures LoadState(pre + [XmlOption(LegacyLinterKey, v)] + post, newEngine).runExternalLinterOnTheFly == (v == "true")
  {
    UpgradedNameAbsent(post, RunExternalLinterOnTheFly, LegacyLinterKey);
    UpgradedOptionWins(pre, XmlOption(LegacyLinterKey, v), post, RunExternalLinterOnTheFly, newEngine);
  }

  /** The last `expandMacros = false` of a version-1 document becomes `macroExpansionEngine = DISABLED`. */
  lemma LegacyExpandMacrosTranslated(pre: Document, post: Document, newEngine: bool)
    requires DocumentVersion(pre + [XmlOption(LegacyMacrosKey, "false")] + post) < RustXmlFormatVersion
    requires forall o :: o in post ==> o.name != LegacyMacrosKey && o.name != Name(MacroExpansionEngine)
    ensures LoadState(pre + [XmlOption(LegacyMacrosKey, "false")] + post, newEngine).macroExpansionEngine == Settings.Disabled
  {
    UpgradedNameAbsent(post, MacroExpansionEngine, LegacyMacrosKey);
    UpgradedOptionWins(pre, XmlOption(LegacyMacrosKey, "false"), post, MacroExpansionEngine, newEngine);
  }

  /**
   * A property the document does not mention, under its own name or under
   * the legacy name that upgrades to it, loads at its declared default.
   */
  lemma AbsentPropertyLoadsDefault(doc: Document, f: Field, newEngine: bool)
    requires f != Version
    requires forall o :: o in doc ==> o.name != Name(f)
    requires f == RunExternalLinterOnTheFly ==> forall o :: o in doc ==> o.name != LegacyLinterKey
    requires f == MacroExpansionEngine ==> forall o :: o in doc ==> o.name != LegacyMacrosKey
    ensures IsDefault(LoadState(doc, newEngine), f, newEngine)
  {
    var legacy := if f == RunExternalLinterOnTheFly then LegacyLinterKey
                  else if f == MacroExpansionEngine then LegacyMacrosKey else Name(f);
    if DocumentVersion(doc) < RustXmlFormatVersion {
      UpgradedNameAbsent(doc, f, legacy);
      FieldNamedName(f);
      assert forall o :: o in Migrate(doc) ==> o.name != Name(f);
    }
    DeserializeReads(Migrate(doc), newEngine, f);
  }

  /** A record at the current format or newer survives writing and loading unchanged. */
  lemma LoadSerializeRoundTrip(s: Settings.State, newEngine: bool)
    requires s.version.Some? && s.version.value >= RustXmlFormatVersion
    ensures LoadState(Serialize(s, newEngine), newEngine) == s
  {
    var doc := Serialize(s, newEngine);
    SerializeRoundTrip(s, newEngine);
    DocumentVersionIsReadVersion(doc, newEngine);
  }

  /** One option other than a legacy one upgrades to options that read every property but `version` as it does. */
  lemma UpgradeOptionKeepsReads(o: XmlOption, f: Field)
    requires f != Version && o.name != LegacyLinterKey && o.name != LegacyMacrosKey
    ensures LastReadable(UpgradeOption(o), f) == LastReadable([o], f)
  {
    assert [o][..0] == [];
    NamesDistinct(f, Version);
  }

  /** Without legacy options, the upgrade only drops `version` options, so every other property reads the same. */
  lemma {:induction false} UpgradeKeepsReads(doc: Document, f: Field)
    requires f != Version
    requires forall o :: o in doc ==> o.name != LegacyLinterKey && o.name != LegacyMacrosKey
    ensures LastReadable(UpgradeOptions(doc), f) == LastReadable(doc, f)
    decreases |doc|
  {
    if |doc| > 0 {
      var prefix, o := doc[..|doc| - 1], doc[|doc| - 1];
      assert doc == prefix + [o];
      assert forall p :: p in prefix ==> p in doc;
      UpgradeKeepsReads(prefix, f);
      UpgradeOptionKeepsReads(o, f);
      LastReadableAppend(UpgradeOptions(prefix), UpgradeOption(o), f);
      LastReadableAppend(prefix, [o], f);
    }
  }

  /** A record without a version, or below the current one, is written as a document older than the current format. */
  lemma WrittenBelowCurrent(s: Settings.State, newEngine: bool)
    requires s.version.None? || s.version.value < RustXmlFormatVersion
    ensures DocumentVersion(Serialize(s, newEngine)) < RustXmlFormatVersion
  {
    var doc := Serialize(s, newEngine);
    if s.version.None? {
      assert IsDefault(s, Version, newEngine);
      DefaultNotWritten(s, newEngine, Version);
      LastReadableAbsent(doc, Version);
    } else {
      assert !IsDefault(s, Version, newEngine);
      NonDefaultWrittenOnce(s, newEngine, Version);
    }
  }

  /** Upgrading a document without legacy options changes how no property but `version` reads. */
  lemma MigrateKeepsReads(doc: Document, f: Field)
    requires f != Version && DocumentVersion(doc) < RustXmlFormatVersion
    requires forall o :: o in doc ==> o.name != LegacyLinterKey && o.name != LegacyMacrosKey
    ensures LastReadable(Migrate(doc), f) == LastReadable(doc, f)
  {
    var stamp := [XmlOption(Name(Version), IntToString(RustXmlFormatVersion))];
    UpgradeKeepsReads(doc, f);
    NamesDistinct(f, Version);
    assert LastReadable(stamp, f).None? by {
      assert stamp[..0] == [];
    }
    LastReadableAppend(UpgradeOptions(doc), stamp, f);
  }

  /** Two documents with the same last readable option for `f` read `f` the same. */
  lemma SameReadsSameProperty(a: Document, b: Document, f: Field, newEngine: bool)
    requires LastReadable(a, f) == LastReadable(b, f)
    ensures Get(Deserialize(a, newEngine), f) == Get(Deserialize(b, newEngine), f)
  {
    DeserializeReads(a, newEngine, f);
    DeserializeReads(b, newEngine, f);
  }

  /** A written old record loads stamped with the current format version. */
  lemma LoadWrittenOldVersion(s: Settings.State, newEngine: bool)
    requires s.version.None? || s.version.value < RustXmlFormatVersion
    ensures LoadState(Serialize(s, newEngine), newEngine).version == Some(RustXmlFormatVersion)
  {
    WrittenBelowCurrent(s, newEngine);
    LoadStampsVersion(Serialize(s, newEngine), newEngine);
  }

  /** Loading a written old record reads every property but `version` as the record had it. */
  lemma LoadWrittenOldProperty(s: Settings.State, newEngine: bool, f: Field)
    requires s.version.None? || s.version.value < RustXmlFormatVersion
    requires f != Version
    ensures Get(LoadState(Serialize(s, newEngine), newEngine), f) == Get(s, f)
  {
    var doc := Serialize(s, newEngine);
    WrittenBelowCurrent(s, newEngine);
    LegacyKeysDropped(doc, s, newEngine);
    MigrateKeepsReads(doc, f);
    SameReadsSameProperty(Migrate(doc), doc, f, newEngine);
    SerializeRoundTrip(s, newEngine);
  }

  /** A record that agrees with `s` on every property but `version` is `s` with its version replaced. */
  lemma RestampedRecord(r: Settings.State, s: Settings.State, v: Int32)
    requires r.version == Some(v)
    requires forall f :: f != Version ==> Get(r, f) == Get(s, f)
    ensures r == s.(version := Some(v))
  {
    var t := s.(version := Some(v));
    forall f ensures Get(r, f) == Get(t, f) {
      if f != Version {
        assert Get(r, f) == Get(s, f);
      }
    }
    Extensionality(r, t);
  }

  /**
   * A record without a version, or below the current one (the fresh
   * `State()` among them), loads back from its written form with only the
   * version changed: it is stamped with the current format.
   */
  lemma LoadSerializeStampsOldRecord(s: Settings.State, newEngine: bool)
    requires s.version.None? || s.version.value < RustXmlFormatVersion
    ensures LoadState(Serialize(s, newEngine), newEngine) == s.(version := Some(RustXmlFormatVersion))
  {
    var r := LoadState(Serialize(s, newEngine), newEngine);
    LoadWrittenOldVersion(s, newEngine);
    forall f | f != Version ensures Get(r, f) == Get(s, f) {
      LoadWrittenOldProperty(s, newEngine, f);
    }
    RestampedRecord(r, s, RustXmlFormatVersion);
  }
}
