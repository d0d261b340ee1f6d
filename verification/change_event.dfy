/**
 * `RustSettingsChangedEvent`: the pair of snapshots a settings change
 * publishes, and what it reports about which properties changed.
 * The reflective property lists of the source become fixed tables, with a
 * lemma that they are exactly the properties carrying each annotation.
 */
module ChangeEvent {
  import Settings
  import opened Properties

  datatype RustSettingsChangedEvent = RustSettingsChangedEvent(oldState: Settings.State, newState: Settings.State)

  /** `isChanged(prop)`: the property reads differently in the two snapshots. */
  predicate IsChanged(e: RustSettingsChangedEvent, f: Field)
    ensures IsChanged(e, f) ==> e.oldState != e.newState
  {
    Get(e.oldState, f) != Get(e.newState, f)
  }

  /** `cargoMetadataAffectingProps`. */
  const CargoMetadataAffectingProps: seq<Field> := [ToolchainHomeDirectory, ExplicitPathToStdlib]

  /** `highlightingAffectingProps`. */
  const HighlightingAffectingProps: seq<Field> :=
    [ExternalLinter, RunExternalLinterOnTheFly, ExternalLinterArguments, CompileAllTargets, DoctestInjectionEnabled]

  /** The fixed tables hold exactly the properties carrying each annotation. */
  lemma TablesMatchAnnotations()
    ensures forall f :: f in CargoMetadataAffectingProps <==> TagOf(f) == AffectsCargoMetadataTag
    ensures forall f :: f in HighlightingAffectingProps <==> TagOf(f) == AffectsHighlightingTag
  {
    forall f
      ensures f in CargoMetadataAffectingProps <==> TagOf(f) == AffectsCargoMetadataTag
      ensures f in HighlightingAffectingProps <==> TagOf(f) == AffectsHighlightingTag
    {
      match f
      case ToolchainHomeDirectory => assert CargoMetadataAffectingProps[0] == f;
      case ExplicitPathToStdlib => assert CargoMetadataAffectingProps[1] == f;
      case ExternalLinter => assert HighlightingAffectingProps[0] == f;
      case RunExternalLinterOnTheFly => assert HighlightingAffectingProps[1] == f;
      case ExternalLinterArguments => assert HighlightingAffectingProps[2] == f;
      case CompileAllTargets => assert HighlightingAffectingProps[3] == f;
      case DoctestInjectionEnabled => assert HighlightingAffectingProps[4] == f;
      case _ =>
    }
  }

  /** `props.any(::isChanged)`. */
  function AnyChanged(e: RustSettingsChangedEvent, fs: seq<Field>): (r: bool)
    ensures r <==> exists i :: 0 <= i < |fs| && IsChanged(e, fs[i])
  {
    if |fs| == 0 then false
    else IsChanged(e, fs[0]) || AnyChanged(e, fs[1..])
  }

  /** `affectsCargoMetadata`. */
  function AffectsCargoMetadata(e: RustSettingsChangedEvent): (r: bool)
    ensures r <==> (e.oldState.toolchainHomeDirectory != e.newState.toolchainHomeDirectory
                    || e.oldState.explicitPathToStdlib != e.newState.explicitPathToStdlib)
  {
    var fs := CargoMetadataAffectingProps;
    assert fs[0] == ToolchainHomeDirectory && fs[1] == ExplicitPathToStdlib;
    AnyChanged(e, fs)
  }

  /** `affectsHighlighting`. */
  function AffectsHighlighting(e: RustSettingsChangedEvent): (r: bool)
    ensures r <==> (e.oldState.externalLinter != e.newState.externalLinter
                    || e.oldState.runExternalLinterOnTheFly != e.newState.runExternalLinterOnTheFly
                    || e.oldState.externalLinterArguments != e.newState.externalLinterArguments
                    || e.oldState.compileAllTargets != e.newState.compileAllTargets
                    || e.oldState.doctestInjectionEnabled != e.newState.doctestInjectionEnabled)
  {
    var fs := HighlightingAffectingProps;
    assert fs[0] == ExternalLinter && fs[1] == RunExternalLinterOnTheFly && fs[2] == ExternalLinterArguments;
    assert fs[3] == CompileAllTargets && fs[4] == DoctestInjectionEnabled;
    AnyChanged(e, fs)
  }

  /** Both flags in terms of the annotations: some property with that tag changed. */
  lemma FlagsFollowTags(e: RustSettingsChangedEvent)
    ensures AffectsCargoMetadata(e) <==> exists f :: TagOf(f) == AffectsCargoMetadataTag && IsChanged(e, f)
    ensures AffectsHighlighting(e) <==> exists f :: TagOf(f) == AffectsHighlightingTag && IsChanged(e, f)
  {
    TablesMatchAnnotations();
    var cs, hs := CargoMetadataAffectingProps, HighlightingAffectingProps;
    if AffectsCargoMetadata(e) {
      var i :| 0 <= i < |cs| && IsChanged(e, cs[i]);
      assert TagOf(cs[i]) == AffectsCargoMetadataTag;
    }
    if exists f :: TagOf(f) == AffectsCargoMetadataTag && IsChanged(e, f) {
      var f :| TagOf(f) == AffectsCargoMetadataTag && IsChanged(e, f);
      var i :| 0 <= i < |cs| && cs[i] == f;
    }
    if AffectsHighlighting(e) {
      var i :| 0 <= i < |hs| && IsChanged(e, hs[i]);
      assert TagOf(hs[i]) == AffectsHighlightingTag;
    }
    if exists f :: TagOf(f) == AffectsHighlightingTag && IsChanged(e, f) {
      var f :| TagOf(f) == AffectsHighlightingTag && IsChanged(e, f);
      var i :| 0 <= i < |hs| && hs[i] == f;
    }
  }

  /** Swapping the snapshots changes nothing about which properties differ. */
  lemma IsChangedSymmetric(a: Settings.State, b: Settings.State, f: Field)
    ensures IsChanged(RustSettingsChangedEvent(a, b), f) == IsChanged(RustSettingsChangedEvent(b, a), f)
    ensures AffectsCargoMetadata(RustSettingsChangedEvent(a, b)) == AffectsCargoMetadata(RustSettingsChangedEvent(b, a))
    ensures AffectsHighlighting(RustSettingsChangedEvent(a, b)) == AffectsHighlighting(RustSettingsChangedEvent(b, a))
  {
  }

  /** No property is reported changed exactly when the two snapshots are equal. */
  lemma NothingChangedIffEqual(e: RustSettingsChangedEvent)
    ensures (forall f :: !IsChanged(e, f)) <==> e.oldState == e.newState
  {
    Extensionality(e.oldState, e.newState);
    if forall f :: !IsChanged(e, f) {
      assert forall f :: Get(e.oldState, f) == Get(e.newState, f) by {
        forall f ensures Get(e.oldState, f) == Get(e.newState, f) {
          assert !IsChanged(e, f);
        }
      }
    }
  }

  /** A change confined to untagged properties raises neither flag. */
  lemma UntaggedChangeIsQuiet(e: RustSettingsChangedEvent)
    requires forall f :: IsChanged(e, f) ==> TagOf(f) == Untagged
    ensures !AffectsCargoMetadata(e) && !AffectsHighlighting(e)
  {
    FlagsFollowTags(e);
  }

  /** Changing one property raises the flag of its tag and no other. */
  lemma SinglePropertyChange(s: Settings.State, f: Field, v: Value)
    requires Fits(f, v) && v != Get(s, f)
    ensures IsChanged(RustSettingsChangedEvent(s, Set(s, f, v)), f)
    ensures AffectsCargoMetadata(RustSettingsChangedEvent(s, Set(s, f, v))) <==> TagOf(f) == AffectsCargoMetadataTag
    ensures AffectsHighlighting(RustSettingsChangedEvent(s, Set(s, f, v))) <==> TagOf(f) == AffectsHighlightingTag
  {
    var e := RustSettingsChangedEvent(s, Set(s, f, v));
    SetThenGet(s, f, v);
    FlagsFollowTags(e);
    assert forall g :: IsChanged(e, g) <==> g == f;
  }

  /** Assigning the `toolchain` property can invalidate cargo metadata but never highlighting. */
  lemma ToolchainChangeAffectsOnlyMetadata(s: Settings.State, t: Wrappers.Option<Toolchain.RsToolchain>, separator: char)
    ensures var e := RustSettingsChangedEvent(s, Settings.WithToolchain(s, t, separator));
      && !AffectsHighlighting(e)
      && (AffectsCargoMetadata(e) <==> s.toolchainHomeDirectory != e.newState.toolchainHomeDirectory)
  {
  }
}
