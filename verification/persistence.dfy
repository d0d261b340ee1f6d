/**
 * The persisted form of `State`: the `<option name="…" value="…"/>`
 * children of the settings element, modelled as a sequence of name/value
 * pairs. Writing emits one option per property that differs from its
 * default, in ascending name order; reading applies the options in order,
 * ignoring names that are not properties and values that cannot be read.
 */
module Persistence {
  import opened Wrappers
  import opened Decimal
  import opened Lexicographic
  import Toolchain
  import Settings
  import opened Properties

  datatype XmlOption = XmlOption(name: string, value: string)

  type Document = seq<XmlOption>

  /** The option name of a property: the Kotlin property name. */
  function Name(f: Field): string {
    match f
    case Version => "version"
    case ToolchainHomeDirectory => "toolchainHomeDirectory"
    case AutoShowErrorsInEditor => "autoShowErrorsInEditor"
    case AutoUpdateEnabled => "autoUpdateEnabled"
    case ExplicitPathToStdlib => "explicitPathToStdlib"
    case ExternalLinter => "externalLinter"
    case RunExternalLinterOnTheFly => "runExternalLinterOnTheFly"
    case ExternalLinterArguments => "externalLinterArguments"
    case CompileAllTargets => "compileAllTargets"
    case UseOffline => "useOffline"
    case MacroExpansionEngine => "macroExpansionEngine"
    case DoctestInjectionEnabled => "doctestInjectionEnabled"
  }

  /** First character and length of each name: enough to tell the names apart. */
  function NameKey(f: Field): (char, int) {
    match f
    case Version => ('v', 7)
    case ToolchainHomeDirectory => ('t', 22)
    case AutoShowErrorsInEditor => ('a', 22)
    case AutoUpdateEnabled => ('a', 17)
    case ExplicitPathToStdlib => ('e', 20)
    case ExternalLinter => ('e', 14)
    case RunExternalLinterOnTheFly => ('r', 25)
    case ExternalLinterArguments => ('e', 23)
    case CompileAllTargets => ('c', 17)
    case UseOffline => ('u', 10)
    case MacroExpansionEngine => ('m', 20)
    case DoctestInjectionEnabled => ('d', 23)
  }

  lemma NameHasKey(f: Field)
    ensures |Name(f)| > 0 && (Name(f)[0], |Name(f)|) == NameKey(f)
  {
  }

  /** Distinct properties have distinct names. */
  lemma NamesDistinct(f: Field, g: Field)
    ensures Name(f) == Name(g) <==> f == g
  {
    NameHasKey(f);
    NameHasKey(g);
  }

  /** The property an option name denotes, if any. */
  function FieldNamed(n: string): (r: Option<Field>)
    ensures r.Some? ==> Name(r.value) == n
  {
    if n == "version" then Some(Version)
    else if n == "toolchainHomeDirectory" then Some(ToolchainHomeDirectory)
    else if n == "autoShowErrorsInEditor" then Some(AutoShowErrorsInEditor)
    else if n == "autoUpdateEnabled" then Some(AutoUpdateEnabled)
    else if n == "explicitPathToStdlib" then Some(ExplicitPathToStdlib)
    else if n == "externalLinter" then Some(ExternalLinter)
    else if n == "runExternalLinterOnTheFly" then Some(RunExternalLinterOnTheFly)
    else if n == "externalLinterArguments" then Some(ExternalLinterArguments)
    else if n == "compileAllTargets" then Some(CompileAllTargets)
    else if n == "useOffline" then Some(UseOffline)
    else if n == "macroExpansionEngine" then Some(MacroExpansionEngine)
    else if n == "doctestInjectionEnabled" then Some(DoctestInjectionEnabled)
    else None
  }

  /** Every property is found again under its own name, and by no other. */
  lemma FieldNamedName(f: Field)
    ensures FieldNamed(Name(f)) == Some(f)
    ensures forall g :: Name(g) == Name(f) ==> g == f
  {
    forall g | Name(g) == Name(f) ensures g == f {
      NamesDistinct(f, g);
    }
    FieldNamedFinds(f);
  }

  /**
   * Each property's name finds that property. The twelve cases are proved in
   * four groups of three only to keep each proof obligation small.
   */
  lemma FieldNamedFinds(f: Field)
    ensures FieldNamed(Name(f)) == Some(f)
  {
    if f in {Version, ToolchainHomeDirectory, AutoShowErrorsInEditor} {
      FieldNamedFindsFirst(f);
    } else if f in {AutoUpdateEnabled, ExplicitPathToStdlib, ExternalLinter} {
      FieldNamedFindsSecond(f);
    } else if f in {RunExternalLinterOnTheFly, ExternalLinterArguments, CompileAllTargets} {
      FieldNamedFindsThird(f);
    } else {
      FieldNamedFindsFourth(f);
    }
  }

  lemma FieldNamedFindsFirst(f: Field)
    requires f in {Version, ToolchainHomeDirectory, AutoShowErrorsInEditor}
    ensures FieldNamed(Name(f)) == Some(f)
  {
    match f
    case Version =>
    case ToolchainHomeDirectory =>
    case AutoShowErrorsInEditor =>
  }

  lemma FieldNamedFindsSecond(f: Field)
    requires f in {AutoUpdateEnabled, ExplicitPathToStdlib, ExternalLinter}
    ensures FieldNamed(Name(f)) == Some(f)
  {
    match f
    case AutoUpdateEnabled =>
    case ExplicitPathToStdlib =>
    case ExternalLinter =>
  }

  lemma FieldNamedFindsThird(f: Field)
    requires f in {RunExternalLinterOnTheFly, ExternalLinterArguments, CompileAllTargets}
    ensures FieldNamed(Name(f)) == Some(f)
  {
    match f
    case RunExternalLinterOnTheFly =>
    case ExternalLinterArguments =>
    case CompileAllTargets =>
  }

  lemma FieldNamedFindsFourth(f: Field)
    requires f in {UseOffline, MacroExpansionEngine, DoctestInjectionEnabled}
    ensures FieldNamed(Name(f)) == Some(f)
  {
    match f
    case UseOffline =>
    case MacroExpansionEngine =>
    case DoctestInjectionEnabled =>
  }

  /** A string that is no property's name (by first character or length) names no property. */
  lemma NotAName(n: string)
    requires |n| > 0 && forall f :: NameKey(f) != (n[0], |n|)
    ensures FieldNamed(n).None?
  {
    forall f ensures Name(f) != n {
      NameHasKey(f);
    }
  }

  /** The properties in the order their options are written. */
  const FieldsByName: seq<Field> := [
    AutoShowErrorsInEditor, AutoUpdateEnabled, CompileAllTargets, DoctestInjectionEnabled,
    ExplicitPathToStdlib, ExternalLinter, ExternalLinterArguments, MacroExpansionEngine,
    RunExternalLinterOnTheFly, ToolchainHomeDirectory, UseOffline, Version]

  function FieldNames(fs: seq<Field>): (ns: seq<string>)
    ensures |ns| == |fs| && forall i :: 0 <= i < |fs| ==> ns[i] == Name(fs[i])
  {
    seq(|fs|, i requires 0 <= i < |fs| => Name(fs[i]))
  }

  function OptionNames(doc: Document): (ns: seq<string>)
    ensures |ns| == |doc| && forall i :: 0 <= i < |doc| ==> ns[i] == doc[i].name
  {
    seq(|doc|, i requires 0 <= i < |doc| => doc[i].name)
  }

  /** Each name among the first seven is below the next one; the index is where they first differ. */
  lemma FieldNamesAdjacentLow()
    ensures forall i :: 0 <= i < 6 ==> Less(FieldNames(FieldsByName)[i], FieldNames(FieldsByName)[i + 1])
  {
    var ns := FieldNames(FieldsByName);
    LessAt(ns[0], ns[1], 4);
    LessAt(ns[1], ns[2], 0);
    LessAt(ns[2], ns[3], 0);
    LessAt(ns[3], ns[4], 0);
    LessAt(ns[4], ns[5], 2);
    LessAt(ns[5], ns[6], 14);
  }

  lemma FieldNamesAdjacentHigh()
    ensures forall i :: 6 <= i < 11 ==> Less(FieldNames(FieldsByName)[i], FieldNames(FieldsByName)[i + 1])
  {
    var ns := FieldNames(FieldsByName);
    LessAt(ns[6], ns[7], 0);
    LessAt(ns[7], ns[8], 0);
    LessAt(ns[8], ns[9], 0);
    LessAt(ns[9], ns[10], 0);
    LessAt(ns[10], ns[11], 0);
  }

  /** The written order lists every property once, by ascending name. */
  lemma FieldsByNameAscending()
    ensures StrictlyAscending(FieldNames(FieldsByName))
    ensures forall f :: f in FieldsByName
  {
    FieldNamesAdjacentLow();
    FieldNamesAdjacentHigh();
    AdjacentAscending(FieldNames(FieldsByName));
    AllFieldsComplete();
    assert forall f :: f in AllFields ==> f in FieldsByName;
  }

  /** `ExternalLinter.toString()`, the form its option value takes. */
  function LinterText(l: Toolchain.ExternalLinter): string {
    match l
    case CargoCheck => "Cargo Check"
    case Clippy => "Clippy"
  }

  /** `MacroExpansionEngine.name`. */
  function EngineText(e: Settings.MacroExpansionEngine): string {
    match e
    case Disabled => "DISABLED"
    case Old => "OLD"
    case New => "NEW"
  }

  /** Values that have a text form: every value except `null`. */
  predicate Printable(v: Value) {
    !(v.IntValue? && v.i.None?) && !(v.PathValue? && v.p.None?)
  }

  /**
   * The option value written for a property value. `null` has no text form
   * and is never written, being the default of both nullable properties;
   * it maps to the empty string here only to keep the function total.
   */
  function Print(v: Value): string {
    match v
    case IntValue(i) => if i.Some? then IntToString(i.value) else ""
    case PathValue(p) => p.GetOr("")
    case BoolValue(b) => if b then "true" else "false"
    case LinterValue(l) => LinterText(l)
    case TextValue(t) => t
    case EngineValue(e) => EngineText(e)
  }

  /** Reads an option value as property `f`; `None` when the text is not a value of its type. */
  function ParseValue(f: Field, t: string): (r: Option<Value>)
    ensures r.Some? ==> Fits(f, r.value) && Printable(r.value)
  {
    match f
    case Version =>
      (match ParseInt32(t)
       case None => None
       case Some(i) => Some(IntValue(Some(i))))
    case ToolchainHomeDirectory | ExplicitPathToStdlib => Some(PathValue(Some(t)))
    case ExternalLinter =>
      if t == "Clippy" then Some(LinterValue(Toolchain.Clippy))
      else if t == "Cargo Check" then Some(LinterValue(Toolchain.CargoCheck))
      else None
    case ExternalLinterArguments => Some(TextValue(t))
    case MacroExpansionEngine =>
      if t == "DISABLED" then Some(EngineValue(Settings.Disabled))
      else if t == "OLD" then Some(EngineValue(Settings.Old))
      else if t == "NEW" then Some(EngineValue(Settings.New))
      else None
    case _ =>
      if t == "true" then Some(BoolValue(true))
      else if t == "false" then Some(BoolValue(false))
      else None
  }

  /** Every non-null value is read back from the text written for it. */
  lemma PrintParse(f: Field, v: Value)
    requires Fits(f, v) && Printable(v)
    ensures ParseValue(f, Print(v)) == Some(v)
  {
    if f == Version {
      ParseIntToString(v.i.value);
    }
  }

  /** Apart from integers, the text of a readable value is exactly what is written back for it. */
  lemma ParsePrint(f: Field, t: string)
    requires f != Version && ParseValue(f, t).Some?
    ensures Print(ParseValue(f, t).value) == t
  {
  }

  predicate IsDefault(s: Settings.State, f: Field, newEngine: bool) {
    Get(s, f) == Get(Settings.DefaultState(newEngine), f)
  }

  function OptionFor(s: Settings.State, f: Field): XmlOption {
    XmlOption(Name(f), Print(Get(s, f)))
  }

  /** The options for the non-default properties among `fs`, in the order of `fs`. */
  function SerializeFields(s: Settings.State, newEngine: bool, fs: seq<Field>): Document {
    if |fs| == 0 then []
    else (if IsDefault(s, fs[0], newEngine) then [] else [OptionFor(s, fs[0])]) + SerializeFields(s, newEngine, fs[1..])
  }

  /** The options written for `fs` are those of its non-default properties. */
  lemma {:induction false} SerializeFieldsContents(s: Settings.State, newEngine: bool, fs: seq<Field>)
    ensures forall o :: o in SerializeFields(s, newEngine, fs) ==>
      exists f :: f in fs && !IsDefault(s, f, newEngine) && o == OptionFor(s, f)
    ensures forall f :: f in fs && !IsDefault(s, f, newEngine) ==> OptionFor(s, f) in SerializeFields(s, newEngine, fs)
    decreases |fs|
  {
    if |fs| > 0 {
      SerializeFieldsContents(s, newEngine, fs[1..]);
      assert forall f :: f in fs <==> f == fs[0] || f in fs[1..];
    }
  }

  /** The first of an ascending list of properties is named below every option written for the rest. */
  lemma HeadNameLeast(s: Settings.State, newEngine: bool, fs: seq<Field>)
    requires |fs| > 0 && StrictlyAscending(FieldNames(fs))
    ensures forall o :: o in SerializeFields(s, newEngine, fs[1..]) ==> Less(Name(fs[0]), o.name)
  {
    var tail := fs[1..];
    SerializeFieldsContents(s, newEngine, tail);
    forall o | o in SerializeFields(s, newEngine, tail) ensures Less(Name(fs[0]), o.name) {
      var f :| f in tail && o == OptionFor(s, f);
      var m :| 0 <= m < |tail| && tail[m] == f;
      assert Less(FieldNames(fs)[0], FieldNames(fs)[m + 1]);
    }
  }

  lemma {:induction false} SerializeFieldsAscending(s: Settings.State, newEngine: bool, fs: seq<Field>)
    requires StrictlyAscending(FieldNames(fs))
    ensures StrictlyAscending(OptionNames(SerializeFields(s, newEngine, fs)))
    decreases |fs|
  {
    if |fs| > 0 {
      var tail := fs[1..];
      assert FieldNames(tail) == FieldNames(fs)[1..];
      SerializeFieldsAscending(s, newEngine, tail);
      var rest := SerializeFields(s, newEngine, tail);
      var doc := SerializeFields(s, newEngine, fs);
      if !IsDefault(s, fs[0], newEngine) {
        HeadNameLeast(s, newEngine, fs);
        assert forall j :: 0 <= j < |rest| ==> rest[j] in rest;
        AscendingCons(Name(fs[0]), OptionNames(rest));
        assert OptionNames(doc) == [Name(fs[0])] + OptionNames(rest);
      } else {
        assert doc == rest;
      }
    }
  }

  /**
   * The option list written for `s` (`getState`): exactly one option for each
   * property that differs from its default, written as its text, with the
   * names strictly ascending.
   */
  function Serialize(s: Settings.State, newEngine: bool): (doc: Document)
    ensures StrictlyAscending(OptionNames(doc))
    ensures forall o :: o in doc ==> FieldNamed(o.name).Some?
    ensures forall o :: o in doc ==> exists f :: !IsDefault(s, f, newEngine) && o == OptionFor(s, f)
    ensures forall f :: !IsDefault(s, f, newEngine) ==> OptionFor(s, f) in doc
  {
    FieldsByNameAscending();
    SerializeFieldsAscending(s, newEngine, FieldsByName);
    SerializeFieldsContents(s, newEngine, FieldsByName);
    OptionNamesAreFields(s);
    SerializeFields(s, newEngine, FieldsByName)
  }

  lemma OptionNamesAreFields(s: Settings.State)
    ensures forall f :: FieldNamed(OptionFor(s, f).name).Some?
  {
    forall f ensures FieldNamed(OptionFor(s, f).name).Some? {
      FieldNamedName(f);
    }
  }

  /** Two non-empty documents with strictly ascending names and the same options start alike. */
  lemma AscendingSameHead(a: Document, b: Document)
    requires StrictlyAscending(OptionNames(a)) && StrictlyAscending(OptionNames(b))
    requires forall o :: o in a <==> o in b
    requires |a| > 0 && |b| > 0
    ensures a[0] == b[0]
  {
    if a[0] != b[0] {
      assert a[0] in a && b[0] in b;
      var j :| 0 <= j < |b| && b[j] == a[0];
      var i :| 0 <= i < |a| && a[i] == b[0];
      assert Less(OptionNames(b)[0], OptionNames(b)[j]);
      assert Less(OptionNames(a)[0], OptionNames(a)[i]);
      LessTransitive(a[0].name, b[0].name, a[0].name);
      LessIrreflexive(a[0].name);
    }
  }

  /** Dropping the common first option of such documents leaves the same options on both sides. */
  lemma AscendingSameTail(a: Document, b: Document, o: XmlOption)
    requires StrictlyAscending(OptionNames(a)) && StrictlyAscending(OptionNames(b))
    requires forall p :: p in a <==> p in b
    requires |a| > 0 && |b| > 0 && a[0] == b[0]
    requires o in a[1..]
    ensures o in b[1..]
  {
    var i :| 1 <= i < |a| && a[i] == o;
    AscendingDistinct(OptionNames(a), 0, i);
    assert o in a;
    var k :| 0 <= k < |b| && b[k] == o;
    assert k != 0 && b[1..][k - 1] == o;
  }

  /** Two documents with strictly ascending names and the same options are the same document. */
  lemma {:induction false} AscendingUnique(a: Document, b: Document)
    requires StrictlyAscending(OptionNames(a)) && StrictlyAscending(OptionNames(b))
    requires forall o :: o in a <==> o in b
    ensures a == b
    decreases |a|
  {
    if |a| > 0 || |b| > 0 {
      assert |a| > 0 && |b| > 0 by {
        if |a| > 0 {
          assert a[0] in b;
        }
        if |b| > 0 {
          assert b[0] in a;
        }
      }
      AscendingSameHead(a, b);
      forall o ensures o in a[1..] <==> o in b[1..] {
        if o in a[1..] {
          AscendingSameTail(a, b, o);
        }
        if o in b[1..] {
          AscendingSameTail(b, a, o);
        }
      }
      assert OptionNames(a[1..]) == OptionNames(a)[1..];
      assert OptionNames(b[1..]) == OptionNames(b)[1..];
      AscendingUnique(a[1..], b[1..]);
    }
  }

  /**
   * The written form is canonical: any document with strictly ascending
   * names holding exactly the options of the non-default properties of `s`
   * is the one `Serialize` writes.
   */
  lemma SerializeDeterminedByContract(s: Settings.State, newEngine: bool, doc: Document)
    requires StrictlyAscending(OptionNames(doc))
    requires forall o :: o in doc ==> exists f :: !IsDefault(s, f, newEngine) && o == OptionFor(s, f)
    requires forall f :: !IsDefault(s, f, newEngine) ==> OptionFor(s, f) in doc
    ensures doc == Serialize(s, newEngine)
  {
    AscendingUnique(doc, Serialize(s, newEngine));
  }

  /** One option read into the record (one `<option>` child of the persisted element). */
  function ApplyOption(s: Settings.State, o: XmlOption): Settings.State {
    match FieldNamed(o.name)
    case None => s
    case Some(f) =>
      match ParseValue(f, o.value)
      case None => s
      case Some(v) => Set(s, f, v)
  }

  /** The options read into `s` one after another; a later option overrides an earlier one. */
  function DeserializeInto(s: Settings.State, doc: Document): Settings.State
    decreases |doc|
  {
    if |doc| == 0 then s
    else ApplyOption(DeserializeInto(s, doc[..|doc| - 1]), doc[|doc| - 1])
  }

  /** An option named after a property, with a readable value, assigns that property. */
  lemma ApplyPropertyOption(s: Settings.State, f: Field, t: string)
    requires ParseValue(f, t).Some?
    ensures ApplyOption(s, XmlOption(Name(f), t)) == Set(s, f, ParseValue(f, t).value)
  {
    FieldNamedName(f);
  }

  /** Reading one more option of a document continues from the record its prefix gave. */
  lemma DeserializeIntoStep(s: Settings.State, doc: Document, k: nat)
    requires k < |doc|
    ensures DeserializeInto(s, doc[..k + 1]) == ApplyOption(DeserializeInto(s, doc[..k]), doc[k])
  {
    assert doc[..k + 1][..k] == doc[..k];
  }

  /** Reading an option for property `f` after a prefix assigns `f` in the record the prefix gave. */
  lemma DeserializeIntoPropertyStep(s: Settings.State, doc: Document, k: nat, before: Settings.State, f: Field, t: string)
    requires k < |doc| && DeserializeInto(s, doc[..k]) == before
    requires doc[k] == XmlOption(Name(f), t) && ParseValue(f, t).Some?
    ensures DeserializeInto(s, doc[..k + 1]) == Set(before, f, ParseValue(f, t).value)
  {
    DeserializeIntoStep(s, doc, k);
    ApplyPropertyOption(before, f, t);
  }

  /** A fresh record with the options read into it. */
  function Deserialize(doc: Document, newEngine: bool): Settings.State {
    DeserializeInto(Settings.DefaultState(newEngine), doc)
  }

  /** The value of the last option named after `f` whose text reads as a value of `f`. */
  function LastReadable(doc: Document, f: Field): (r: Option<Value>)
    ensures r.Some? ==> Fits(f, r.value) && Printable(r.value)
    decreases |doc|
  {
    if |doc| == 0 then None
    else
      var o := doc[|doc| - 1];
      if o.name == Name(f) && ParseValue(f, o.value).Some? then ParseValue(f, o.value)
      else LastReadable(doc[..|doc| - 1], f)
  }

  /** Reading one option changes property `f` exactly when the option names `f` with a readable value. */
  lemma ApplyOptionReads(x: Settings.State, o: XmlOption, f: Field)
    ensures Get(ApplyOption(x, o), f)
         == if o.name == Name(f) && ParseValue(f, o.value).Some? then ParseValue(f, o.value).value else Get(x, f)
  {
    FieldNamedName(f);
    match FieldNamed(o.name)
    case None =>
    case Some(g) =>
      if ParseValue(g, o.value).Some? {
        SetThenGet(x, g, ParseValue(g, o.value).value);
      }
  }

  /** Reading: each property holds the last readable option for it, or what it held before. */
  lemma {:induction false} DeserializeIntoReads(s: Settings.State, doc: Document, f: Field)
    ensures Get(DeserializeInto(s, doc), f) == LastReadable(doc, f).GetOr(Get(s, f))
    decreases |doc|
  {
    if |doc| > 0 {
      var prefix := doc[..|doc| - 1];
      DeserializeIntoReads(s, prefix, f);
      ApplyOptionReads(DeserializeInto(s, prefix), doc[|doc| - 1], f);
    }
  }

  /**
   * Each property of a read document is the last readable option for it,
   * and a property without one keeps its declared default.
   */
  lemma DeserializeReads(doc: Document, newEngine: bool, f: Field)
    ensures Get(Deserialize(doc, newEngine), f)
         == LastReadable(doc, f).GetOr(Get(Settings.DefaultState(newEngine), f))
    ensures (forall o :: o in doc ==> o.name != Name(f))
         ==> IsDefault(Deserialize(doc, newEngine), f, newEngine)
  {
    DeserializeIntoReads(Settings.DefaultState(newEngine), doc, f);
    if forall o :: o in doc ==> o.name != Name(f) {
      LastReadableAbsent(doc, f);
    }
  }

  lemma {:induction false} LastReadableAbsent(doc: Document, f: Field)
    requires forall o :: o in doc ==> o.name != Name(f)
    ensures LastReadable(doc, f).None?
    decreases |doc|
  {
    if |doc| > 0 {
      var prefix := doc[..|doc| - 1];
      assert forall o :: o in prefix ==> o in doc;
      LastReadableAbsent(prefix, f);
    }
  }

  lemma {:induction false} LastReadableUnique(doc: Document, f: Field, k: int)
    requires 0 <= k < |doc| && doc[k].name == Name(f)
    requires forall j :: 0 <= j < |doc| && j != k ==> doc[j].name != Name(f)
    ensures LastReadable(doc, f) == ParseValue(f, doc[k].value)
    decreases |doc|
  {
    var prefix := doc[..|doc| - 1];
    if k == |doc| - 1 {
      assert forall o :: o in prefix ==> o.name != Name(f);
      LastReadableAbsent(prefix, f);
    } else {
      LastReadableUnique(prefix, f, k);
    }
  }

  /** In a concatenation the options of the second part override those of the first. */
  lemma {:induction false} LastReadableAppend(a: Document, b: Document, f: Field)
    ensures LastReadable(a + b, f) == if LastReadable(b, f).Some? then LastReadable(b, f) else LastReadable(a, f)
    decreases |b|
  {
    if |b| == 0 {
      assert a + b == a;
    } else {
      assert (a + b)[..|a + b| - 1] == a + b[..|b| - 1];
      LastReadableAppend(a, b[..|b| - 1], f);
    }
  }

  /** A readable option for `f` that no later option names decides `f`. */
  lemma LastReadableOverride(head: Document, t: XmlOption, tail: Document, f: Field)
    requires t.name == Name(f) && ParseValue(f, t.value).Some?
    requires forall p :: p in tail ==> p.name != Name(f)
    ensures LastReadable(head + [t] + tail, f) == ParseValue(f, t.value)
  {
    LastReadableAbsent(tail, f);
    LastReadableAppend(head + [t], tail, f);
    assert (head + [t])[..|head + [t]| - 1] == head;
  }

  /** Writing a record and reading it back into a fresh record gives the same record. */
  lemma SerializeRoundTrip(s: Settings.State, newEngine: bool)
    ensures Deserialize(Serialize(s, newEngine), newEngine) == s
  {
    var doc := Serialize(s, newEngine);
    var r := Deserialize(doc, newEngine);
    forall f ensures Get(r, f) == Get(s, f) {
      DeserializeReads(doc, newEngine, f);
      FieldNamedName(f);
      if IsDefault(s, f, newEngine) {
        forall o | o in doc ensures o.name != Name(f) {
          var g :| !IsDefault(s, g, newEngine) && o == OptionFor(s, g);
        }
        LastReadableAbsent(doc, f);
      } else {
        var k :| 0 <= k < |doc| && doc[k] == OptionFor(s, f);
        forall j | 0 <= j < |doc| && j != k ensures doc[j].name != Name(f) {
          AscendingDistinct(OptionNames(doc), j, k);
        }
        LastReadableUnique(doc, f, k);
        PrintParse(f, Get(s, f));
      }
    }
    Extensionality(r, s);
  }

  /** A document written by `Serialize` is reproduced exactly by reading and writing it again. */
  lemma CanonicalDocumentRoundTrip(s: Settings.State, newEngine: bool)
    ensures var doc := Serialize(s, newEngine); Serialize(Deserialize(doc, newEngine), newEngine) == doc
  {
    SerializeRoundTrip(s, newEngine);
  }

  /** Nothing is written exactly for the default record. */
  lemma SerializeEmptyIffDefault(s: Settings.State, newEngine: bool)
    ensures Serialize(s, newEngine) == [] <==> s == Settings.DefaultState(newEngine)
  {
    var doc, d := Serialize(s, newEngine), Settings.DefaultState(newEngine);
    if doc == [] {
      forall f ensures Get(s, f) == Get(d, f) {
        assert OptionFor(s, f) !in doc;
      }
      Extensionality(s, d);
    } else {
      assert doc[0] in doc;
      var g :| !IsDefault(s, g, newEngine) && doc[0] == OptionFor(s, g);
      assert Get(s, g) != Get(d, g);
    }
  }

  /** No option of a written record names a property left at its default. */
  lemma DefaultNotWritten(s: Settings.State, newEngine: bool, f: Field)
    requires IsDefault(s, f, newEngine)
    ensures forall o :: o in Serialize(s, newEngine) ==> o.name != Name(f)
  {
    forall o | o in Serialize(s, newEngine) ensures o.name != Name(f) {
      var g :| !IsDefault(s, g, newEngine) && o == OptionFor(s, g);
      NamesDistinct(g, f);
    }
  }

  /**
   * An engine equal to the writer's default is not written, so the reader
   * falls back to its own default: a record on the new engine written with
   * the new-engine flag set is read on the old engine when the flag is clear.
   */
  lemma DefaultEngineFollowsReader(s: Settings.State, writerFlag: bool, readerFlag: bool)
    requires s.macroExpansionEngine == Settings.DefaultMacroExpansionEngine(writerFlag)
    ensures forall o :: o in Serialize(s, writerFlag) ==> o.name != Name(MacroExpansionEngine)
    ensures Deserialize(Serialize(s, writerFlag), readerFlag).macroExpansionEngine
         == Settings.DefaultMacroExpansionEngine(readerFlag)
  {
    DefaultNotWritten(s, writerFlag, MacroExpansionEngine);
    EngineReadAbsent(Serialize(s, writerFlag), readerFlag);
  }

  /** A document with a readable engine option is read, before any version upgrade, with the last one. */
  lemma EngineReadLast(doc: Document, readerFlag: bool)
    requires LastReadable(doc, MacroExpansionEngine).Some?
    ensures LastReadable(doc, MacroExpansionEngine) == Some(EngineValue(Deserialize(doc, readerFlag).macroExpansionEngine))
  {
    var r := Deserialize(doc, readerFlag);
    assert Get(r, MacroExpansionEngine) == EngineValue(r.macroExpansionEngine);
    DeserializeIntoReads(Settings.DefaultState(readerFlag), doc, MacroExpansionEngine);
  }

  /** A document without an engine option is read, before any version upgrade, with the reader's default engine. */
  lemma EngineReadAbsent(doc: Document, readerFlag: bool)
    requires forall o :: o in doc ==> o.name != Name(MacroExpansionEngine)
    ensures Deserialize(doc, readerFlag).macroExpansionEngine == Settings.DefaultMacroExpansionEngine(readerFlag)
  {
    var r := Deserialize(doc, readerFlag);
    assert Get(r, MacroExpansionEngine) == EngineValue(r.macroExpansionEngine);
    LastReadableAbsent(doc, MacroExpansionEngine);
    DeserializeIntoReads(Settings.DefaultState(readerFlag), doc, MacroExpansionEngine);
  }

  /** The option of a non-default property is the only option of a written record naming it. */
  lemma NonDefaultWrittenOnce(s: Settings.State, newEngine: bool, f: Field)
    requires !IsDefault(s, f, newEngine)
    ensures LastReadable(Serialize(s, newEngine), f) == Some(Get(s, f))
  {
    var doc := Serialize(s, newEngine);
    var k :| 0 <= k < |doc| && doc[k] == OptionFor(s, f);
    forall j | 0 <= j < |doc| && j != k ensures doc[j].name != Name(f) {
      AscendingDistinct(OptionNames(doc), j, k);
    }
    LastReadableUnique(doc, f, k);
    PrintParse(f, Get(s, f));
  }

  /**
   * An engine other than the writer's default is written under its enum name
   * and read back whatever the reader's flag; `DISABLED` is never a default,
   * so it is always written.
   */
  lemma NonDefaultEngineWritten(s: Settings.State, writerFlag: bool)
    requires s.macroExpansionEngine != Settings.DefaultMacroExpansionEngine(writerFlag)
    ensures XmlOption(Name(MacroExpansionEngine), EngineText(s.macroExpansionEngine)) in Serialize(s, writerFlag)
    ensures forall readerFlag: bool :: Deserialize(Serialize(s, writerFlag), readerFlag).macroExpansionEngine == s.macroExpansionEngine
  {
    assert OptionFor(s, MacroExpansionEngine) == XmlOption(Name(MacroExpansionEngine), EngineText(s.macroExpansionEngine));
    NonDefaultEngineOption(s, writerFlag);
    forall readerFlag: bool ensures Deserialize(Serialize(s, writerFlag), readerFlag).macroExpansionEngine == s.macroExpansionEngine {
      NonDefaultEngineReadBack(s, writerFlag, readerFlag);
    }
  }

  /** A non-default engine's option is among the written options. */
  lemma NonDefaultEngineOption(s: Settings.State, writerFlag: bool)
    requires s.macroExpansionEngine != Settings.DefaultMacroExpansionEngine(writerFlag)
    ensures OptionFor(s, MacroExpansionEngine) in Serialize(s, writerFlag)
  {
    assert !IsDefault(s, MacroExpansionEngine, writerFlag);
  }

  /** A non-default engine is read back from the written document under the given reader flag. */
  lemma NonDefaultEngineReadBack(s: Settings.State, writerFlag: bool, readerFlag: bool)
    requires s.macroExpansionEngine != Settings.DefaultMacroExpansionEngine(writerFlag)
    ensures Deserialize(Serialize(s, writerFlag), readerFlag).macroExpansionEngine == s.macroExpansionEngine
  {
    assert !IsDefault(s, MacroExpansionEngine, writerFlag);
    NonDefaultWrittenOnce(s, writerFlag, MacroExpansionEngine);
    EngineReadLast(Serialize(s, writerFlag), readerFlag);
  }

  /** A disabled engine is written as `DISABLED` under either flag. */
  lemma DisabledEngineWritten(s: Settings.State, writerFlag: bool)
    requires s.macroExpansionEngine == Settings.Disabled
    ensures XmlOption("macroExpansionEngine", "DISABLED") in Serialize(s, writerFlag)
  {
    assert !IsDefault(s, MacroExpansionEngine, writerFlag);
    assert OptionFor(s, MacroExpansionEngine) == XmlOption("macroExpansionEngine", "DISABLED");
  }
}
