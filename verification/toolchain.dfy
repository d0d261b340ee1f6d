/**
 * The toolchain descriptor (`RsToolchainBase`) and the external linter choice
 * (`ExternalLinter`), as far as the settings record uses them.
 */
module Toolchain {
  import opened Wrappers

  /** `ExternalLinter`; `DEFAULT` is `CARGO_CHECK`. */
  datatype ExternalLinter = CargoCheck | Clippy

  const DefaultExternalLinter: ExternalLinter := CargoCheck

  /** A resolved toolchain, identified by its installation directory. */
  datatype RsToolchain = RsToolchain(location: string)

  /**
   * The registry that resolves a directory into a toolchain
   * (`RsToolchainProvider.getToolchain`); `None` for a directory it does not recognise.
   */
  type ToolchainProvider = string -> Option<RsToolchain>

  /**
   * `Path.systemIndependentPath`: the host's file separator (`File.separatorChar`,
   * a parameter here) becomes `/`. On a host whose separator is `/` the path is
   * unchanged; on Windows every backslash becomes `/`.
   */
  function SystemIndependentPath(p: string, separator: char): (q: string)
    ensures |q| == |p|
    ensures forall i :: 0 <= i < |p| && p[i] == separator ==> q[i] == '/'
    ensures forall i :: 0 <= i < |p| && p[i] != separator ==> q[i] == p[i]
    ensures separator != '/' ==> forall i :: 0 <= i < |q| ==> q[i] != separator
    ensures separator == '/' ==> q == p
  {
    if |p| == 0 then ""
    else [if p[0] == separator then '/' else p[0]] + SystemIndependentPath(p[1..], separator)
  }

  /** A path already in system-independent form is left alone. */
  lemma SystemIndependentPathIdempotent(p: string, separator: char)
    ensures SystemIndependentPath(SystemIndependentPath(p, separator), separator) == SystemIndependentPath(p, separator)
  {
    var q := SystemIndependentPath(p, separator);
    var r := SystemIndependentPath(q, separator);
    assert forall i :: 0 <= i < |r| ==> r[i] == q[i];
  }
}
