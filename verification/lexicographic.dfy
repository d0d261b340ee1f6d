/**
 * The order of `String.compareTo`: character by character, and a proper
 * prefix before any longer string. Option names are written in this order.
 */
module Lexicographic {

  predicate Less(a: string, b: string)
    decreases |a|
  {
    if |a| == 0 then |b| > 0
    else if |b| == 0 then false
    else if a[0] != b[0] then a[0] < b[0]
    else Less(a[1..], b[1..])
  }

  lemma {:induction false} LessIrreflexive(a: string)
    ensures !Less(a, a)
    decreases |a|
  {
    if |a| > 0 {
      LessIrreflexive(a[1..]);
    }
  }

  lemma {:induction false} LessTransitive(a: string, b: string, c: string)
    requires Less(a, b) && Less(b, c)
    ensures Less(a, c)
    decreases |a|
  {
    if |a| > 0 && a[0] == b[0] && b[0] == c[0] {
      LessTransitive(a[1..], b[1..], c[1..]);
    }
  }

  /** `a` comes before `b` when they agree on the first `k` characters and then `a` ends or is smaller. */
  lemma {:induction false} LessAt(a: string, b: string, k: nat)
    requires k <= |a| && k <= |b| && a[..k] == b[..k]
    requires (k == |a| && k < |b|) || (k < |a| && k < |b| && a[k] < b[k])
    ensures Less(a, b)
    decreases k
  {
    if k > 0 {
      assert a[0] == a[..k][0] == b[..k][0] == b[0];
      assert a[1..][..k - 1] == a[..k][1..] == b[..k][1..] == b[1..][..k - 1];
      LessAt(a[1..], b[1..], k - 1);
    }
  }

  /** Every name comes strictly before every later one: ascending and free of repeats. */
  predicate StrictlyAscending(names: seq<string>) {
    forall i, j :: 0 <= i < j < |names| ==> Less(names[i], names[j])
  }

  /** Checking neighbours is enough, by transitivity. */
  lemma {:induction false} AdjacentAscending(names: seq<string>)
    requires forall i :: 0 <= i < |names| - 1 ==> Less(names[i], names[i + 1])
    ensures StrictlyAscending(names)
    decreases |names|
  {
    if |names| > 1 {
      var tail := names[1..];
      assert forall i :: 0 <= i < |tail| ==> tail[i] == names[i + 1];
      AdjacentAscending(tail);
      forall i, j | 0 <= i < j < |names|
        ensures Less(names[i], names[j])
      {
        if i > 0 {
          assert names[i] == tail[i - 1] && names[j] == tail[j - 1];
        } else if j > 1 {
          assert names[1] == tail[0] && names[j] == tail[j - 1];
          LessTransitive(names[0], names[1], names[j]);
        }
      }
    }
  }

  /** A name below every name of an ascending list can be put in front of it. */
  lemma AscendingCons(head: string, tail: seq<string>)
    requires StrictlyAscending(tail)
    requires forall j :: 0 <= j < |tail| ==> Less(head, tail[j])
    ensures StrictlyAscending([head] + tail)
  {
    var names := [head] + tail;
    forall i, j | 0 <= i < j < |names| ensures Less(names[i], names[j]) {
      if i > 0 {
        assert names[i] == tail[i - 1] && names[j] == tail[j - 1];
      }
    }
  }

  /** In a strictly ascending sequence no name occurs twice. */
  lemma AscendingDistinct(names: seq<string>, i: int, j: int)
    requires StrictlyAscending(names)
    requires 0 <= i < |names| && 0 <= j < |names| && i != j
    ensures names[i] != names[j]
  {
    if i < j {
      LessIrreflexive(names[i]);
    } else {
      LessIrreflexive(names[j]);
    }
  }
}
