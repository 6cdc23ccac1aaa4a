/**
 * The histogram registry, as the analysis tasks see it: a sink that accepts
 * named fills. Each call `registry.fill(name, values...)` appends one `Fill`;
 * axis definitions and binning belong to the framework and are not modelled.
 */
module Histograms {
  datatype Fill = Fill(name: string, values: seq<real>)

  /** Number of fills into the histogram called `name`. */
  function CountNamed(fills: seq<Fill>, name: string): (n: nat)
    ensures n <= |fills|
    ensures n == 0 <==> forall k :: 0 <= k < |fills| ==> fills[k].name != name
  {
    if fills == [] then 0
    else CountNamed(fills[..|fills| - 1], name) + (if fills[|fills| - 1].name == name then 1 else 0)
  }

  lemma {:induction false} CountNamedAppend(a: seq<Fill>, b: seq<Fill>, name: string)
    ensures CountNamed(a + b, name) == CountNamed(a, name) + CountNamed(b, name)
    decreases |b|
  {
    if b == [] {
      assert a + b == a;
    } else {
      var last := |b| - 1;
      assert (a + b)[..|a + b| - 1] == a + b[..last];
      CountNamedAppend(a, b[..last], name);
    }
  }

  /** A single fill counts once for its own name and for no other. */
  lemma CountNamedSingle(f: Fill, name: string)
    ensures CountNamed([f], name) == if f.name == name then 1 else 0
  {
    assert [f][..0] == [];
  }

  /** Among fills with pairwise distinct names, each name is counted once. */
  lemma {:induction false} CountNamedDistinct(fills: seq<Fill>, j: int)
    requires 0 <= j < |fills|
    requires forall a, b :: 0 <= a < b < |fills| ==> fills[a].name != fills[b].name
    ensures CountNamed(fills, fills[j].name) == 1
    decreases |fills|
  {
    var init := fills[..|fills| - 1];
    if j < |fills| - 1 {
      assert init[j] == fills[j];
      CountNamedDistinct(init, j);
    } else {
      forall k | 0 <= k < |init|
        ensures init[k].name != fills[j].name
      {
        assert init[k] == fills[k];
      }
    }
  }
}
