/**
 * Raw configuration maps and the last-writer-wins merge of an ordered stack
 * of them (`Map.putAll` applied layer after layer).
 */
module ConfMaps {

  /** A raw configuration: key to value, as a `java.util.Properties` holds it. */
  type Conf = map<string, string>

  /** A value that may be absent (a Java `null`). */
  datatype Option<+T> = None | Some(value: T)

  /**
   * Merge a precedence stack, lowest priority first: every layer is put over
   * the merge of the layers before it.
   */
  function MergeLayers(layers: seq<Conf>): Conf
    decreases |layers|
  {
    if layers == [] then map[]
    else MergeLayers(layers[..|layers| - 1]) + layers[|layers| - 1]
  }

  /** The merge holds exactly the union of the layers' keys. */
  lemma {:induction false} MergeLayersKeys(layers: seq<Conf>, k: string)
    ensures k in MergeLayers(layers) <==> exists i :: 0 <= i < |layers| && k in layers[i]
    decreases |layers|
  {
    if layers != [] {
      var n := |layers|;
      var front := layers[..n - 1];
      MergeLayersKeys(front, k);
      if k in MergeLayers(front) {
        var i :| 0 <= i < |front| && k in front[i];
        assert layers[i] == front[i];
      }
      if exists i :: 0 <= i < n && k in layers[i] {
        var i :| 0 <= i < n && k in layers[i];
        if i < n - 1 {
          assert front[i] == layers[i];
        }
      }
    }
  }

  /** The value of a key comes from the last layer that defines it. */
  lemma {:induction false} MergeLayersLastWins(layers: seq<Conf>, i: nat, k: string)
    requires i < |layers| && k in layers[i]
    requires forall j :: i < j < |layers| ==> k !in layers[j]
    ensures k in MergeLayers(layers) && MergeLayers(layers)[k] == layers[i][k]
    decreases |layers|
  {
    var n := |layers|;
    if i < n - 1 {
      var front := layers[..n - 1];
      assert front[i] == layers[i];
      forall j | i < j < |front| ensures k !in front[j] {
        assert front[j] == layers[j];
      }
      MergeLayersLastWins(front, i, k);
    }
  }

  /** Merging a stack split in two is merging the merge of each half. */
  lemma {:induction false} MergeLayersAppend(a: seq<Conf>, b: seq<Conf>)
    ensures MergeLayers(a + b) == MergeLayers(a) + MergeLayers(b)
    decreases |b|
  {
    if b == [] {
      assert a + b == a;
    } else {
      var n := |b|;
      assert (a + b)[..|a + b| - 1] == a + b[..n - 1];
      MergeLayersAppend(a, b[..n - 1]);
    }
  }
}
