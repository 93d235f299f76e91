/**
 * Key normalization (`processConf`): the reserved prefix `act.` is stripped
 * from every key, so that framework keys and application keys share one
 * namespace. The order in which the `HashMap` that `processConf` iterates
 * hands out its keys is an explicit input here, so the winner of a collision is determined.
 */
module KeyNormalizer {
  import opened ConfMaps

  /** The reserved key prefix. */
  const ActPrefix: string := "act."

  predicate HasActPrefix(k: string) {
    |k| >= |ActPrefix| && k[..|ActPrefix|] == ActPrefix
  }

  /** A key with its reserved prefix, if any, removed. */
  function Strip(k: string): (s: string)
    ensures HasActPrefix(k) ==> ActPrefix + s == k
    ensures !HasActPrefix(k) ==> s == k
  {
    if HasActPrefix(k) then k[|ActPrefix|..] else k
  }

  /** Two different keys normalize to the same key only when one is the other with the prefix put in front. */
  lemma StripCollision(a: string, b: string)
    requires a != b && Strip(a) == Strip(b)
    ensures (a == ActPrefix + b && !HasActPrefix(b)) || (b == ActPrefix + a && !HasActPrefix(a))
  {
  }

  /** The keys that normalize to an unprefixed key are that key and its prefixed twin. */
  lemma StripPreimage(x: string, k: string)
    requires !HasActPrefix(k)
    ensures Strip(x) == k <==> x == k || x == ActPrefix + k
  {
    var p := ActPrefix + k;
    assert p[..|ActPrefix|] == ActPrefix;
    assert p[|ActPrefix|..] == k;
  }

  /** `order` lists every key of a map exactly once: a possible `keySet()` iteration order. */
  predicate IsKeyOrder(order: seq<string>, keys: set<string>) {
    && (forall k :: k in order ==> k in keys)
    && (forall k :: k in keys ==> k in order)
    && (forall i, j :: 0 <= i < j < |order| ==> order[i] != order[j])
  }

  /**
   * The map `processConf` builds: the keys of `order` are visited in turn and
   * each one's value is put under its stripped key, so a later key overwrites
   * an earlier one that normalizes to the same key.
   */
  function Normalize(conf: Conf, order: seq<string>): Conf
    requires forall k :: k in order ==> k in conf
    decreases |order|
  {
    if order == [] then map[]
    else
      var last := order[|order| - 1];
      Normalize(conf, order[..|order| - 1])[Strip(last) := conf[last]]
  }

  /** The normalized keys are exactly the images of the visited keys. */
  lemma {:induction false} NormalizeKeys(conf: Conf, order: seq<string>)
    requires forall k :: k in order ==> k in conf
    ensures Normalize(conf, order).Keys == set k | k in order :: Strip(k)
    decreases |order|
  {
    if order != [] {
      var n := |order|;
      var front := order[..n - 1];
      NormalizeKeys(conf, front);
      assert order == front + [order[n - 1]];
      assert (set k | k in order :: Strip(k)) == (set k | k in front :: Strip(k)) + {Strip(order[n - 1])};
    }
  }

  /** A visited key whose normalized form no later key shares keeps its value. */
  lemma {:induction false} NormalizeLastWins(conf: Conf, order: seq<string>, i: nat)
    requires forall k :: k in order ==> k in conf
    requires i < |order|
    requires forall j :: i < j < |order| ==> Strip(order[j]) != Strip(order[i])
    ensures Strip(order[i]) in Normalize(conf, order)
    ensures Normalize(conf, order)[Strip(order[i])] == conf[order[i]]
    decreases |order|
  {
    var n := |order|;
    if i < n - 1 {
      var front := order[..n - 1];
      assert front[i] == order[i];
      forall j | i < j < |front| ensures Strip(front[j]) != Strip(front[i]) {
        assert front[j] == order[j];
      }
      NormalizeLastWins(conf, front, i);
    }
  }

  /** Position of a key that occurs in a sequence. */
  function IndexOf(order: seq<string>, k: string): (i: nat)
    requires k in order
    ensures i < |order| && order[i] == k
    ensures forall j :: 0 <= j < i ==> order[j] != k
  {
    if order[0] == k then 0 else 1 + IndexOf(order[1..], k)
  }

  /**
   * When a key and its prefixed twin both occur, the normalized key holds the
   * value of whichever of the two the iteration visits later.
   */
  lemma NormalizeCollision(conf: Conf, order: seq<string>, k: string)
    requires IsKeyOrder(order, conf.Keys)
    requires k in conf && ActPrefix + k in conf && !HasActPrefix(k)
    ensures k in Normalize(conf, order)
    ensures Normalize(conf, order)[k] ==
      if IndexOf(order, k) < IndexOf(order, ActPrefix + k) then conf[ActPrefix + k] else conf[k]
  {
    var p := ActPrefix + k;
    assert p[..|ActPrefix|] == ActPrefix;
    var i, j := IndexOf(order, k), IndexOf(order, p);
    var w := if i < j then j else i;
    StripPreimage(order[w], k);
    forall m | w < m < |order| ensures Strip(order[m]) != Strip(order[w]) {
      StripPreimage(order[m], k);
    }
    NormalizeLastWins(conf, order, w);
  }

  /** A key with no twin under normalization keeps its value, whatever the order. */
  lemma NormalizeNoCollision(conf: Conf, order: seq<string>, k: string)
    requires IsKeyOrder(order, conf.Keys)
    requires k in conf
    requires forall k' :: k' in conf && k' != k ==> Strip(k') != Strip(k)
    ensures Strip(k) in Normalize(conf, order)
    ensures Normalize(conf, order)[Strip(k)] == conf[k]
  {
    var i := IndexOf(order, k);
    NormalizeLastWins(conf, order, i);
  }

  /** A map without prefixed keys is normalized to itself. */
  lemma NormalizeIdentity(conf: Conf, order: seq<string>)
    requires IsKeyOrder(order, conf.Keys)
    requires forall k :: k in conf ==> !HasActPrefix(k)
    ensures Normalize(conf, order) == conf
  {
    var r := Normalize(conf, order);
    NormalizeKeys(conf, order);
    forall k | k in conf ensures k in r && r[k] == conf[k] {
      NormalizeNoCollision(conf, order, k);
    }
  }

  /**
   * `processConf`: a fresh map receives, key by key in iteration order, each
   * value under its stripped key.
   */
  method ProcessConf(conf: Conf, order: seq<string>) returns (m: Conf)
    requires IsKeyOrder(order, conf.Keys)
    ensures m == Normalize(conf, order)
    ensures m.Keys == set k | k in conf :: Strip(k)
  {
    m := map[];
    var i := 0;
    while i < |order|
      invariant 0 <= i <= |order|
      invariant m == Normalize(conf, order[..i])
    {
      var s := order[i];
      var o := conf[s];
      if HasActPrefix(s) {
        s := s[|ActPrefix|..];
      }
      assert order[..i + 1][..i] == order[..i];
      m := m[s := o];
      i := i + 1;
    }
    assert order[..i] == order;
    NormalizeKeys(conf, order);
    assert (set k | k in conf :: Strip(k)) == (set k | k in order :: Strip(k));
  }
}
