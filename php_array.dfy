/**
 * PHP arrays with string keys, as the plugin uses them for embed arguments: an ordered
 * hash map (the keys in insertion order, and the value stored under each key), with
 * PHP's `empty()` and `isset()`, the assignment `$a[k] = v`, and
 * `array_merge($defaults, $args)` (which is what WordPress's `wp_parse_args` does).
 */
module PhpArray {
  import opened Wrappers

  /** A value as it reaches the plugin: a string, or the boolean `false`. */
  datatype Val = Str(s: string) | False

  /** PHP `empty()` on a value: the empty string, the string "0" and `false`. */
  predicate Empty(v: Val) {
    match v
    case False => true
    case Str(s) => s == "" || s == "0"
  }

  /** What PHP's `echo` prints for a value (`false` prints nothing). */
  function Text(v: Val): string {
    match v
    case Str(s) => s
    case False => ""
  }

  /** A PHP array: its keys in insertion order and the value stored under each key. */
  datatype Bag = Bag(keys: seq<string>, values: map<string, Val>)

  /** `array()`. */
  const NoArgs: Bag := Bag([], map[])

  /** No key occurs twice. */
  predicate Distinct(ks: seq<string>) {
    ks == [] || (ks[0] !in ks[1..] && Distinct(ks[1..]))
  }

  /** Every key is listed once, and the listed keys are exactly the keys holding a value. */
  ghost predicate Wf(b: Bag) {
    Distinct(b.keys) && forall k :: k in b.values <==> k in b.keys
  }

  /** `$a[k]`: the value stored under `k`, if any. */
  function Lookup(b: Bag, k: string): Option<Val> {
    if k in b.values then Some(b.values[k]) else None
  }

  /** `isset($a[k])` (no value here is PHP `null`). */
  predicate Has(b: Bag, k: string) {
    k in b.values
  }

  /**
   * `$a[k]` used as a value. A missing key reads as PHP `null`, which every use in the
   * plugin treats exactly as `false` (empty, prints nothing, not identical to a string).
   */
  function Get(b: Bag, k: string): Val {
    Lookup(b, k).GetOr(False)
  }

  /** `empty($a[k])`: true for a missing key too. */
  predicate EmptyAt(b: Bag, k: string) {
    Empty(Get(b, k))
  }

  /** One `$key => $value` pair of a `foreach`. */
  datatype Entry = Entry(key: string, value: Val)

  /** A list without repetition holds different keys at any two positions. */
  lemma {:induction false} DistinctPositions(ks: seq<string>)
    requires Distinct(ks)
    ensures forall i, j :: 0 <= i < j < |ks| ==> ks[i] != ks[j]
  {
    if ks != [] {
      DistinctPositions(ks[1..]);
      forall i, j | 0 <= i < j < |ks|
        ensures ks[i] != ks[j]
      {
        if i == 0 {
          assert ks[j] == ks[1..][j - 1];
        } else {
          assert ks[i] == ks[1..][i - 1] && ks[j] == ks[1..][j - 1];
        }
      }
    }
  }

  /**
   * The pairs a `foreach` visits, in order: one per key, with the value stored under it.
   * In a well-formed array every key holding a value is visited, and no key twice.
   */
  function Entries(b: Bag): (es: seq<Entry>)
    ensures |es| == |b.keys|
    ensures forall i :: 0 <= i < |es| ==> es[i] == Entry(b.keys[i], Get(b, b.keys[i]))
    ensures Wf(b) ==> forall i, j :: 0 <= i < j < |es| ==> es[i].key != es[j].key
    ensures Wf(b) ==> forall k :: k in b.values <==> exists i :: 0 <= i < |es| && es[i].key == k
  {
    assert Wf(b) ==> forall i, j :: 0 <= i < j < |b.keys| ==> b.keys[i] != b.keys[j] by {
      if Wf(b) { DistinctPositions(b.keys); }
    }
    seq(|b.keys|, i requires 0 <= i < |b.keys| => Entry(b.keys[i], Get(b, b.keys[i])))
  }

  lemma {:induction false} DistinctAppend(ks: seq<string>, k: string)
    requires Distinct(ks) && k !in ks
    ensures Distinct(ks + [k])
  {
    if ks != [] {
      DistinctAppend(ks[1..], k);
      assert (ks + [k])[1..] == ks[1..] + [k];
    }
  }

  /** `$a[k] = v`: overwrites in place when `k` is present, appends it last otherwise. */
  function Set(b: Bag, k: string, v: Val): (r: Bag)
    ensures Lookup(r, k) == Some(v)
    ensures forall j :: j != k ==> Lookup(r, j) == Lookup(b, j)
    ensures r.keys == if Has(b, k) then b.keys else b.keys + [k]
    ensures Wf(b) ==> Wf(r) && r.keys == if k in b.keys then b.keys else b.keys + [k]
  {
    assert Wf(b) && k !in b.keys ==> Distinct(b.keys + [k]) by {
      if Wf(b) && k !in b.keys { DistinctAppend(b.keys, k); }
    }
    Bag(if k in b.values then b.keys else b.keys + [k], b.values[k := v])
  }

  /** The keys of `xs`, in order, that `ys` does not hold. */
  function Missing(xs: seq<string>, ys: seq<string>): (r: seq<string>)
    ensures forall x :: x in r <==> x in xs && x !in ys
    ensures Distinct(xs) ==> Distinct(r)
  {
    if xs == [] then []
    else
      var rest := Missing(xs[1..], ys);
      if xs[0] in ys then rest
      else
        assert ([xs[0]] + rest)[1..] == rest;
        [xs[0]] + rest
  }

  /** Two lists without repetition and without a common key concatenate without repetition. */
  lemma {:induction false} DistinctConcat(xs: seq<string>, ys: seq<string>)
    requires Distinct(xs) && Distinct(ys)
    requires forall x :: x in xs ==> x !in ys
    ensures Distinct(xs + ys)
  {
    if xs != [] {
      DistinctConcat(xs[1..], ys);
      assert (xs + ys)[1..] == xs[1..] + ys;
    } else {
      assert xs + ys == ys;
    }
  }

  /**
   * `array_merge(defaults, args)`: every key of `args` wins; the keys of `defaults` come
   * first, in their order, followed by the keys only `args` has, in its order.
   */
  function Merge(defaults: Bag, args: Bag): (r: Bag)
    ensures forall k :: Lookup(r, k) == if Has(args, k) then Lookup(args, k) else Lookup(defaults, k)
    ensures r.keys == defaults.keys + Missing(args.keys, defaults.keys)
    ensures Wf(defaults) && Wf(args) ==> Wf(r)
  {
    var ks := defaults.keys + Missing(args.keys, defaults.keys);
    assert Wf(defaults) && Wf(args) ==> Distinct(ks) by {
      if Wf(defaults) && Wf(args) { DistinctConcat(defaults.keys, Missing(args.keys, defaults.keys)); }
    }
    Bag(ks, defaults.values + args.values)
  }
}
