/**
 * `array_to_data_attributes`: the `data-*` attribute string of an embed.
 * `esc_html` and `esc_attr` are modelled as the identity.
 */
module Attributes {
  import opened PhpArray

  /** ` data-KEY="VALUE"` for one pair. */
  function Pair(e: Entry): string {
    " data-" + e.key + "=\"" + Text(e.value) + "\""
  }

  /** What one pass of the loop appends: the pair, or nothing for an empty value. */
  function Attribute(e: Entry): string {
    if Empty(e.value) then "" else Pair(e)
  }

  /** The string the loop builds over `es`: each pass appends after what the earlier ones built. */
  function AppendAll(es: seq<Entry>): string {
    if es == [] then "" else AppendAll(es[..|es| - 1]) + Attribute(es[|es| - 1])
  }

  /** The attribute string of an argument array, in the array's order. */
  function DataAttributes(b: Bag): string {
    AppendAll(Entries(b))
  }

  /** The pairs whose value is not empty, in their order. */
  function Shown(es: seq<Entry>): (r: seq<Entry>)
    ensures forall e :: e in r <==> e in es && !Empty(e.value)
    ensures |r| <= |es|
  {
    if es == [] then []
    else (if Empty(es[0].value) then [] else [es[0]]) + Shown(es[1..])
  }

  /** The pairs of `es`, concatenated from the front. */
  function Pairs(es: seq<Entry>): string {
    if es == [] then "" else Pair(es[0]) + Pairs(es[1..])
  }

  lemma {:induction false} PairsAppend(a: seq<Entry>, b: seq<Entry>)
    ensures Pairs(a + b) == Pairs(a) + Pairs(b)
  {
    if a != [] {
      assert (a + b)[1..] == a[1..] + b;
      PairsAppend(a[1..], b);
    } else {
      assert a + b == b;
    }
  }

  lemma {:induction false} ShownAppend(a: seq<Entry>, b: seq<Entry>)
    ensures Shown(a + b) == Shown(a) + Shown(b)
  {
    if a != [] {
      assert (a + b)[1..] == a[1..] + b;
      ShownAppend(a[1..], b);
    } else {
      assert a + b == b;
    }
  }

  /**
   * The loop's string is the in-order concatenation of ` data-KEY="VALUE"` for exactly
   * the pairs whose value is not empty.
   */
  lemma {:induction false} AppendAllIsShownPairs(es: seq<Entry>)
    ensures AppendAll(es) == Pairs(Shown(es))
  {
    if es != [] {
      var init, last := es[..|es| - 1], es[|es| - 1];
      assert es == init + [last];
      AppendAllIsShownPairs(init);
      ShownAppend(init, [last]);
      assert Shown([last]) == (if Empty(last.value) then [] else [last]) by {
        assert [last][1..] == [];
      }
      PairsAppend(Shown(init), Shown([last]));
      assert Pairs([last]) == Pair(last) by {
        assert [last][1..] == [];
      }
    }
  }

  /** Building over a concatenation gives the concatenation of the two strings. */
  lemma {:induction false} AppendAllConcat(a: seq<Entry>, b: seq<Entry>)
    ensures AppendAll(a + b) == AppendAll(a) + AppendAll(b)
  {
    AppendAllIsShownPairs(a);
    AppendAllIsShownPairs(b);
    AppendAllIsShownPairs(a + b);
    ShownAppend(a, b);
    PairsAppend(Shown(a), Shown(b));
  }

  /** Empty values (`''`, `'0'`, `false`) contribute nothing; in particular `array()` gives `''`. */
  lemma {:induction false} EmptyValuesContributeNothing(es: seq<Entry>)
    requires forall i :: 0 <= i < |es| ==> Empty(es[i].value)
    ensures AppendAll(es) == ""
  {
    if es != [] {
      EmptyValuesContributeNothing(es[..|es| - 1]);
    }
  }

  /** Setting a key to an empty value in place leaves the attribute string as it was. */
  lemma {:induction false} EmptyValueIsInvisible(b: Bag, k: string, v: Val)
    requires Wf(b) && Has(b, k) && EmptyAt(b, k) && Empty(v)
    ensures DataAttributes(Set(b, k, v)) == DataAttributes(b)
  {
    var es, es' := Entries(b), Entries(Set(b, k, v));
    assert Shown(es') == Shown(es) by {
      ShownSame(es, es');
    }
    AppendAllIsShownPairs(es);
    AppendAllIsShownPairs(es');
  }

  lemma {:induction false} ShownSame(es: seq<Entry>, es': seq<Entry>)
    requires |es| == |es'|
    requires forall i :: 0 <= i < |es| ==> es[i] == es'[i] || (es[i].key == es'[i].key && Empty(es[i].value) && Empty(es'[i].value))
    ensures Shown(es) == Shown(es')
  {
    if es != [] {
      ShownSame(es[1..], es'[1..]);
    }
  }
}
