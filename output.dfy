/**
 * `SBB_Output`: the embed markup of Shopify Buy Buttons and carts on one page.
 * The object remembers the page's first shop and whether the Shopify loader script
 * was printed; `get_button` and `get_cart` build an argument array and hand it to
 * `get_embed`, which resolves the shop and prints a `div` with `data-*` attributes.
 *
 * The pure functions `Embedded`, `Step` and `Render` describe what the object does;
 * the class `Output` does it in place and is proved to agree with them.
 */
module Output {
  import opened Wrappers
  import opened PhpArray
  import opened Attributes
  import opened Shop
  import opened EmbedArgs

  /** The script that loads Shopify's embed client, printed after the first embed only. */
  const LoaderScript: string :=
    "<script type=\"text/javascript\"> document.getElementById('ShopifyEmbedScript') || "
    + "document.write('<script type=\"text/javascript\" "
    + "src=\"https://widgets.shopifyapps.com/assets/widgets/embed/client.js\" "
    + "id=\"ShopifyEmbedScript\"><\\/script>'); </script>"

  /** The embed's `div`: its class names the embed type, its attributes carry the arguments. */
  function Div(embedType: string, attributes: string): string {
    "<div class=\"sbb-embed sbb-embed-" + embedType + "\"" + attributes + "></div>"
  }

  /** One embed as printed: its final arguments, and whether the loader script follows it. */
  datatype Fragment = Fragment(args: Bag, loader: bool)

  /** The markup of a fragment. */
  function Html(f: Fragment): string {
    Div(Text(Get(f.args, "embed_type")), DataAttributes(f.args)) + (if f.loader then LoaderScript else "")
  }

  /** The markup ends with the loader script. */
  predicate HasLoader(html: string) {
    |LoaderScript| <= |html| && html[|html| - |LoaderScript|..] == LoaderScript
  }

  /** The loader script can be told from the markup alone: a `div` never ends like it. */
  lemma LoaderDetectable(f: Fragment)
    ensures HasLoader(Html(f)) <==> f.loader
  {
    var d := Div(Text(Get(f.args, "embed_type")), DataAttributes(f.args));
    if f.loader {
      assert (d + LoaderScript)[|d|..] == LoaderScript;
    } else {
      assert Html(f) == d;
      assert d[|d| - 2] == 'v';
      assert LoaderScript[|LoaderScript| - 2] == 't';
    }
  }

  /** What `get_embed` prints and leaves behind, for the page state before it. */
  function Embedded(args: Bag, st: PageState): (o: (Fragment, PageState))
    ensures o.1.jsAdded
    ensures o.0.loader <==> !st.jsAdded
    ensures ValidShop(st.shop) ==> ValidShop(o.1.shop)
    ensures o.0.args == ResolveShop(args, st.shop, st.savedShop).args
  {
    var r := ResolveShop(args, st.shop, st.savedShop);
    (Fragment(r.args, !st.jsAdded), PageState(r.shop, true, r.savedShop))
  }

  /** A call the page makes: `get_button($args)` or `get_cart($args)`. */
  datatype Request = Button(args: Bag) | Cart(args: Bag)

  /** What one call prints (`None` when `get_button` returns nothing) and the state after it. */
  datatype Outcome = Outcome(output: Option<Fragment>, state: PageState)

  /** One call, `defs` being the default arrays built from the appearance settings. */
  function Step(st: PageState, req: Request, defs: Defaults): (o: Outcome)
    requires Sound(defs)
    // a button is suppressed exactly when the caller gave no shop or no handle; a cart never is
    ensures req.Button? ==> (o.output.None? <==> EmptyAt(req.args, "shop") || EmptyAt(req.args, "product_handle"))
    ensures req.Cart? ==> o.output.Some?
    // a suppressed button changes nothing
    ensures o.output.None? ==> o.state == st
    // a printed embed carries the loader exactly when none was printed before, and marks it printed
    ensures o.output.Some? ==> o.state.jsAdded && (o.output.value.loader <==> !st.jsAdded)
    ensures ValidShop(st.shop) ==> ValidShop(o.state.shop)
  {
    match req
    case Button(args) =>
      var b := ButtonArgs(args, defs.button);
      if b.None? then Outcome(None, st)
      else
        var (f, st') := Embedded(b.value, st);
        Outcome(Some(f), st')
    case Cart(args) =>
      var (f, st') := Embedded(CartArgs(args, defs.cart), st);
      Outcome(Some(f), st')
  }

  /** A page: what each call printed, in order, and the state after the last. */
  datatype Page = Page(outputs: seq<Option<Fragment>>, state: PageState)

  /** The calls of a page, one after the other, from state `st`. */
  function Render(st: PageState, reqs: seq<Request>, defs: Defaults): (p: Page)
    requires Sound(defs)
    ensures |p.outputs| == |reqs|
    // the loader is marked printed exactly when it was before the page or some call printed an embed
    ensures p.state.jsAdded <==> st.jsAdded || exists i :: 0 <= i < |reqs| && p.outputs[i].Some?
    ensures ValidShop(st.shop) ==> ValidShop(p.state.shop)
  {
    if reqs == [] then Page([], st)
    else
      var before := Render(st, reqs[..|reqs| - 1], defs);
      var o := Step(before.state, reqs[|reqs| - 1], defs);
      var outputs := before.outputs + [o.output];
      assert forall i :: 0 <= i < |reqs| - 1 ==> outputs[i] == before.outputs[i];
      assert outputs[|reqs| - 1] == o.output;
      Page(outputs, o.state)
  }

  lemma {:induction false} RenderPrefix(st: PageState, reqs: seq<Request>, defs: Defaults, n: nat)
    requires Sound(defs)
    requires n <= |reqs|
    ensures Render(st, reqs[..n], defs).outputs == Render(st, reqs, defs).outputs[..n]
    decreases |reqs|
  {
    if n < |reqs| {
      assert reqs[..|reqs| - 1][..n] == reqs[..n];
      RenderPrefix(st, reqs[..|reqs| - 1], defs, n);
    } else {
      assert reqs[..n] == reqs;
    }
  }

  /**
   * The embed at position `i` carries the loader script exactly when the page had not
   * printed it before and no earlier call printed an embed.
   */
  lemma {:induction false} LoaderOnlyInFirstEmbed(st: PageState, reqs: seq<Request>, defs: Defaults, i: nat)
    requires Sound(defs)
    requires i < |reqs|
    ensures var outs := Render(st, reqs, defs).outputs;
      outs[i].Some? ==> (outs[i].value.loader <==> !st.jsAdded && forall j :: 0 <= j < i ==> outs[j].None?)
  {
    var outs := Render(st, reqs, defs).outputs;
    var before := Render(st, reqs[..i], defs);
    var at := Render(st, reqs[..i + 1], defs);
    RenderPrefix(st, reqs, defs, i);
    RenderPrefix(st, reqs, defs, i + 1);
    assert reqs[..i + 1][..i] == reqs[..i];
    assert at.outputs[i] == Step(before.state, reqs[i], defs).output;
    assert outs[i] == at.outputs[i];
    assert forall j :: 0 <= j < i ==> before.outputs[j] == outs[j];
  }

  /** However many embeds a page prints, at most one markup string ends with the loader script. */
  lemma LoaderAtMostOnce(st: PageState, reqs: seq<Request>, defs: Defaults, i: nat, j: nat)
    requires Sound(defs)
    requires i < j < |reqs|
    ensures var outs := Render(st, reqs, defs).outputs;
      !(outs[i].Some? && outs[j].Some? && HasLoader(Html(outs[i].value)) && HasLoader(Html(outs[j].value)))
  {
    var outs := Render(st, reqs, defs).outputs;
    if outs[i].Some? && outs[j].Some? {
      LoaderDetectable(outs[i].value);
      LoaderDetectable(outs[j].value);
      LoaderOnlyInFirstEmbed(st, reqs, defs, j);
    }
  }

  /** The non-empty shop a call brings to `handle_shop`, if it prints anything. */
  function ExplicitShop(req: Request, defs: Defaults): Option<string> {
    match req
    case Button(args) =>
      if EmptyAt(args, "shop") || EmptyAt(args, "product_handle") then None else Some(Text(Get(args, "shop")))
    case Cart(args) =>
      var shop := Get(CartArgs(args, defs.cart), "shop");
      if Empty(shop) then None else Some(Text(shop))
  }

  /** The first explicit shop among the calls. */
  function FirstShop(reqs: seq<Request>, defs: Defaults): Option<string> {
    if reqs == [] then None
    else
      var earlier := FirstShop(reqs[..|reqs| - 1], defs);
      if earlier.Some? then earlier else ExplicitShop(reqs[|reqs| - 1], defs)
  }

  /** One call stores the explicit shop it brings, and only into an empty page. */
  lemma StepShop(st: PageState, req: Request, defs: Defaults)
    requires Sound(defs)
    requires ValidShop(st.shop)
    ensures var o := Step(st, req, defs);
      && (st.shop.Some? ==> o.state.shop == st.shop && o.state.savedShop == st.savedShop)
      && (st.shop.None? && ExplicitShop(req, defs).Some? ==>
            o.state.shop == ExplicitShop(req, defs) && o.state.savedShop == ExplicitShop(req, defs).value)
      && (st.shop.None? && ExplicitShop(req, defs).None? ==> o.state.shop == None && o.state.savedShop == st.savedShop)
  {
    match req
    case Button(args) =>
      var b := ButtonArgs(args, defs.button);
      if b.Some? {
        assert Get(b.value, "shop") == Get(args, "shop");
        EmbeddedShop(b.value, st);
      }
    case Cart(args) =>
      EmbeddedShop(CartArgs(args, defs.cart), st);
  }

  /** `get_embed` stores the non-empty shop of its arguments into an empty page, and only there. */
  lemma EmbeddedShop(args: Bag, st: PageState)
    requires ValidShop(st.shop)
    ensures var st' := Embedded(args, st).1;
      && (st.shop.Some? ==> st'.shop == st.shop && st'.savedShop == st.savedShop)
      && (st.shop.None? && !EmptyAt(args, "shop") ==>
            st'.shop == Some(Text(Get(args, "shop"))) && st'.savedShop == Text(Get(args, "shop")))
      && (st.shop.None? && EmptyAt(args, "shop") ==> st'.shop == None && st'.savedShop == st.savedShop)
  {
  }

  /**
   * The page's shop, and the saved `sbb_shop` option, end up as the first shop any printed
   * embed gave explicitly; a page that already had a shop keeps it and leaves the option alone.
   */
  lemma {:induction false} PageShopIsFirstExplicitShop(st: PageState, reqs: seq<Request>, defs: Defaults)
    requires Sound(defs)
    requires ValidShop(st.shop)
    ensures var p := Render(st, reqs, defs);
      && (st.shop.Some? ==> p.state.shop == st.shop && p.state.savedShop == st.savedShop)
      && (st.shop.None? ==> p.state.shop == FirstShop(reqs, defs))
      && (st.shop.None? && FirstShop(reqs, defs).Some? ==> p.state.savedShop == FirstShop(reqs, defs).value)
      && (st.shop.None? && FirstShop(reqs, defs).None? ==> p.state.savedShop == st.savedShop)
  {
    if reqs != [] {
      var prefix := reqs[..|reqs| - 1];
      PageShopIsFirstExplicitShop(st, prefix, defs);
      StepShop(Render(st, prefix, defs).state, reqs[|reqs| - 1], defs);
    }
  }

  /** A button without a shop prints nothing, even on a page that already has a shop. */
  lemma ButtonWithoutShopSuppressed(st: PageState, args: Bag, defs: Defaults)
    requires Sound(defs)
    requires EmptyAt(args, "shop")
    ensures Step(st, Button(args), defs) == Outcome(None, st)
  {
  }

  /** A printed collection always opens in a modal, so its redirect is never coerced to checkout. */
  lemma CollectionNeverCoerced(st: PageState, args: Bag, defs: Defaults)
    requires Sound(defs)
    requires IsCollection(args)
    ensures var o := Step(st, Button(args), defs);
      o.output.Some? ==>
        && Lookup(o.output.value.args, "redirect_to") == Some(Str("modal"))
        && Lookup(o.output.value.args, "product_modal") == Some(Str("true"))
        && Lookup(o.output.value.args, "collection_handle") == Lookup(args, "product_handle")
  {
  }

  /** A printed button keeps the shop its caller gave. */
  lemma ButtonKeepsOwnShop(st: PageState, args: Bag, defs: Defaults)
    requires Sound(defs)
    ensures var o := Step(st, Button(args), defs);
      o.output.Some? ==> Get(o.output.value.args, "shop") == Get(args, "shop")
  {
  }

  /**
   * A cart is forced to type `cart` and sticky; without a caller's redirect none is added,
   * and a caller's redirect to `cart` is coerced like a button's.
   */
  lemma CartForcedAndRedirect(st: PageState, args: Bag, defs: Defaults)
    requires Sound(defs)
    ensures var o := Step(st, Cart(args), defs);
      && Lookup(o.output.value.args, "embed_type") == Some(Str("cart"))
      && Lookup(o.output.value.args, "sticky") == Some(Str("true"))
      && (!Has(args, "redirect_to") ==> !Has(o.output.value.args, "redirect_to"))
      // a caller's `redirect_to` of `cart` is coerced to `checkout` when the cart's shop is not the page's
      && (Get(args, "redirect_to") == Str("cart") && Differs(Get(o.output.value.args, "shop"), o.state.shop) ==>
            Lookup(o.output.value.args, "redirect_to") == Some(Str("checkout")))
  {
  }

  /** The object behind a page: the first shop, the loader flag and the `sbb_shop` option. */
  class Output {
    var shop: Option<string>
    var jsAdded: bool
    var savedShop: string

    /** A stored shop is never empty. */
    ghost predicate Valid()
      reads this
    {
      ValidShop(shop)
    }

    /** The page state the object holds. */
    function State(): PageState
      reads this
    {
      PageState(shop, jsAdded, savedShop)
    }

    /** A fresh object for a page, with the `sbb_shop` option as saved. */
    constructor(saved: string)
      ensures State() == PageState(None, false, saved)
      ensures Valid()
    {
      shop := None;
      jsAdded := false;
      savedShop := saved;
    }

    /** `array_to_data_attributes`: the pairs with a non-empty value, in the array's order. */
    method ArrayToDataAttributes(args: Bag) returns (attributes: string)
      ensures attributes == DataAttributes(args)
      ensures attributes == Pairs(Shown(Entries(args)))
      ensures args.keys == [] ==> attributes == ""
    {
      attributes := "";
      for i := 0 to |args.keys|
        invariant attributes == AppendAll(Entries(args)[..i])
      {
        var key := args.keys[i];
        var value := Get(args, key);
        assert Entries(args)[..i + 1][..i] == Entries(args)[..i];
        if !Empty(value) {
          var pair := " data-" + key + "=\"" + Text(value) + "\"";
          attributes := attributes + pair;
        }
      }
      assert Entries(args)[..|args.keys|] == Entries(args);
      AppendAllIsShownPairs(Entries(args));
    }

    /** `handle_shop`: resolves the embed's shop and its redirect, storing the first shop. */
    method HandleShop(args: Bag) returns (resolved: Bag)
      modifies this
      ensures var r := ResolveShop(args, old(shop), old(savedShop));
        resolved == r.args && shop == r.shop && savedShop == r.savedShop
      ensures jsAdded == old(jsAdded)
      ensures old(Valid()) ==> Valid()
    {
      resolved := args;
      if EmptyAt(args, "shop") {
        resolved := Set(resolved, "shop", Str(if StoredEmpty(shop) then savedShop else shop.value));
      } else if StoredEmpty(shop) {
        shop := Some(Text(Get(args, "shop")));
        savedShop := shop.value;
      }
      if Differs(Get(resolved, "shop"), shop) && Get(resolved, "redirect_to") == Str("cart") {
        resolved := Set(resolved, "redirect_to", Str("checkout"));
      }
    }

    /** `get_embed`: the embed's markup, followed by the loader script on the first embed only. */
    method GetEmbed(args: Bag) returns (html: string)
      modifies this
      ensures var (f, st) := Embedded(args, old(State()));
        html == Html(f) && State() == st
      ensures old(Valid()) ==> Valid()
    {
      var resolved := HandleShop(args);
      var attributes := ArrayToDataAttributes(resolved);
      html := Div(Text(Get(resolved, "embed_type")), attributes);
      if !jsAdded {
        html := html + LoaderScript;
        jsAdded := true;
      }
    }

    /** `get_button`: nothing, without touching the object, for a button without shop or handle. */
    method GetButton(args: Bag, app: Appearance) returns (html: Option<string>)
      modifies this
      ensures (DefaultsSound(app);
        var o := Step(old(State()), Button(args), DefaultsOf(app));
        && html == (if o.output.Some? then Some(Html(o.output.value)) else None)
        && State() == o.state)
      ensures html.None? ==> unchanged(this)
      ensures old(Valid()) ==> Valid()
    {
      DefaultsSound(app);
      var b := ButtonArgs(args, ButtonDefaults(app));
      if b.None? {
        return None;
      }
      var markup := GetEmbed(b.value);
      html := Some(markup);
    }

    /** `get_cart`: the cart embed, never suppressed. */
    method GetCart(args: Bag, app: Appearance) returns (html: string)
      modifies this
      ensures (DefaultsSound(app);
        var o := Step(old(State()), Cart(args), DefaultsOf(app));
        html == Html(o.output.value) && State() == o.state)
      ensures old(Valid()) ==> Valid()
    {
      html := GetEmbed(CartArgs(args, CartDefaults(app)));
    }
  }
}
