/**
 * The argument sets of `get_button` and `get_cart`: forced rewrites, defaulting with
 * `wp_parse_args` (caller keys win) and the suppression of an embed without shop or handle.
 * The `sbb_product_output_args` and `sbb_cart_output_args` filters are the identity.
 */
module EmbedArgs {
  import opened Wrappers
  import opened PhpArray

  /** The `shopify_buy_button_appearance` settings, read-only here. */
  type Appearance = map<string, Val>

  /** `cmb2_get_option('shopify_buy_button_appearance', field)`: `false` when unset. */
  function Setting(app: Appearance, field: string): Val {
    if field in app then app[field] else False
  }

  /** `substr(x, 1)`: drops the leading character (the `#` of a colour); empty stays empty. */
  function DropFirst(v: Val): (r: Val)
    ensures r.Str?
    ensures |Text(r)| == if |Text(v)| == 0 then 0 else |Text(v)| - 1
    // the first character put back in front gives the original text
    ensures |Text(v)| > 0 ==> Text(v) == Text(v)[..1] + Text(r)
    // a colour `#rrggbb` becomes `rrggbb`
    ensures |Text(v)| > 0 && Text(v)[0] == '#' ==> Text(v) == "#" + Text(r)
  {
    Str(if |Text(v)| == 0 then "" else Text(v)[1..])
  }

  /** The default background colour: the stored one when a background is on, else transparent. */
  function BackgroundDefault(app: Appearance): Val {
    if !Empty(Setting(app, "background")) then DropFirst(Setting(app, "background_color")) else Str("transparent")
  }

  /** The defaults of `get_button`, in the order `wp_parse_args` puts them first. */
  function ButtonDefaults(app: Appearance): Bag {
    Bag(
      [ "embed_type", "shop", "product_handle", "product_name", "display_size", "has_image",
        "redirect_to", "buy_button_text", "button_background_color", "button_text_color",
        "background_color", "buy_button_out_of_stock_text", "buy_button_product_unavailable_text",
        "product_title_color" ],
      map[
        "embed_type" := Str("product"),
        "shop" := Str(""),
        "product_handle" := Str(""),
        "product_name" := Str(""),
        "display_size" := Str("compact"),
        "has_image" := Str("true"),
        "redirect_to" := Setting(app, "redirect_to"),
        "buy_button_text" := Setting(app, "buy_button_text"),
        "button_background_color" := DropFirst(Setting(app, "button_background_color")),
        "button_text_color" := DropFirst(Setting(app, "button_text_color")),
        "background_color" := BackgroundDefault(app),
        "buy_button_out_of_stock_text" := Str("Out of Stock"),
        "buy_button_product_unavailable_text" := Str("Unavailable"),
        "product_title_color" := DropFirst(Setting(app, "text_color")) ])
  }

  /** The defaults of `get_cart`, in order. */
  function CartDefaults(app: Appearance): Bag {
    Bag(
      [ "shop", "checkout_button_text", "button_text_color", "button_background_color",
        "background_color", "text_color", "accent_color", "cart_title", "cart_total_text",
        "discount_notice_text", "sticky", "empty_cart_text", "next_page_button_text" ],
      map[
        "shop" := Str(""),
        "checkout_button_text" := Setting(app, "checkout_button_text"),
        "button_text_color" := DropFirst(Setting(app, "button_text_color")),
        "button_background_color" := DropFirst(Setting(app, "button_background_color")),
        "background_color" := BackgroundDefault(app),
        "text_color" := DropFirst(Setting(app, "text_color")),
        "accent_color" := DropFirst(Setting(app, "accent_color")),
        "cart_title" := Setting(app, "cart_title"),
        "cart_total_text" := Str(""),
        "discount_notice_text" := Str(""),
        "sticky" := Str(""),
        "empty_cart_text" := Str(""),
        "next_page_button_text" := Str("") ])
  }

  /** `isset($args['background']) && ! $args['background']`. */
  predicate BackgroundOff(args: Bag) {
    Has(args, "background") && Empty(Get(args, "background"))
  }

  /** `! empty($args['show']) && 'button-only' === $args['show']`. */
  predicate ButtonOnly(args: Bag) {
    !EmptyAt(args, "show") && Get(args, "show") == Str("button-only")
  }

  /** `'collection' === $args['embed_type']`. */
  predicate IsCollection(args: Bag) {
    Get(args, "embed_type") == Str("collection")
  }

  /** The keys `get_button` overwrites before defaulting. */
  predicate Prepared(args: Bag, k: string) {
    || (k == "product_title_color" && Has(args, "text_color"))
    || (k == "background_color" && BackgroundOff(args))
    || (k == "has_image" && ButtonOnly(args))
  }

  /** The rewrites `get_button` makes before defaulting. */
  function Prepare(args: Bag): (r: Bag)
    ensures Has(args, "text_color") ==> Lookup(r, "product_title_color") == Lookup(args, "text_color")
    ensures BackgroundOff(args) ==> Lookup(r, "background_color") == Some(Str("transparent"))
    ensures ButtonOnly(args) ==> Lookup(r, "has_image") == Some(Str("false"))
    ensures forall k :: !Prepared(args, k) ==> Lookup(r, k) == Lookup(args, k)
  {
    var titled := if Has(args, "text_color") then Set(args, "product_title_color", Get(args, "text_color")) else args;
    var backed := if BackgroundOff(titled) then Set(titled, "background_color", Str("transparent")) else titled;
    if ButtonOnly(backed) then Set(backed, "has_image", Str("false")) else backed
  }

  /** What `get_button` relies on in its defaults: a product embed, with no shop and no handle. */
  predicate ButtonGuards(d: Bag) {
    && Lookup(d, "embed_type") == Some(Str("product"))
    && Lookup(d, "shop") == Some(Str(""))
    && Lookup(d, "product_handle") == Some(Str(""))
    && Lookup(d, "show_product_price") == None
    && Lookup(d, "show_product_title") == None
  }

  /** What a cart relies on in its defaults: no redirect. */
  predicate CartGuards(d: Bag) {
    Lookup(d, "redirect_to") == None
  }

  /** Both default arrays, as built from the appearance settings. */
  datatype Defaults = Defaults(button: Bag, cart: Bag)

  function DefaultsOf(app: Appearance): Defaults {
    Defaults(ButtonDefaults(app), CartDefaults(app))
  }

  predicate Sound(defs: Defaults) {
    ButtonGuards(defs.button) && CartGuards(defs.cart)
  }

  lemma DefaultsSound(app: Appearance)
    ensures Sound(DefaultsOf(app))
  {
    ButtonDefaultsGuarded(app);
    CartDefaultsGuarded(app);
  }

  lemma ButtonDefaultsGuarded(app: Appearance)
    ensures ButtonGuards(ButtonDefaults(app))
  {
  }

  lemma CartDefaultsGuarded(app: Appearance)
    ensures CartGuards(CartDefaults(app))
  {
  }

  /** The arguments after `wp_parse_args`: caller keys win, defaults fill the others. */
  function Defaulted(args: Bag, d: Bag): (r: Bag)
    requires ButtonGuards(d)
    ensures forall k :: !Prepared(args, k) ==>
      Lookup(r, k) == if Has(args, k) then Lookup(args, k) else Lookup(d, k)
    ensures Has(args, "text_color") ==> Lookup(r, "product_title_color") == Lookup(args, "text_color")
    ensures BackgroundOff(args) ==> Lookup(r, "background_color") == Some(Str("transparent"))
    ensures ButtonOnly(args) ==> Lookup(r, "has_image") == Some(Str("false"))
    ensures IsCollection(r) <==> IsCollection(args)
    ensures EmptyAt(r, "shop") <==> EmptyAt(args, "shop")
    ensures EmptyAt(r, "product_handle") <==> EmptyAt(args, "product_handle")
  {
    Merge(d, Prepare(args))
  }

  /** A collection always opens in a modal. */
  function ForceCollection(b: Bag): (r: Bag)
    ensures IsCollection(b) ==>
      Lookup(r, "redirect_to") == Some(Str("modal")) && Lookup(r, "product_modal") == Some(Str("true"))
    ensures forall k :: !(IsCollection(b) && (k == "redirect_to" || k == "product_modal")) ==> Lookup(r, k) == Lookup(b, k)
  {
    if IsCollection(b) then Set(Set(b, "redirect_to", Str("modal")), "product_modal", Str("true")) else b
  }

  /** Price and title are shown as given when given, and otherwise exactly when the image is. */
  function Finish(b: Bag): (r: Bag)
    ensures IsCollection(b) ==> Lookup(r, "collection_handle") == Some(Get(b, "product_handle"))
    ensures Lookup(r, "show_product_price") ==
      Some(if !EmptyAt(b, "show_product_price") then Get(b, "show_product_price") else Get(b, "has_image"))
    ensures Lookup(r, "show_product_title") ==
      Some(if !EmptyAt(b, "show_product_title") then Get(b, "show_product_title") else Get(b, "has_image"))
    ensures forall k ::
      && !(IsCollection(b) && k == "collection_handle")
      && k != "show_product_price" && k != "show_product_title"
      ==> Lookup(r, k) == Lookup(b, k)
  {
    var handled := if IsCollection(b) then Set(b, "collection_handle", Get(b, "product_handle")) else b;
    var priced := Set(handled, "show_product_price",
      if !EmptyAt(handled, "show_product_price") then Get(handled, "show_product_price") else Get(handled, "has_image"));
    Set(priced, "show_product_title",
      if !EmptyAt(priced, "show_product_title") then Get(priced, "show_product_title") else Get(priced, "has_image"))
  }

  /** The keys `get_button` may overwrite whatever the caller sent. */
  predicate Rewritten(args: Bag, k: string) {
    || (k == "product_title_color" && Has(args, "text_color"))
    || (k == "background_color" && BackgroundOff(args))
    || (k == "has_image" && ButtonOnly(args))
    || (IsCollection(args) && (k == "redirect_to" || k == "product_modal" || k == "collection_handle"))
    || ((k == "show_product_price" || k == "show_product_title") && EmptyAt(args, k))
  }

  /**
   * The arguments `get_button` hands to `get_embed`, or `None` when it returns nothing;
   * `d` is the defaults it builds, `ButtonDefaults` of the appearance settings.
   */
  function ButtonArgs(args: Bag, d: Bag): (r: Option<Bag>)
    requires ButtonGuards(d)
    // suppressed exactly when the caller gave no shop or no product handle
    ensures r.None? <==> EmptyAt(args, "shop") || EmptyAt(args, "product_handle")
    // a key not rewritten keeps the caller's value, or gets the default when the caller had none
    ensures r.Some? ==> forall k :: !Rewritten(args, k) ==>
      Lookup(r.value, k) == if Has(args, k) then Lookup(args, k) else Lookup(d, k)
    ensures r.Some? && Has(args, "text_color") ==>
      Lookup(r.value, "product_title_color") == Lookup(args, "text_color")
    ensures r.Some? && BackgroundOff(args) ==> Lookup(r.value, "background_color") == Some(Str("transparent"))
    ensures r.Some? && ButtonOnly(args) ==> Lookup(r.value, "has_image") == Some(Str("false"))
    ensures r.Some? && IsCollection(args) ==>
      && Lookup(r.value, "redirect_to") == Some(Str("modal"))
      && Lookup(r.value, "product_modal") == Some(Str("true"))
      && Lookup(r.value, "collection_handle") == Lookup(args, "product_handle")
    ensures r.Some? ==>
      Lookup(r.value, "show_product_price") ==
      Some(if !EmptyAt(args, "show_product_price") then Get(args, "show_product_price") else Get(r.value, "has_image"))
    ensures r.Some? ==>
      Lookup(r.value, "show_product_title") ==
      Some(if !EmptyAt(args, "show_product_title") then Get(args, "show_product_title") else Get(r.value, "has_image"))
  {
    var forced := ForceCollection(Defaulted(args, d));
    if EmptyAt(forced, "shop") || EmptyAt(forced, "product_handle") then None
    else
      var r := Finish(forced);
      ButtonKeeps(args, d, r);
      ButtonTitleColor(args, d, r);
      ButtonBackground(args, d, r);
      ButtonImage(args, d, r);
      ButtonCollection(args, d, r);
      ButtonShows(args, d, r, "show_product_price");
      ButtonShows(args, d, r, "show_product_title");
      Some(r)
  }

  lemma ButtonKeeps(args: Bag, d: Bag, r: Bag)
    requires ButtonGuards(d) && r == Finish(ForceCollection(Defaulted(args, d)))
    ensures forall k :: !Rewritten(args, k) ==>
      Lookup(r, k) == if Has(args, k) then Lookup(args, k) else Lookup(d, k)
  {
  }

  lemma ButtonTitleColor(args: Bag, d: Bag, r: Bag)
    requires ButtonGuards(d) && r == Finish(ForceCollection(Defaulted(args, d)))
    ensures Has(args, "text_color") ==> Lookup(r, "product_title_color") == Lookup(args, "text_color")
  {
  }

  lemma ButtonBackground(args: Bag, d: Bag, r: Bag)
    requires ButtonGuards(d) && r == Finish(ForceCollection(Defaulted(args, d)))
    ensures BackgroundOff(args) ==> Lookup(r, "background_color") == Some(Str("transparent"))
  {
  }

  lemma ButtonImage(args: Bag, d: Bag, r: Bag)
    requires ButtonGuards(d) && r == Finish(ForceCollection(Defaulted(args, d)))
    ensures ButtonOnly(args) ==> Lookup(r, "has_image") == Some(Str("false"))
  {
  }

  lemma ButtonCollection(args: Bag, d: Bag, r: Bag)
    requires ButtonGuards(d) && r == Finish(ForceCollection(Defaulted(args, d)))
    requires !EmptyAt(args, "product_handle")
    ensures IsCollection(args) ==>
      && Lookup(r, "redirect_to") == Some(Str("modal"))
      && Lookup(r, "product_modal") == Some(Str("true"))
      && Lookup(r, "collection_handle") == Lookup(args, "product_handle")
  {
    var defaulted := Defaulted(args, d);
    if IsCollection(args) {
      assert IsCollection(defaulted);
      assert Lookup(ForceCollection(defaulted), "product_handle") == Lookup(args, "product_handle");
    }
  }

  lemma ButtonShows(args: Bag, d: Bag, r: Bag, k: string)
    requires ButtonGuards(d) && r == Finish(ForceCollection(Defaulted(args, d)))
    requires k == "show_product_price" || k == "show_product_title"
    ensures Lookup(r, k) == Some(if !EmptyAt(args, k) then Get(args, k) else Get(r, "has_image"))
  {
    ForcedShows(args, d, k);
    assert Get(r, "has_image") == Get(ForceCollection(Defaulted(args, d)), "has_image");
  }

  lemma ForcedShows(args: Bag, d: Bag, k: string)
    requires ButtonGuards(d)
    requires k == "show_product_price" || k == "show_product_title"
    ensures Lookup(ForceCollection(Defaulted(args, d)), k) == Lookup(args, k)
  {
    assert Lookup(Defaulted(args, d), k) == Lookup(args, k);
  }

  /**
   * `button-only` without overrides hides price and title too: both follow `has_image`,
   * which the rewrite made "false".
   */
  lemma ButtonOnlyHidesPriceAndTitle(args: Bag, d: Bag)
    requires ButtonGuards(d)
    requires ButtonOnly(args) && EmptyAt(args, "show_product_price") && EmptyAt(args, "show_product_title")
    ensures var r := ButtonArgs(args, d);
      r.Some? ==>
        && Lookup(r.value, "has_image") == Some(Str("false"))
        && Lookup(r.value, "show_product_price") == Some(Str("false"))
        && Lookup(r.value, "show_product_title") == Some(Str("false"))
  {
    var r := ButtonArgs(args, d);
    if r.Some? {
      assert Get(r.value, "has_image") == Str("false");
    }
  }

  /**
   * Some of `get_button`'s defaults; by `ButtonArgs`, a printed button carries them for
   * every key its caller did not send and no rewrite touches.
   */
  lemma ButtonDefaultValues(app: Appearance)
    ensures var d := ButtonDefaults(app);
      && Lookup(d, "embed_type") == Some(Str("product"))
      && Lookup(d, "display_size") == Some(Str("compact"))
      && Lookup(d, "has_image") == Some(Str("true"))
      && Lookup(d, "buy_button_out_of_stock_text") == Some(Str("Out of Stock"))
      && Lookup(d, "redirect_to") == Some(Setting(app, "redirect_to"))
      && Lookup(d, "button_text_color") == Some(DropFirst(Setting(app, "button_text_color")))
      && Lookup(d, "background_color") == Some(BackgroundDefault(app))
  {
  }

  /** The arguments `get_cart` hands to `get_embed`: never suppressed. */
  function CartArgs(args: Bag, d: Bag): (r: Bag)
    ensures Lookup(r, "embed_type") == Some(Str("cart"))
    ensures Lookup(r, "sticky") == Some(Str("true"))
    ensures forall k :: k != "embed_type" && k != "sticky" ==>
      Lookup(r, k) == if Has(args, k) then Lookup(args, k) else Lookup(d, k)
  {
    var defaulted := Merge(d, args);
    Set(Set(defaulted, "embed_type", Str("cart")), "sticky", Str("true"))
  }

  /**
   * The cart's attributes come in the defaults' order, then the caller's other keys in
   * their order, then `embed_type` unless the caller sent one.
   */
  lemma CartKeys(args: Bag, app: Appearance)
    ensures CartArgs(args, CartDefaults(app)).keys == CartDefaults(app).keys + Missing(args.keys, CartDefaults(app).keys)
                                        + (if Has(args, "embed_type") then [] else ["embed_type"])
  {
    assert "embed_type" !in CartDefaults(app).values;
    assert "sticky" in CartDefaults(app).values;
  }
}
