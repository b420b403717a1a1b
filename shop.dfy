/**
 * `handle_shop`: which shop an embed belongs to, and the redirect it may have to use.
 * The first shop given explicitly on a page is kept for the page and saved to the
 * `sbb_shop` option; an embed without a shop borrows it (or the saved option), and a
 * cart redirect for a different shop becomes a checkout redirect.
 */
module Shop {
  import opened Wrappers
  import opened PhpArray

  /**
   * What one page render remembers: the page's first shop (`None` is PHP `false`),
   * whether the loader script was printed, and the `sbb_shop` option.
   */
  datatype PageState = PageState(shop: Option<string>, jsAdded: bool, savedShop: string)

  /** `empty($this->shop)`. */
  predicate StoredEmpty(shop: Option<string>) {
    shop.None? || Empty(Str(shop.value))
  }

  /** A stored shop is only ever a non-empty string. */
  predicate ValidShop(shop: Option<string>) {
    shop.Some? ==> !Empty(Str(shop.value))
  }

  /** `$args['shop'] !== $this->shop`: a string is never identical to `false`. */
  predicate Differs(v: Val, shop: Option<string>) {
    shop.None? || v != Str(shop.value)
  }

  /** The result of `handle_shop`: the new arguments, the stored shop and the option afterwards. */
  datatype Resolution = Resolution(args: Bag, shop: Option<string>, savedShop: string)

  function ResolveShop(args: Bag, shop: Option<string>, savedShop: string): (r: Resolution)
    // an empty incoming shop borrows the stored shop, else the saved option; nothing is stored
    ensures EmptyAt(args, "shop") ==>
      && Get(r.args, "shop") == Str(if StoredEmpty(shop) then savedShop else shop.value)
      && r.shop == shop && r.savedShop == savedShop
    // a non-empty incoming shop is kept as given
    ensures !EmptyAt(args, "shop") ==> Get(r.args, "shop") == Get(args, "shop")
    // the first non-empty shop is stored and saved; once stored, nothing changes it
    ensures !EmptyAt(args, "shop") && StoredEmpty(shop) ==>
      r.shop == Some(Text(Get(args, "shop"))) && r.savedShop == Text(Get(args, "shop"))
    ensures !StoredEmpty(shop) ==> r.shop == shop && r.savedShop == savedShop
    ensures ValidShop(shop) ==> ValidShop(r.shop)
    // only a cart redirect changes, to checkout, and only for a shop other than the stored one
    ensures Lookup(r.args, "redirect_to") ==
      if Get(args, "redirect_to") == Str("cart") && Differs(Get(r.args, "shop"), r.shop)
      then Some(Str("checkout")) else Lookup(args, "redirect_to")
    // no other key changes
    ensures forall k :: k != "shop" && k != "redirect_to" ==> Lookup(r.args, k) == Lookup(args, k)
  {
    var incoming := Get(args, "shop");
    var shopped :=
      if Empty(incoming) then
        Resolution(Set(args, "shop", Str(if StoredEmpty(shop) then savedShop else shop.value)), shop, savedShop)
      else if StoredEmpty(shop) then
        Resolution(args, Some(incoming.s), incoming.s)
      else
        Resolution(args, shop, savedShop);
    if Differs(Get(shopped.args, "shop"), shopped.shop) && Get(shopped.args, "redirect_to") == Str("cart") then
      shopped.(args := Set(shopped.args, "redirect_to", Str("checkout")))
    else
      shopped
  }

  /** The key order is kept, a missing shop key is appended last, and no key repeats. */
  lemma ResolveShopKeys(args: Bag, shop: Option<string>, savedShop: string)
    requires Wf(args)
    ensures var r := ResolveShop(args, shop, savedShop);
      && r.args.keys == (if Has(args, "shop") then args.keys else args.keys + ["shop"])
      && Wf(r.args)
  {
  }

  /**
   * The saved option is only a fallback, not the page's shop: an embed that borrowed it
   * leaves the page without a stored shop, so a later explicit shop takes over and the
   * next embed without a shop borrows that one instead.
   */
  lemma SavedShopIsNotPinned()
    ensures var first := ResolveShop(NoArgs, None, "old-shop");
      var second := ResolveShop(Bag(["shop"], map["shop" := Str("new-shop")]), first.shop, first.savedShop);
      var third := ResolveShop(NoArgs, second.shop, second.savedShop);
      && Get(first.args, "shop") == Str("old-shop")
      && Get(third.args, "shop") == Str("new-shop")
  {
  }

  /**
   * A page whose first shop is "store-a": an embed for "store-b" that would redirect to
   * the cart redirects to checkout instead, and one for "store-a" keeps the cart.
   */
  lemma OtherShopRedirectsToCheckout()
    ensures var b := Bag(["shop", "redirect_to"], map["shop" := Str("store-b"), "redirect_to" := Str("cart")]);
      Lookup(ResolveShop(b, Some("store-a"), "store-a").args, "redirect_to") == Some(Str("checkout"))
    ensures var a := Bag(["shop", "redirect_to"], map["shop" := Str("store-a"), "redirect_to" := Str("cart")]);
      Lookup(ResolveShop(a, Some("store-a"), "store-a").args, "redirect_to") == Some(Str("cart"))
  {
  }
}
