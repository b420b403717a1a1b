# Shopify Buy Button output, in Dafny

This project models `SBB_Output`, the part of the Shopify Buy Button WordPress plugin
that prints embeds. `get_button` and `get_cart` each turn a loose argument array into
the argument set of a Shopify embed:

- forced rewrites;
- `wp_parse_args` defaulting, where caller keys win;
- for buttons, suppression when the shop or the product handle is missing.

`get_embed` then does the rest:

- `handle_shop` resolves which shop the embed belongs to. The page's first explicit shop
  is stored on the object and saved to the `sbb_shop` option.
- It turns a `cart` redirect for another shop into `checkout`.
- It prints a `div` whose `data-*` attributes are the non-empty arguments
  (`array_to_data_attributes`).
- It follows that `div` with the Shopify loader script on the first embed of the page only.

Files:

- `php_array.dfy` (module `PhpArray`): PHP arrays with string keys, as an ordered map.
  - `Lookup`, `Has` (`isset`), `Get` and `EmptyAt` (`empty`).
  - `Set` (`$a[k] = v`: overwrite in place, or append).
  - `Merge` (`array_merge`, which is what `wp_parse_args` does to two arrays).
- `attributes.dfy` (module `Attributes`): the attribute string, specified as the
  concatenation of the non-empty pairs.
- `shop.dfy` (module `Shop`): `handle_shop` as a function of the arguments, the stored
  shop and the saved option.
- `embed_args.dfy` (module `EmbedArgs`): the arguments `get_button` and `get_cart` hand
  to `get_embed`.
- `output.dfy` (module `Output`): the pure descriptions and the class.
  - Pure descriptions: one embed (`Embedded`), one call (`Step`) and a page of calls
    (`Render`), with the page-level properties.
  - The class `Output` keeps the fields `shop`, `jsAdded` and `savedShop`. Its methods
    update them in place and are proved to agree with the pure descriptions.
  - `ArrayToDataAttributes` is the `foreach` loop, proved against `DataAttributes`.

Values are `Str(s)` or `False`. PHP `empty()` holds for `""`, `"0"`, `false` and a
missing key. A stored shop of `None` is PHP's `false`.

Where the documented behaviour and the code disagree, the model follows the code:

- A button whose caller gave no shop prints nothing. The emptiness check at
  includes/class-output.php:178 runs before `handle_shop`, so such a button never
  borrows the page's shop. For example, a button with handle "mug" and no shop, after an
  embed for "acme", prints nothing (`ButtonWithoutShopSuppressed`).
- "Once an embed has resolved a shop, later embeds inherit it" holds only for a shop
  given explicitly. A shop borrowed from the saved option is not stored, so a later
  explicit shop takes over (`SavedShopIsNotPinned`).
- A cart's `redirect_to` is absent only when its caller sent none. A caller's
  `redirect_to` of `cart` is coerced like a button's (`CartForcedAndRedirect`).

## Model

| member | source | states |
|---|---|---|
| PhpArray.Set | includes/class-output.php:136-145 | `$a[k] = v` stores `v` under `k` and changes no other key. A present key keeps its place; a new key is appended last. A well-formed array stays well formed. |
| PhpArray.Merge | includes/class-output.php:153-171 | `wp_parse_args`: a key the caller set keeps the caller's value, every other key gets the default. The defaults' keys come first in their order, then the caller's other keys in order. |
| PhpArray.Entries | includes/class-output.php:64 | The `foreach` visits the keys in insertion order, each with the value stored under it. In a well-formed array it visits every key that holds a value, and no key twice. |
| Attributes.AppendAllIsShownPairs | includes/class-output.php:62-71 | The string the loop builds is the in-order concatenation of ` data-KEY="VALUE"` over exactly the entries with a non-empty value. |
| Attributes.AppendAllConcat | includes/class-output.php:62-71 | The attribute string of two runs of entries is the concatenation of theirs. |
| Attributes.EmptyValuesContributeNothing | includes/class-output.php:65 | Entries whose values are all empty (`""`, `"0"`, `false`) produce the empty string. |
| Attributes.EmptyValueIsInvisible | includes/class-output.php:65-67 | Replacing one empty value by another empty value leaves the attribute string unchanged. |
| Output.Output.constructor | includes/class-output.php:24-32 | A new object has no stored shop (`$shop = false`) and has not printed the loader script (`$js_added = false`). It carries the `sbb_shop` option as saved. |
| Output.Output.ArrayToDataAttributes | includes/class-output.php:62-71 | The loop's result is the concatenation of the non-empty pairs in the array's order; an empty array gives `""`. |
| Shop.ResolveShop | includes/class-output.php:84-101 | An empty incoming shop becomes the stored shop, or the saved option when none is stored; nothing is stored then. A non-empty shop is kept. It is stored and saved only when no shop was stored, and a stored shop never changes. `redirect_to` changes only from `cart` to `checkout`, only when the resolved shop is not identical to the stored one (`false` differs from every string). No other key changes. |
| Shop.ResolveShopKeys | includes/class-output.php:85-99 | `handle_shop` keeps the key order and appends `shop` last when it was missing. |
| Shop.SavedShopIsNotPinned | includes/class-output.php:85-94 | A shop borrowed from the saved option is not stored, so a later explicit shop is stored and borrowed instead. |
| Shop.OtherShopRedirectsToCheckout | includes/class-output.php:96-99 | On a page whose shop is "store-a", a cart redirect for "store-b" becomes `checkout`, and one for "store-a" stays `cart`. |
| Output.Output.HandleShop | includes/class-output.php:84-102 | The method returns the arguments `ResolveShop` gives. It leaves the stored shop and the option as `ResolveShop` does, leaves `js_added` alone and keeps a stored shop non-empty. |
| EmbedArgs.DropFirst | includes/class-output.php:165-170 | `substr(x, 1)` always gives a string one character shorter, or `""` for an empty value. Putting the first character back gives the original. A colour `#rrggbb` becomes `rrggbb`. |
| EmbedArgs.Prepare | includes/class-output.php:135-145 | Before defaulting, `product_title_color` copies a present `text_color`. A present and falsy `background` makes `background_color` `transparent`. `show = button-only` makes `has_image` `false`. Nothing else changes. |
| EmbedArgs.Defaulted | includes/class-output.php:153-171 | After defaulting, the three rewrites hold and every other key has the caller's value or the default. Type, shop and handle are empty or a collection exactly when the caller's were. |
| EmbedArgs.ForceCollection | includes/class-output.php:173-176 | A collection gets `redirect_to = modal` and `product_modal = true`; nothing else changes. |
| EmbedArgs.Finish | includes/class-output.php:183-190 | A collection gets `collection_handle` from `product_handle`. `show_product_price` and `show_product_title` keep a non-empty value and otherwise take `has_image`. Nothing else changes. |
| EmbedArgs.ButtonArgs | includes/class-output.php:134-195 | `get_button` returns nothing exactly when the caller's shop or product handle is empty. Otherwise every key no rewrite touches keeps the caller's value, or gets the default when the caller sent none. The title colour, transparent background, button-only and collection rewrites hold whatever the caller sent. Price and title follow the caller, or else the final `has_image`. |
| EmbedArgs.ButtonOnlyHidesPriceAndTitle | includes/class-output.php:143-190 | `button-only` without price or title overrides gives `false` for `has_image`, `show_product_price` and `show_product_title`. |
| EmbedArgs.ButtonDefaultValues | includes/class-output.php:153-171 | The button defaults are: type `product`, size `compact`, `has_image` `true`, "Out of Stock", the appearance `redirect_to`, the text colour without its `#`, and the background colour or `transparent`. |
| EmbedArgs.ButtonDefaultsGuarded | includes/class-output.php:155-159 | The button defaults make a product with an empty shop and an empty handle, and have no price or title override. |
| EmbedArgs.CartDefaultsGuarded | includes/class-output.php:205-219 | The cart defaults have no `redirect_to`. |
| EmbedArgs.CartArgs | includes/class-output.php:204-227 | A cart always has `embed_type = cart` and `sticky = true`. Every other key has the caller's value or the default. |
| EmbedArgs.CartKeys | includes/class-output.php:205-222 | A cart's keys are the defaults' keys in order, then the caller's other keys in order, then `embed_type` when the caller sent none. |
| Output.LoaderDetectable | includes/class-output.php:116-122 | An embed's markup ends with the loader script exactly when the script was printed with it. |
| Output.Embedded | includes/class-output.php:111-125 | After `get_embed`, the loader is marked printed. The markup carries the loader exactly when it had not been printed before. Its arguments are those `handle_shop` gives. A stored shop stays non-empty. |
| Output.Output.GetEmbed | includes/class-output.php:111-125 | The markup is the `div` whose class names the resolved `embed_type`, with the resolved attributes, followed by the loader script exactly when `js_added` was false. The object ends in the state `Embedded` describes. |
| Output.Step | includes/class-output.php:134-227 | A button prints nothing exactly when its caller gave no shop or no handle; a cart always prints. A call that prints nothing changes nothing. A printed embed carries the loader exactly when it had not been printed, and marks it printed. |
| Output.Output.GetButton | includes/class-output.php:134-195 | The method prints what `Step` gives for a button and ends in its state; when it prints nothing the object is untouched. |
| Output.Output.GetCart | includes/class-output.php:204-227 | The method prints what `Step` gives for a cart and ends in its state. |
| Output.Render | includes/class-output.php:119-122 | After a page of calls, the loader is marked printed exactly when it was before or some call printed an embed. A stored shop stays non-empty. |
| Output.LoaderOnlyInFirstEmbed | includes/class-output.php:119-122 | An embed carries the loader script exactly when the page had not printed it before and no earlier call printed an embed. |
| Output.LoaderAtMostOnce | includes/class-output.php:119-122 | No two embeds of a page both end with the loader script. |
| Output.EmbeddedShop | includes/class-output.php:85-94 | `get_embed` stores the non-empty shop of its arguments when the page has none, writes the option with it, and otherwise leaves both alone. |
| Output.StepShop | includes/class-output.php:85-94 | A printed call stores the explicit shop it brings only into a page without a shop; a page with a shop keeps it. |
| Output.PageShopIsFirstExplicitShop | includes/class-output.php:84-94 | After a page, the stored shop and the saved option are the first shop a printed embed gave explicitly. A page that started with a shop keeps it and leaves the option alone. |
| Output.ButtonWithoutShopSuppressed | includes/class-output.php:178-181 | A button without a shop prints nothing and changes nothing, even when the page has a shop. |
| Output.CollectionNeverCoerced | includes/class-output.php:173-185 | A printed collection has `redirect_to = modal`, `product_modal = true` and `collection_handle` equal to the caller's handle, so its redirect is never coerced to checkout. |
| Output.ButtonKeepsOwnShop | includes/class-output.php:85-94 | A printed button keeps the shop its caller gave; it never borrows the page's. |
| Output.CartForcedAndRedirect | includes/class-output.php:221-222 | A printed cart has type `cart` and `sticky = true`. Without a caller's `redirect_to` it has none. A caller's `redirect_to` of `cart` becomes `checkout` when the cart's shop differs from the page's shop (the check at line 97). |

## Left out

- `button_endpoint` is not modelled. It is request I/O: it reads `$_GET`, checks `current_user_can`, echoes CSS and calls `die()`. It maps the string `'false'` to `false`, which is why `Val` has a `False` case and the `background` check can fire.
- `hooks` and the constructor's `$plugin` are not modelled. They only register WordPress actions.
- `embed_cart` is not modelled separately. It echoes `get_cart(array())`, which is `GetCart` on an empty array.
- includes/class-modal.php is not part of this model. It builds static iframe and radio markup from WordPress calls.
- The test files are not part of this model. They only check that other classes exist.
- `esc_html`, `esc_attr` and `__()` are the identity, and so are the `sbb_product_output_args` and `sbb_cart_output_args` filters.
- `cmb2_get_option` is a read-only map from field to value; a missing field reads as `false`.
- `get_option` and `update_option('sbb_shop')` are the `savedShop` field; persistence across requests is not modelled.
- The whitespace around the `div` in the output template, and output buffering, are not modelled. The loader script is its exact text.
- PHP `null` is not modelled. A missing key reads as `false`, which every use in this class treats the same way.
- Argument values other than strings and `false` (numbers, arrays) are not modelled. `array_merge` renumbering numeric keys such as `"12"` is not modelled either; keys are plain strings.
- EmbedArgs.DropFirst: `substr` of an empty or one-character string gives `""` here, although older PHP gives `false`. Both are empty and print nothing.
- EmbedArgs.ButtonArgs: states the value under every key but not the order of the keys. `CartKeys` states the order for carts only.
- EmbedArgs.CartKeys: does not state that no key repeats.
- Output.Step: takes both default arrays as a `Defaults` value that satisfies `Sound`. The class methods pass `DefaultsOf` of the appearance settings, and `DefaultsSound` proves they satisfy it.
