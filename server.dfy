/** backend/server.js: the parts of the single-file server that are not the
    same logic as the router files — the CORS origin check, and the inline
    cart POST handler, which never saves the cart it builds and never answers
    once its checks pass. The inline schemas live in OrderModel and
    ProductModel; the inline product, order, cart GET and cart DELETE
    handlers and the inline `protect` and `admin` are the same logic as
    ProductRoutes, OrderRoutes, CartRoutes and AuthMiddleware. */
module Server {
  import opened Common
  import opened ProductModel
  import opened CartModel
  import ProductRoutes
  import CartRoutes

  // ---------------------------------------------------------------------
  // CORS.
  // ---------------------------------------------------------------------

  const LOCAL_ORIGIN: string := "http://localhost:4000"
  const PRODUCTION_ORIGIN: string := "https://my-mern-ecommerce-app-n8j5.vercel.app"
  const ALLOWED_ORIGINS: seq<string> := [LOCAL_ORIGIN, PRODUCTION_ORIGIN]

  /** The literal start of the deployment regex, up to its optional group. */
  const PREVIEW_PREFIX: string := "https://my-mern-ecommerce-app-n8j5"

  /** The length of what follows the optional group: `.vercel.app`. */
  const TAIL_LENGTH: nat := 11

  /** `\w`: an ASCII letter, digit or underscore. */
  predicate IsWordChar(c: char) {
    ('a' <= c <= 'z') || ('A' <= c <= 'Z') || ('0' <= c <= '9') || c == '_'
  }

  /** `.` without the `s` flag: any character but a line terminator. */
  predicate IsAnyChar(c: char) {
    c != '\n' && c != '\r' && c != '\U{2028}' && c != '\U{2029}'
  }

  /** The optional group `(?:-[\w]+)?`: empty, or a hyphen and one or more
      word characters. */
  predicate OptionalGroup(m: string) {
    m == [] || (|m| >= 2 && m[0] == '-' && forall i :: 1 <= i < |m| ==> IsWordChar(m[i]))
  }

  /** `.vercel.app` with both dots unescaped. */
  predicate TailMatches(t: string) {
    |t| == TAIL_LENGTH && IsAnyChar(t[0]) && t[1..7] == "vercel" && IsAnyChar(t[7]) && t[8..] == "app"
  }

  /** `vercelRegex.test(s)`. The regex is anchored at both ends and what
      follows its optional group has a fixed length, so the group is exactly
      the text between the prefix and the last eleven characters. */
  predicate PreviewMatch(s: string)
    ensures PreviewMatch(s) ==>
              && |s| >= |PREVIEW_PREFIX| + TAIL_LENGTH
              && s[..|PREVIEW_PREFIX|] == PREVIEW_PREFIX && s[|s| - 3..] == "app"
    ensures PreviewMatch(s) ==> |s| != |PREVIEW_PREFIX| + TAIL_LENGTH + 1
  {
    && |s| >= |PREVIEW_PREFIX| + TAIL_LENGTH
    && s[..|PREVIEW_PREFIX|] == PREVIEW_PREFIX
    && OptionalGroup(s[|PREVIEW_PREFIX|..|s| - TAIL_LENGTH])
    && TailMatches(s[|s| - TAIL_LENGTH..])
  }

  /** The strings the regex denotes, one per choice of its group and of the
      characters its two dots stand for. */
  function PreviewOrigin(m: string, c1: char, c2: char): string {
    PREVIEW_PREFIX + m + [c1] + "vercel" + [c2] + "app"
  }

  /** Every string the regex denotes passes the matcher. */
  lemma PreviewMatchComplete(m: string, c1: char, c2: char)
    requires OptionalGroup(m) && IsAnyChar(c1) && IsAnyChar(c2)
    ensures PreviewMatch(PreviewOrigin(m, c1, c2))
  {
    var s := PreviewOrigin(m, c1, c2);
    var n := |PREVIEW_PREFIX|;
    assert s[..n] == PREVIEW_PREFIX;
    assert s[n..|s| - TAIL_LENGTH] == m;
    var t := [c1] + "vercel" + [c2] + "app";
    assert s == PREVIEW_PREFIX + m + t;
    assert s[|s| - TAIL_LENGTH..] == t;
    assert t[0] == c1 && t[1..7] == "vercel" && t[7] == c2 && t[8..] == "app";
    assert TailMatches(t);
  }

  /** Every string the matcher passes is one the regex denotes. */
  lemma PreviewMatchSound(s: string)
    requires PreviewMatch(s)
    ensures var m := s[|PREVIEW_PREFIX|..|s| - TAIL_LENGTH];
            && OptionalGroup(m)
            && IsAnyChar(s[|s| - 11]) && IsAnyChar(s[|s| - 4])
            && s == PreviewOrigin(m, s[|s| - 11], s[|s| - 4])
  {
    var n := |PREVIEW_PREFIX|;
    var t := s[|s| - TAIL_LENGTH..];
    assert t == [t[0]] + t[1..7] + [t[7]] + t[8..];
    assert s == s[..n] + s[n..|s| - TAIL_LENGTH] + t;
  }

  /** What the CORS origin callback decides: allow, or fail with an error
      naming the origin. */
  datatype CorsDecision = Allow | Deny(error: string)

  /** The origin callback: a missing or empty origin (same-origin requests
      and tools without an Origin header), a listed origin, or one the
      deployment regex matches is allowed. */
  function OriginDecision(origin: Option<string>): (d: CorsDecision)
    ensures !Truthy(origin) ==> d == Allow
    ensures Truthy(origin) && origin.value in ALLOWED_ORIGINS ==> d == Allow
    ensures Truthy(origin) && PreviewMatch(origin.value) ==> d == Allow
    ensures d.Deny? <==> Truthy(origin) && origin.value !in ALLOWED_ORIGINS && !PreviewMatch(origin.value)
    ensures d.Deny? ==> d.error == "Not allowed by CORS: " + origin.value
  {
    if !Truthy(origin) || origin.value in ALLOWED_ORIGINS || PreviewMatch(origin.value) then Allow
    else Deny("Not allowed by CORS: " + origin.value)
  }

  /** The production origin is matched by the regex too (its group empty),
      so listing it adds nothing. */
  lemma ProductionOriginMatchesRegex()
    ensures PreviewMatch(PRODUCTION_ORIGIN)
  {
    PreviewMatchComplete("", '.', '.');
    assert PreviewOrigin("", '.', '.') == PRODUCTION_ORIGIN;
  }

  /** A single-word preview deployment is allowed. */
  lemma PreviewDeploymentAllowed()
    ensures OriginDecision(Some("https://my-mern-ecommerce-app-n8j5-abc123.vercel.app")) == Allow
  {
    PreviewMatchComplete("-abc123", '.', '.');
    assert PreviewOrigin("-abc123", '.', '.') == "https://my-mern-ecommerce-app-n8j5-abc123.vercel.app";
  }

  /** The unescaped dots match any character, so an origin on a different
      host that only looks like the deployment's is allowed. */
  lemma LooseDotsAllowed()
    ensures OriginDecision(Some("https://my-mern-ecommerce-app-n8j5XvercelYapp")) == Allow
  {
    PreviewMatchComplete("", 'X', 'Y');
    assert PreviewOrigin("", 'X', 'Y') == "https://my-mern-ecommerce-app-n8j5XvercelYapp";
  }

  /** A preview whose suffix holds a second hyphen (Vercel's branch
      previews) is refused: `\w` does not match '-'. */
  lemma HyphenatedPreviewRefused()
    ensures OriginDecision(Some("https://my-mern-ecommerce-app-n8j5-git-main.vercel.app")).Deny?
  {
    var s := "https://my-mern-ecommerce-app-n8j5-git-main.vercel.app";
    var m := s[|PREVIEW_PREFIX|..|s| - TAIL_LENGTH];
    assert m == "-git-main";
    assert !IsWordChar(m[4]);
    assert s != LOCAL_ORIGIN && s != PRODUCTION_ORIGIN;
  }

  /** An unrelated origin is refused. */
  lemma OtherOriginRefused()
    ensures OriginDecision(Some("https://example.com")) == Deny("Not allowed by CORS: https://example.com")
  {
    assert "https://example.com" != LOCAL_ORIGIN && "https://example.com" != PRODUCTION_ORIGIN;
  }

  // ---------------------------------------------------------------------
  // The inline cart POST.
  // ---------------------------------------------------------------------

  /** server.js's POST /api/cart: the same checks and the same in-memory
      update as CartRoutes' handler, but the updated cart is neither saved
      nor sent, so a request that passes the checks gets no answer and the
      store keeps the cart it had. */
  method AddToCartUnsaved(store: CartRoutes.CartStore, catalog: ProductRoutes.Catalog,
                          user: UserId, productId: Option<ProductId>, qty: Option<int>)
    returns (reply: Reply<Cart>)
    ensures CartRoutes.AddFailure(catalog.products, productId, qty).Some? ==>
              reply == Failure(CartRoutes.AddFailure(catalog.products, productId, qty).value)
    ensures CartRoutes.AddFailure(catalog.products, productId, qty).None? ==> reply == NoReply
  {
    if !Truthy(productId) || qty.None? || qty.value < 1 {
      return Failure(InvalidCartRequest);
    }
    var pid := productId.value;
    if pid !in catalog.products {
      return Failure(CartProductNotFound);
    }
    var product := catalog.products[pid];
    if product.countInStock < qty.value {
      return Failure(InsufficientStock(product.name, product.countInStock));
    }
    var cart := store.Get(user);
    var k := CartRoutes.FindIndex(cart.cartItems, pid);
    if k > -1 {
      cart := cart.(cartItems := cart.cartItems[k := cart.cartItems[k].(qty := qty.value)]);
    } else {
      cart := cart.(cartItems := cart.cartItems + [CartRoutes.SnapshotLine(pid, product, qty.value)]);
    }
    reply := NoReply;
  }
}
