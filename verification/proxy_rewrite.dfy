/**
 * The development server's proxy path rewrite for `/api/inventory`:
 * `path.replace(/^\/api\/inventory/, "/inventory")`. The pattern is
 * anchored at the start and has no `g` flag, so at most the leading
 * occurrence is replaced, and it is not bounded by a path segment.
 */
module ProxyRewrite {
  import InventoryData

  const ProxyPrefix: string := "/api/inventory"
  const UpstreamPrefix: string := "/inventory"

  /** The rewrite applied to every proxied request path (query string included). */
  function Rewrite(path: string): (r: string)
    ensures ProxyPrefix <= path ==> r == UpstreamPrefix + path[|ProxyPrefix|..]
    ensures !(ProxyPrefix <= path) ==> r == path
  {
    if ProxyPrefix <= path then UpstreamPrefix + path[|ProxyPrefix|..] else path
  }

  /** A path that starts with the prefix has it replaced, and the rest is kept unchanged. */
  lemma RewriteReplacesPrefix(rest: string)
    ensures Rewrite(ProxyPrefix + rest) == UpstreamPrefix + rest
  {
    assert ProxyPrefix <= ProxyPrefix + rest;
    assert (ProxyPrefix + rest)[|ProxyPrefix|..] == rest;
  }

  /** The output never begins with the proxy prefix. */
  lemma RewriteLeavesNoPrefix(path: string)
    ensures !(ProxyPrefix <= Rewrite(path))
  {
    if ProxyPrefix <= path {
      assert Rewrite(path)[1] == 'i' != ProxyPrefix[1];
    }
  }

  /** Rewriting twice is the same as rewriting once. */
  lemma RewriteIdempotent(path: string)
    ensures Rewrite(Rewrite(path)) == Rewrite(path)
  {
    RewriteLeavesNoPrefix(path);
  }

  /** Only the leading occurrence is replaced. */
  lemma RewriteOnlyLeading()
    ensures Rewrite("/api/inventory/api/inventory") == "/inventory/api/inventory"
  {
    RewriteReplacesPrefix("/api/inventory");
  }

  /** The match does not stop at a segment boundary. */
  lemma RewriteNotSegmentBounded()
    ensures Rewrite("/api/inventoryX") == "/inventoryX"
  {
    RewriteReplacesPrefix("X");
  }

  /** A query string after the prefix is carried over character for character. */
  lemma RewriteKeepsQuery(token: string)
    ensures Rewrite("/api/inventory?token=" + token) == "/inventory?token=" + token
  {
    assert "/api/inventory?token=" + token == ProxyPrefix + ("?token=" + token);
    RewriteReplacesPrefix("?token=" + token);
    assert UpstreamPrefix + ("?token=" + token) == "/inventory?token=" + token;
  }

  /** The page's own request reaches the upstream as `/inventory` with the same token. */
  lemma RequestKeepsToken()
    ensures Rewrite(InventoryData.RequestPath) == "/inventory?token=" + InventoryData.Token
  {
    RewriteKeepsQuery(InventoryData.Token);
  }
}
