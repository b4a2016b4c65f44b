/**
 * The endpoint paths of src/services/products.service.ts, relative to the
 * client's prefix URL `.../products`: groups at the root and
 * `{groupId}`, products at `{groupId}` and `{groupId}/{productId}`. Its
 * image validators are the ones of module ImageFiles.
 */
module ProductsService {
  import opened Strings
  import BaseApi

  const GroupPrefix := "products"

  datatype Request = Request(verb: string, path: string)

  function GroupPath(groupId: int): string { IntToString(groupId) }
  function ProductPath(groupId: int, productId: int): string {
    IntToString(groupId) + "/" + IntToString(productId)
  }

  function GetProductGroups(): Request { Request("GET", "") }
  function CreateProductGroup(): Request { Request("POST", "") }
  function UpdateProductGroup(groupId: int): Request { Request("PUT", GroupPath(groupId)) }
  function DeleteProductGroup(groupId: int): Request { Request("DELETE", GroupPath(groupId)) }
  function GetProducts(groupId: int): Request { Request("GET", GroupPath(groupId)) }
  function CreateProduct(groupId: int): Request { Request("POST", GroupPath(groupId)) }
  function GetProduct(groupId: int, productId: int): Request { Request("GET", ProductPath(groupId, productId)) }
  function UpdateProduct(groupId: int, productId: int): Request { Request("PUT", ProductPath(groupId, productId)) }
  function DeleteProduct(groupId: int, productId: int): Request { Request("DELETE", ProductPath(groupId, productId)) }

  /** The full URL of a request: the prefix URL, then the path. */
  function FullPath(baseUrl: string, hostname: Wrappers.Option<string>, r: Request): Wrappers.Option<string> {
    BaseApi.KyUrl(BaseApi.PrefixUrl(baseUrl, GroupPrefix, hostname), r.path)
  }

  /** Group operations address `products/{groupId}` and product operations
      `products/{groupId}/{productId}`; the product path extends the group
      path, and a group path never contains a further `/`. */
  lemma ProductPaths(baseUrl: string, groupId: int, productId: int)
    requires baseUrl != ""
    ensures FullPath(baseUrl, Wrappers.None, UpdateProductGroup(groupId)) ==
      Wrappers.Some(baseUrl + "/products/" + IntToString(groupId))
    ensures FullPath(baseUrl, Wrappers.None, DeleteProduct(groupId, productId)) ==
      Wrappers.Some(baseUrl + "/products/" + IntToString(groupId) + "/" + IntToString(productId))
    ensures StartsWith(ProductPath(groupId, productId), GroupPath(groupId) + "/")
    ensures !Contains(GroupPath(groupId), "/")
  {
    var g := GroupPath(groupId);
    GroupUrl(baseUrl, g);
    GroupUrl(baseUrl, ProductPath(groupId, productId));
    assert baseUrl + "/products/" + ProductPath(groupId, productId) ==
      baseUrl + "/products/" + g + "/" + IntToString(productId);
    assert ProductPath(groupId, productId)[..|g + "/"|] == g + "/";
    forall i | 0 <= i <= |g| ensures !OccursAt("/", g, i) {
      OccursAtChar('/', g, i);
    }
  }

  /** A path that starts with a digit or `-` lands under `products/`. */
  lemma GroupUrl(baseUrl: string, path: string)
    requires baseUrl != "" && |path| > 0 && (path[0] == '-' || '0' <= path[0] <= '9')
    ensures BaseApi.KyUrl(BaseApi.PrefixUrl(baseUrl, GroupPrefix, Wrappers.None), path) ==
      Wrappers.Some(baseUrl + "/products/" + path)
  {
    var prefix := BaseApi.PrefixUrl(baseUrl, GroupPrefix, Wrappers.None);
    assert prefix == baseUrl + "/products" && prefix[|prefix| - 1] == 's';
    assert !StartsWith(path, "/") by { assert path[..1] != "/"; }
    JoinedOnce(prefix, path);
    assert prefix + "/" + path == baseUrl + "/products/" + path;
  }

  /** The prefix and a path joined by one `/`. */
  lemma JoinedOnce(prefix: string, path: string)
    requires prefix != "" && prefix[|prefix| - 1] != '/' && !StartsWith(path, "/")
    ensures BaseApi.KyUrl(prefix, path) == Wrappers.Some(prefix + "/" + path)
  {
    BaseApi.KyUrlOneSlash(prefix, path);
    var u := BaseApi.KyUrl(prefix, path).value;
    assert u == u[..|prefix|] + [u[|prefix|]] + u[|prefix| + 1..];
  }
}
