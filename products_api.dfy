/** The product API helpers (src/lib/api/products.ts): the query list `getProducts` sends
    and the paths of the single-product calls. The HTTP calls themselves are not modelled. */
module ProductsApi {
  import opened Wrappers
  import opened Text
  import opened QueryParams

  /** `ProductFilters`; every field is optional. Prices are modelled as integers. */
  datatype ProductFilters = ProductFilters(
    page: Option<int>,
    pageSize: Option<int>,
    category: Option<string>,
    search: Option<string>,
    minPrice: Option<int>,
    maxPrice: Option<int>,
    inStockOnly: Option<bool>)

  const NoFilters: ProductFilters := ProductFilters(None, None, None, None, None, None, None)

  const ProductsPath: string := "/products"
  const ProductsPrefix: string := "/products/"

  /** A number filter is sent only when it is truthy: present and not 0. */
  function NumberParam(n: Option<int>): (r: Option<string>)
    ensures r.Some? <==> n.Some? && n.value != 0
  {
    if n.Some? && n.value != 0 then Some(IntToString(n.value)) else None
  }

  /** A text filter is sent only when it is truthy: present and not empty. */
  function TextParam(s: Option<string>): (r: Option<string>)
    ensures r.Some? <==> s.Some? && s.value != ""
    ensures r.Some? ==> r == s
  {
    if s.Some? && s.value != "" then s else None
  }

  /** `inStockOnly` is sent, as the text `true`, only when it is `true`. */
  function FlagParam(b: Option<bool>): (r: Option<string>)
    ensures r.Some? <==> b == Some(true)
    ensures r.Some? ==> r.value == "true"
  {
    if b == Some(true) then Some("true") else None
  }

  /** The seven candidate parameters, in the order `getProducts` considers them. */
  function Candidates(f: ProductFilters): (r: Entries)
  {
    [("page", NumberParam(f.page)), ("pageSize", NumberParam(f.pageSize)),
     ("category", TextParam(f.category)), ("search", TextParam(f.search)),
     ("minPrice", NumberParam(f.minPrice)), ("maxPrice", NumberParam(f.maxPrice)),
     ("inStockOnly", FlagParam(f.inStockOnly))]
  }

  /** The candidates carry the seven filter names, in order. */
  lemma CandidateNames(f: ProductFilters)
    ensures Names(Candidates(f)) == ["page", "pageSize", "category", "search", "minPrice", "maxPrice", "inStockOnly"]
  {
  }

  /** `if (filters.x) params.append('x', filters.x.toString())` for a number filter. */
  method AppendNumber(params: Params, name: string, n: Option<int>) returns (r: Params)
    ensures r == params + Part((name, NumberParam(n)))
  {
    r := params;
    if n.Some? && n.value != 0 {
      r := r + [(name, IntToString(n.value))];
    }
  }

  /** `if (filters.x) params.append('x', filters.x)` for a text filter. */
  method AppendText(params: Params, name: string, s: Option<string>) returns (r: Params)
    ensures r == params + Part((name, TextParam(s)))
  {
    r := params;
    if s.Some? && s.value != "" {
      r := r + [(name, s.value)];
    }
  }

  /** `getProducts`: the request path (to which the encoded list is appended after `?`)
      and the parameter list, built by one conditional append per filter. */
  method GetProducts(f: ProductFilters) returns (path: string, params: Params)
    ensures path == ProductsPath
    ensures params == Collect(Candidates(f))
  {
    path := ProductsPath;
    ghost var c := Candidates(f);
    params := AppendNumber([], "page", f.page);
    params := AppendNumber(params, "pageSize", f.pageSize);
    params := AppendText(params, "category", f.category);
    params := AppendText(params, "search", f.search);
    params := AppendNumber(params, "minPrice", f.minPrice);
    params := AppendNumber(params, "maxPrice", f.maxPrice);
    if f.inStockOnly == Some(true) {
      params := params + [("inStockOnly", "true")];
    }
    assert params == [] + Part(c[0]) + Part(c[1]) + Part(c[2]) + Part(c[3]) + Part(c[4])
      + Part(c[5]) + Part(c[6]);
    assert [] + Part(c[0]) == Part(c[0]);
    CollectSeven(c);
  }

  /** A list of seven candidates collects to the concatenation of their parts. */
  lemma CollectSeven(c: Entries)
    requires |c| == 7
    ensures Collect(c) == Part(c[0]) + Part(c[1]) + Part(c[2]) + Part(c[3]) + Part(c[4]) + Part(c[5]) + Part(c[6])
  {
    CollectStep(c, 0);
    assert c[..0] == [];
    assert Collect(c[..1]) == Part(c[0]);
    CollectStep(c, 1);
    CollectStep(c, 2);
    CollectStep(c, 3);
    CollectStep(c, 4);
    CollectStep(c, 5);
    CollectStep(c, 6);
    assert c[..7] == c;
  }

  /** What the server reads back for each filter: a truthy number as its decimal text, a
      non-empty text as itself, `inStockOnly` as `true`; anything falsy is absent. */
  lemma ProductParamValues(f: ProductFilters)
    ensures var p := Collect(Candidates(f));
      && Lookup(p, "page") == NumberParam(f.page)
      && Lookup(p, "pageSize") == NumberParam(f.pageSize)
      && Lookup(p, "category") == TextParam(f.category)
      && Lookup(p, "search") == TextParam(f.search)
      && Lookup(p, "minPrice") == NumberParam(f.minPrice)
      && Lookup(p, "maxPrice") == NumberParam(f.maxPrice)
      && Lookup(p, "inStockOnly") == FlagParam(f.inStockOnly)
  {
    var c := Candidates(f);
    assert Distinct(Names(c));
    CollectLookup(c);
    assert c[0].0 == "page" && c[1].0 == "pageSize" && c[2].0 == "category" && c[3].0 == "search";
    assert c[4].0 == "minPrice" && c[5].0 == "maxPrice" && c[6].0 == "inStockOnly";
  }

  /** The parameters come in the fixed order of the filters and none is repeated. */
  lemma ProductParamOrder(f: ProductFilters)
    ensures Subsequence(Keys(Collect(Candidates(f))), ["page", "pageSize", "category", "search", "minPrice", "maxPrice", "inStockOnly"])
    ensures Distinct(Keys(Collect(Candidates(f))))
  {
    CandidateNames(f);
    CollectOrder(Candidates(f));
    CollectDistinct(Candidates(f));
  }

  /** Filters that are all falsy (the default `{}`, a page 0, an empty search, a `false`
      stock flag) send no parameter at all; one truthy filter is enough to send one. */
  lemma FalsyFiltersSendNothing(f: ProductFilters)
    ensures Collect(Candidates(f)) == [] <==>
      && NumberParam(f.page).None? && NumberParam(f.pageSize).None?
      && TextParam(f.category).None? && TextParam(f.search).None?
      && NumberParam(f.minPrice).None? && NumberParam(f.maxPrice).None?
      && f.inStockOnly != Some(true)
  {
    var c := Candidates(f);
    CollectSeven(c);
    assert |Collect(c)| == |Part(c[0])| + |Part(c[1])| + |Part(c[2])| + |Part(c[3])|
      + |Part(c[4])| + |Part(c[5])| + |Part(c[6])|;
  }

  /** With no filters the request sends no parameter. */
  lemma NoFiltersSendNothing()
    ensures Collect(Candidates(NoFilters)) == []
  {
    CollectEmpty(Candidates(NoFilters));
  }

  /** `getProductById`, `updateProduct` and `deleteProduct` address `/products/<id>`. */
  function ProductPath(productId: string): (r: string)
    ensures StartsWith(r, ProductsPrefix) && r[|ProductsPrefix|..] == productId
  {
    ProductsPrefix + productId
  }

  /** Different ids address different products. */
  lemma ProductPathInjective(a: string, b: string)
    ensures ProductPath(a) == ProductPath(b) <==> a == b
  {
    if ProductPath(a) == ProductPath(b) {
      assert a == ProductPath(a)[|ProductsPrefix|..];
    }
  }
}
