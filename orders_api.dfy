/** The order API helpers (src/lib/api/orders.ts): the query list `getOrders` sends and the
    paths of the per-order and per-customer calls. */
module OrdersApi {
  import opened Wrappers
  import opened Text
  import opened Types
  import opened QueryParams
  import ProductsApi

  /** `OrderFilters`; every field is optional. */
  datatype OrderFilters = OrderFilters(page: Option<int>, pageSize: Option<int>, status: Option<OrderStatus>)

  const NoFilters: OrderFilters := OrderFilters(None, None, None)

  const OrdersPath: string := "/orders"

  /** A status filter is always truthy, since every status name is non-empty. */
  function StatusParam(s: Option<OrderStatus>): (r: Option<string>)
    ensures r.Some? <==> s.Some?
    ensures r.Some? ==> r.value == StatusName(s.value)
  {
    if s.Some? then Some(StatusName(s.value)) else None
  }

  /** The candidate parameters, in the order `getOrders` considers them. */
  function Candidates(f: OrderFilters): (r: Entries)
    ensures Names(r) == ["page", "pageSize", "status"]
  {
    [("page", ProductsApi.NumberParam(f.page)), ("pageSize", ProductsApi.NumberParam(f.pageSize)),
     ("status", StatusParam(f.status))]
  }

  /** `getOrders`: the path and the parameter list, one conditional append per filter. */
  method GetOrders(f: OrderFilters) returns (path: string, params: Params)
    ensures path == OrdersPath
    ensures params == Collect(Candidates(f))
  {
    path := OrdersPath;
    ghost var c := Candidates(f);
    params := ProductsApi.AppendNumber([], "page", f.page);
    params := ProductsApi.AppendNumber(params, "pageSize", f.pageSize);
    if f.status.Some? {
      params := params + [("status", StatusName(f.status.value))];
    }
    assert [] + Part(c[0]) == Part(c[0]);
    CollectThree(c);
  }

  /** A list of three candidates collects to the concatenation of their parts. */
  lemma CollectThree(c: Entries)
    requires |c| == 3
    ensures Collect(c) == Part(c[0]) + Part(c[1]) + Part(c[2])
  {
    CollectStep(c, 0);
    assert c[..0] == [];
    assert Collect(c[..1]) == Part(c[0]);
    CollectStep(c, 1);
    CollectStep(c, 2);
    assert c[..3] == c;
  }

  /** What the server reads back: page and size when truthy, the status whenever given. */
  lemma OrderParamValues(f: OrderFilters)
    ensures var p := Collect(Candidates(f));
      && Lookup(p, "page") == ProductsApi.NumberParam(f.page)
      && Lookup(p, "pageSize") == ProductsApi.NumberParam(f.pageSize)
      && Lookup(p, "status") == StatusParam(f.status)
  {
    var c := Candidates(f);
    assert Distinct(Names(c));
    CollectLookup(c);
    assert c[0].0 == "page" && c[1].0 == "pageSize" && c[2].0 == "status";
  }

  /** The order is page, pageSize, status, each at most once; the default filters send
      nothing. */
  lemma OrderParamOrder(f: OrderFilters)
    ensures Subsequence(Keys(Collect(Candidates(f))), ["page", "pageSize", "status"])
    ensures Distinct(Keys(Collect(Candidates(f))))
  {
    CollectOrder(Candidates(f));
    CollectDistinct(Candidates(f));
  }

  /** With no filters the request sends no parameter. */
  lemma NoFiltersSendNothing()
    ensures Collect(Candidates(NoFilters)) == []
  {
    CollectEmpty(Candidates(NoFilters));
  }

  /** `getOrderById`. */
  function OrderPath(orderId: string): (r: string)
    ensures StartsWith(r, "/orders/") && r[8..] == orderId
  {
    "/orders/" + orderId
  }

  /** `updateOrderStatus`. */
  function StatusPath(orderId: string): (r: string)
    ensures |r| == |orderId| + 15
    ensures StartsWith(r, "/orders/") && r[8..|r| - 7] == orderId && r[|r| - 7..] == "/status"
  {
    "/orders/" + orderId + "/status"
  }

  /** `cancelOrder`. */
  function CancelPath(orderId: string): (r: string)
    ensures |r| == |orderId| + 15
    ensures StartsWith(r, "/orders/") && r[8..|r| - 7] == orderId && r[|r| - 7..] == "/cancel"
  {
    "/orders/" + orderId + "/cancel"
  }

  /** `getCustomerOrders`. */
  function CustomerOrdersPath(customerId: string): (r: string)
    ensures |r| == |customerId| + 18
    ensures StartsWith(r, "/customers/") && r[11..|r| - 7] == customerId && r[|r| - 7..] == "/orders"
  {
    "/customers/" + customerId + "/orders"
  }

  /** A status update and a cancellation never share a path, and each path names exactly
      one order. */
  lemma OrderPathsDistinct(a: string, b: string)
    ensures StatusPath(a) != CancelPath(b)
    ensures StatusPath(a) == StatusPath(b) <==> a == b
    ensures CancelPath(a) == CancelPath(b) <==> a == b
    ensures CustomerOrdersPath(a) == CustomerOrdersPath(b) <==> a == b
  {
    var s, c := StatusPath(a), CancelPath(b);
    assert s[|s| - 7..][1] != c[|c| - 7..][1];
    if StatusPath(a) == StatusPath(b) {
      assert a == StatusPath(a)[8..|StatusPath(a)| - 7];
    }
    if CancelPath(a) == CancelPath(b) {
      assert a == CancelPath(a)[8..|CancelPath(a)| - 7];
    }
    if CustomerOrdersPath(a) == CustomerOrdersPath(b) {
      assert a == CustomerOrdersPath(a)[11..|CustomerOrdersPath(a)| - 7];
    }
  }
}
