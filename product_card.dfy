/** The product card (src/components/products/ProductCard.tsx): the stock classification,
    the badge it selects, the image fallback and the card's link. */
module ProductCard {
  import opened Wrappers
  import opened Text
  import opened Types
  import ProductsApi

  predicate IsLowStock(p: Product) { 0 < p.stockQuantity <= p.reorderLevel }
  predicate IsOutOfStock(p: Product) { p.stockQuantity == 0 }

  datatype Badge = NoBadge | OutOfStockBadge | LowStockBadge

  /** The stock badge: out of stock first, low stock only when not out of stock. */
  function StockBadge(p: Product): (b: Badge)
    ensures b == OutOfStockBadge <==> p.stockQuantity == 0
    ensures b == LowStockBadge <==> 0 < p.stockQuantity <= p.reorderLevel
    ensures b == NoBadge <==> p.stockQuantity < 0 || (p.stockQuantity > 0 && p.stockQuantity > p.reorderLevel)
  {
    if IsOutOfStock(p) then OutOfStockBadge
    else if IsLowStock(p) && !IsOutOfStock(p) then LowStockBadge
    else NoBadge
  }

  /** The two classes never hold together, so the `!isOutOfStock` guard never decides. */
  lemma StockClassesExclusive(p: Product)
    ensures !(IsLowStock(p) && IsOutOfStock(p))
  {
  }

  /** A negative stock quantity (which the data allows) gets no badge at all. */
  lemma NegativeStockNoBadge(p: Product)
    requires p.stockQuantity < 0
    ensures StockBadge(p) == NoBadge
  {
  }

  /** The image is the product's picture when its URL is non-empty, else a placeholder. */
  function ImageSource(p: Product): (r: Option<string>)
    ensures r.Some? <==> p.imageUrl.Some? && p.imageUrl.value != ""
    ensures r.Some? ==> r == p.imageUrl
  {
    if p.imageUrl.Some? && p.imageUrl.value != "" then p.imageUrl else None
  }

  /** The card links to the product's detail page, the path the product API reads it from. */
  function CardHref(p: Product): (r: string)
    ensures StartsWith(r, "/products/") && r[10..] == p.productId
    ensures r == ProductsApi.ProductPath(p.productId)
  {
    "/products/" + p.productId
  }
}
