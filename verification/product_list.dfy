/**
 * The product list of the Shrine main screen: the RecyclerView adapter that owns
 * the product sequence and the view holder that shows one product in a row.
 * The starter and the complete MainActivity declare the same ProductAdapter and
 * ProductViewHolder; this one model stands for both.
 */
module ProductList {
  import opened Wrappers
  import opened Catalog
  import opened ImageRequesting

  /**
   * What a row shows: the product stored as the item view's tag, the URL its
   * image view was asked to load and the text of its price view.
   */
  datatype RowState = RowState(tag: Option<ProductEntry>, imageUrl: Option<string>, priceText: Option<string>)

  /** A freshly inflated row, before any product is bound to it. */
  const Unbound: RowState := RowState(None, None, None)

  /** The row state that binding `product` produces. */
  function BoundTo(product: ProductEntry): RowState
  {
    RowState(Some(product), Some(product.url), Some(product.price))
  }

  /** The row shows `product` in all three of its parts. */
  predicate Shows(row: RowState, product: ProductEntry)
  {
    row.tag == Some(product) && row.imageUrl == Some(product.url) && row.priceText == Some(product.price)
  }

  /** ProductViewHolder: one recyclable row of the product grid. */
  class ProductViewHolder {
    /** The item view's product tag (R.id.tag_product_entry). */
    var tag: Option<ProductEntry>
    /** The row's network image view. */
    const imageView: NetworkImageView
    /** The text of the row's price view. */
    var priceText: Option<string>

    function State(): RowState
      reads this, imageView
    {
      RowState(tag, imageView.imageUrl, priceText)
    }

    constructor ()
      ensures State() == Unbound && fresh(imageView)
    {
      tag := None;
      priceText := None;
      imageView := new NetworkImageView();
    }

    /**
     * bind: tag the row with the product, ask the requester for the product's
     * image, and show its price. The new state does not depend on the old one.
     */
    method Bind(product: ProductEntry, imageRequester: ImageRequester)
      modifies this, imageView
      ensures State() == BoundTo(product)
      ensures imageView.loader == imageRequester
    {
      tag := Some(product);
      imageRequester.SetImageFromUrl(imageView, product.url);
      priceText := Some(product.price);
    }
  }

  /** Binding two products in turn leaves the row showing the second: the last bind wins. */
  method BindTwice(holder: ProductViewHolder, first: ProductEntry, second: ProductEntry, imageRequester: ImageRequester)
    modifies holder, holder.imageView
    ensures Shows(holder.State(), second)
    ensures first != second ==> !Shows(holder.State(), first)
  {
    holder.Bind(first, imageRequester);
    holder.Bind(second, imageRequester);
  }

  /** Binding the same product twice leaves the row as binding it once does. */
  method BindSameTwice(holder: ProductViewHolder, product: ProductEntry, imageRequester: ImageRequester)
    modifies holder, holder.imageView
    ensures holder.State() == BoundTo(product)
  {
    holder.Bind(product, imageRequester);
    ghost var once := holder.State();
    holder.Bind(product, imageRequester);
    assert holder.State() == once;
  }

  /** ProductAdapter: the product sequence behind the grid. */
  class ProductAdapter {
    /** The products in display order. */
    var products: seq<ProductEntry>
    /** The requester every row loads its image with. */
    const imageRequester: ImageRequester
    /** How many times the adapter has told the view that the whole data set changed. */
    var dataSetChanges: nat

    constructor (products: seq<ProductEntry>, imageRequester: ImageRequester)
      ensures this.products == products && this.imageRequester == imageRequester
      ensures dataSetChanges == 0
    {
      this.products := products;
      this.imageRequester := imageRequester;
      dataSetChanges := 0;
    }

    /** setProducts: replace the whole sequence and signal a full refresh. */
    method SetProducts(products: seq<ProductEntry>)
      modifies this
      ensures this.products == products
      ensures dataSetChanges == old(dataSetChanges) + 1
    {
      this.products := products;
      dataSetChanges := dataSetChanges + 1;
    }

    /** onCreateViewHolder: a new, unbound row. */
    method OnCreateViewHolder() returns (holder: ProductViewHolder)
      ensures fresh(holder) && fresh(holder.imageView)
      ensures holder.State() == Unbound
    {
      holder := new ProductViewHolder();
    }

    /** onBindViewHolder: show the product at position `i` in the given row. */
    method OnBindViewHolder(viewHolder: ProductViewHolder, i: int)
      requires 0 <= i < |products|
      modifies viewHolder, viewHolder.imageView
      ensures Shows(viewHolder.State(), products[i])
      ensures viewHolder.imageView.loader == imageRequester
    {
      viewHolder.Bind(products[i], imageRequester);
    }

    /** getItemCount: the number of rows is the number of products. */
    method GetItemCount() returns (count: int)
      ensures count == |products|
    {
      count := |products|;
    }
  }

  /**
   * Binding position `i` and then position `j` into the same row leaves it showing
   * `products[j]`; it no longer shows `products[i]` unless the two are equal.
   */
  method RebindLastWins(adapter: ProductAdapter, holder: ProductViewHolder, i: int, j: int)
    requires 0 <= i < |adapter.products| && 0 <= j < |adapter.products|
    modifies holder, holder.imageView
    ensures Shows(holder.State(), adapter.products[j])
    ensures adapter.products[i] != adapter.products[j] ==> !Shows(holder.State(), adapter.products[i])
  {
    adapter.OnBindViewHolder(holder, i);
    adapter.OnBindViewHolder(holder, j);
  }

  /**
   * After setProducts, the row count is the new sequence's length and row `i`
   * shows the new sequence's product `i`.
   */
  method SetProductsThenBind(adapter: ProductAdapter, newProducts: seq<ProductEntry>,
                             holder: ProductViewHolder, i: int) returns (count: int)
    requires 0 <= i < |newProducts|
    modifies adapter, holder, holder.imageView
    ensures count == |newProducts| && adapter.products == newProducts
    ensures Shows(holder.State(), newProducts[i])
  {
    adapter.SetProducts(newProducts);
    count := adapter.GetItemCount();
    adapter.OnBindViewHolder(holder, i);
  }
}
