/**
 * The Shrine product catalog record and the choice of the product shown in the
 * app bar header (getHeaderProduct in the complete MainActivity).
 */
module Catalog {
  import opened Wrappers

  /** One catalog record, as read from the bundled JSON list. */
  datatype ProductEntry = ProductEntry(title: string, price: string, url: string)

  /** What getHeaderProduct throws when handed an empty list. */
  datatype HeaderError = IllegalArgument(message: string)

  /** The title of the product the header prefers. */
  const HeaderTitle: string := "Perfect Goldfish Bowl"

  /** The message of the exception thrown for an empty list. */
  const EmptyListMessage: string := "There must be at least one product"

  /** `k` is the lowest index whose product carries the header title. */
  ghost predicate IsFirstHeaderMatch(products: seq<ProductEntry>, k: int)
  {
    0 <= k < |products| &&
    products[k].title == HeaderTitle &&
    forall j :: 0 <= j < k ==> products[j].title != HeaderTitle
  }

  /**
   * The first index at or after `from` whose product has the given title,
   * or `|products|` when there is none.
   */
  function FindTitle(products: seq<ProductEntry>, title: string, from: nat): (k: nat)
    requires from <= |products|
    ensures from <= k <= |products|
    ensures k < |products| ==> products[k].title == title
    ensures forall j :: from <= j < k ==> products[j].title != title
    decreases |products| - from
  {
    if from == |products| then from
    else if products[from].title == title then from
    else FindTitle(products, title, from + 1)
  }

  /**
   * The header product: an error for an empty list, otherwise the first product
   * titled HeaderTitle, falling back to the first product of the list.
   */
  function HeaderProductOf(products: seq<ProductEntry>): (r: Result<ProductEntry, HeaderError>)
    ensures r.Failure? <==> |products| == 0
    ensures r.Failure? ==> r.error == IllegalArgument(EmptyListMessage)
    ensures r.Success? ==> r.value in products
    ensures r.Success? && r.value.title != HeaderTitle ==>
              forall p :: p in products ==> p.title != HeaderTitle
  {
    if |products| == 0 then Failure(IllegalArgument(EmptyListMessage))
    else
      var k := FindTitle(products, HeaderTitle, 0);
      if k < |products| then Success(products[k]) else Success(products[0])
  }

  /** getHeaderProduct: the index loop with an early return. */
  method GetHeaderProduct(products: seq<ProductEntry>) returns (r: Result<ProductEntry, HeaderError>)
    ensures r == HeaderProductOf(products)
  {
    if |products| == 0 {
      return Failure(IllegalArgument(EmptyListMessage));
    }
    var i := 0;
    while i < |products|
      invariant 0 <= i <= |products|
      invariant FindTitle(products, HeaderTitle, i) == FindTitle(products, HeaderTitle, 0)
    {
      if HeaderTitle == products[i].title {
        return Success(products[i]);
      }
      i := i + 1;
    }
    return Success(products[0]);
  }

  /** When some product carries the header title, the one with the lowest index is chosen. */
  lemma HeaderProductIsFirstMatch(products: seq<ProductEntry>, k: int)
    requires IsFirstHeaderMatch(products, k)
    ensures HeaderProductOf(products) == Success(products[k])
  {
  }

  /** When no product carries the header title, the first product is chosen. */
  lemma HeaderProductFallsBackToFirst(products: seq<ProductEntry>)
    requires |products| > 0
    requires forall p :: p in products ==> p.title != HeaderTitle
    ensures HeaderProductOf(products) == Success(products[0])
  {
  }

  /** The search finds a match exactly when the list holds a product with the title. */
  lemma FindTitleFindsMember(products: seq<ProductEntry>, title: string, from: nat)
    requires from <= |products|
    ensures FindTitle(products, title, from) < |products| <==>
              exists j :: from <= j < |products| && products[j].title == title
  {
  }
}
