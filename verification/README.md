# Shrine product list and image requester, modelled in Dafny

Shrine is the demo shop of the Material Components "building beautiful apps"
codelab. Its main screen shows a grid of products, each row with a remotely
loaded picture and a price. The complete version also puts one product's picture in
the app bar. This project models the logic of that screen that the app's own code
carries out:

- **Header product** (`catalog.dfy`, module `Catalog`). `getHeaderProduct` of the
  complete `MainActivity` throws for an empty list. Otherwise it returns the first
  product titled "Perfect Goldfish Bowl", or the first product when none has that
  title. The model is a specification function `HeaderProductOf` with a
  `Result` for the exception, and a method `GetHeaderProduct` whose index loop
  with an early return is proved equal to it.
- **Product list** (`product_list.dfy`, module `ProductList`). `ProductAdapter` is a
  class whose `products` field `SetProducts` replaces. `GetItemCount` returns its
  length, and `OnBindViewHolder(i)` binds `products[i]` into a row.
  `ProductViewHolder` is a class whose `Bind` sets the row's tag, the URL of its
  network image view and its price text. `RowState` is the record of these three.
  The starter and the complete `MainActivity` declare the same adapter and view
  holder text (starter lines 70-111, complete lines 108-150), so one model serves both.
- **Image requester** (`image_requester.dfy`, module `ImageRequesting`).
  `calculateMaxByteSize` is written in Kotlin `Int` arithmetic, with every
  multiplication wrapped to 32 bits two's complement. The lemmas prove three
  facts about it. It equals the exact width x height x 4 x 3 wrapped once. It is
  exact, a multiple of 12 and monotone when that product is below 2^31. It does
  wrap for huge displays. The requester keeps that budget as the cache's maximum
  size. `getInstance` is modelled sequentially on a companion object holding the
  static `instance` field and a ghost count of constructor runs. When construction
  succeeds, as it always does in the model, the constructor runs at most once and
  every call returns the same requester.
- `wrappers.dfy` holds the `Option` and `Result` datatypes.

The model declares `ProductEntry` as the record `{title, price, url}` that the
code reads. An Android
`Context` is reduced to its display metrics. A `NetworkImageView` is reduced to
the URL and the requester it was last given.

This repository's code does no LRU eviction, per-URL de-duplication or
cancellation of stale loads itself. It gives a size budget to
`android.util.LruCache` and hands URLs to Volley's `ImageLoader` and
`NetworkImageView`. Those behaviours are listed under "Left out".

## Model

| member | source | states |
|---|---|---|
| Catalog.FindTitle | demos/codelabs/building-beautiful-apps/complete/app/src/main/java/io/material/demo/codelab/buildingbeautifulapps/MainActivity.kt:80-84 | The index it returns lies between `from` and the length. No product before it has the title. When it is below the length, that product has the title. |
| Catalog.HeaderProductOf | demos/codelabs/building-beautiful-apps/complete/app/src/main/java/io/material/demo/codelab/buildingbeautifulapps/MainActivity.kt:75-86 | It fails exactly when the list is empty, with the "There must be at least one product" illegal-argument error. Otherwise the result is an element of the list. A result not titled "Perfect Goldfish Bowl" means no product has that title. |
| Catalog.GetHeaderProduct | demos/codelabs/building-beautiful-apps/complete/app/src/main/java/io/material/demo/codelab/buildingbeautifulapps/MainActivity.kt:75-86 | The index loop with an early return gives exactly HeaderProductOf's result, including the error for an empty list. |
| Catalog.HeaderProductIsFirstMatch | demos/codelabs/building-beautiful-apps/complete/app/src/main/java/io/material/demo/codelab/buildingbeautifulapps/MainActivity.kt:80-84 | When products have the header title, the result is the one at the lowest such index. |
| Catalog.HeaderProductFallsBackToFirst | demos/codelabs/building-beautiful-apps/complete/app/src/main/java/io/material/demo/codelab/buildingbeautifulapps/MainActivity.kt:85 | For a non-empty list with no product of the header title, the result is products[0]. |
| Catalog.FindTitleFindsMember | demos/codelabs/building-beautiful-apps/complete/app/src/main/java/io/material/demo/codelab/buildingbeautifulapps/MainActivity.kt:80-85 | The search stops inside the list if and only if some product from `from` on has the title. |
| ImageRequesting.Wrap32 | demos/codelabs/building-beautiful-apps/starter/app/src/main/java/io/material/demo/codelab/buildingbeautifulapps/ImageRequester.kt:67-68 | The Kotlin Int result is congruent to the exact value modulo 2^32. It equals the exact value whenever that value fits in an Int. |
| ImageRequesting.Mul32 | demos/codelabs/building-beautiful-apps/starter/app/src/main/java/io/material/demo/codelab/buildingbeautifulapps/ImageRequester.kt:67-68 | Kotlin Int multiplication: the result is congruent to the exact product modulo 2^32, and equals it whenever it fits in an Int. |
| ImageRequesting.CalculateMaxByteSize | demos/codelabs/building-beautiful-apps/starter/app/src/main/java/io/material/demo/codelab/buildingbeautifulapps/ImageRequester.kt:65-69 | The three wrapping multiplications of calculateMaxByteSize, in the source's order, equal width x height x 12 wrapped once to an Int. |
| ImageRequesting.MaxByteSizeExact | demos/codelabs/building-beautiful-apps/starter/app/src/main/java/io/material/demo/codelab/buildingbeautifulapps/ImageRequester.kt:65-69 | When width x height x 12 lies in [0, 2^31), the budget is exactly widthPixels x heightPixels x 4 x 3. |
| ImageRequesting.MaxByteSizeMultipleOf12 | demos/codelabs/building-beautiful-apps/starter/app/src/main/java/io/material/demo/codelab/buildingbeautifulapps/ImageRequester.kt:67-68 | Without overflow, the budget is non-negative and a multiple of 12. |
| ImageRequesting.MaxByteSizeMonotone | demos/codelabs/building-beautiful-apps/starter/app/src/main/java/io/material/demo/codelab/buildingbeautifulapps/ImageRequester.kt:67-68 | Without overflow, a display at least as wide and at least as tall (non-negative dimensions) never gets a smaller budget. |
| ImageRequesting.MaxByteSizeFullHd | demos/codelabs/building-beautiful-apps/starter/app/src/main/java/io/material/demo/codelab/buildingbeautifulapps/ImageRequester.kt:65-69 | A 1080 x 1920 display gets 24,883,200 bytes. |
| ImageRequesting.MaxByteSizeWrapsNegative | demos/codelabs/building-beautiful-apps/starter/app/src/main/java/io/material/demo/codelab/buildingbeautifulapps/ImageRequester.kt:65-69 | A 16384 x 16384 display overflows Int arithmetic, and the budget comes out as -2^30. |
| ImageRequesting.NetworkImageView.constructor | demos/codelabs/building-beautiful-apps/complete/app/src/main/java/io/material/demo/codelab/buildingbeautifulapps/MainActivity.kt:139 | A row's image view starts with no URL and no loader. |
| ImageRequesting.NetworkImageView.SetImageUrl | demos/codelabs/building-beautiful-apps/starter/app/src/main/java/io/material/demo/codelab/buildingbeautifulapps/ImageRequester.kt:59 | The view records the URL it is asked to show and the requester whose loader fetches it. |
| ImageRequesting.ImageRequester.constructor | demos/codelabs/building-beautiful-apps/starter/app/src/main/java/io/material/demo/codelab/buildingbeautifulapps/ImageRequester.kt:35-42 | maxByteSize is computed once, from the constructing context's display, and it is the maximum size the bitmap cache gets. |
| ImageRequesting.ImageRequester.SetImageFromUrl | demos/codelabs/building-beautiful-apps/starter/app/src/main/java/io/material/demo/codelab/buildingbeautifulapps/ImageRequester.kt:58-60 | Afterwards the view shows the given URL and loads it through this requester. |
| ImageRequesting.ImageRequesterCompanion.constructor | demos/codelabs/building-beautiful-apps/starter/app/src/main/java/io/material/demo/codelab/buildingbeautifulapps/ImageRequester.kt:63 | The static instance starts out null, with no constructor run. |
| ImageRequesting.ImageRequesterCompanion.GetInstance | demos/codelabs/building-beautiful-apps/starter/app/src/main/java/io/material/demo/codelab/buildingbeautifulapps/ImageRequester.kt:77-90 | The result is never null, and afterwards the static instance is set to it. A set instance is returned unchanged, without constructing. A null instance leads to exactly one construction, from this call's context. With construction always succeeding, the constructor runs at most once. |
| ImageRequesting.GetInstanceTwice | demos/codelabs/building-beautiful-apps/starter/app/src/main/java/io/material/demo/codelab/buildingbeautifulapps/ImageRequester.kt:77-90 | Two successive calls return the same requester. Its budget comes from the first call's context only, and the constructor ran once. |
| ProductList.ProductViewHolder.constructor | demos/codelabs/building-beautiful-apps/complete/app/src/main/java/io/material/demo/codelab/buildingbeautifulapps/MainActivity.kt:128-142 | A new row has no tag, no image URL and no price text. |
| ProductList.ProductViewHolder.Bind | demos/codelabs/building-beautiful-apps/complete/app/src/main/java/io/material/demo/codelab/buildingbeautifulapps/MainActivity.kt:145-149 | Afterwards the tag is the product, the image URL is its url and the price text is its price, loaded through the given requester, whatever the row showed before. |
| ProductList.BindTwice | starter/app/src/main/java/io/material/demo/codelab/buildingbeautifulapps/MainActivity.kt:106-110 | After bind(p) then bind(q), the row shows q and, for p different from q, no longer shows p: the last bind wins. |
| ProductList.BindSameTwice | starter/app/src/main/java/io/material/demo/codelab/buildingbeautifulapps/MainActivity.kt:106-110 | Binding a product twice leaves the same row state as binding it once. |
| ProductList.RebindLastWins | demos/codelabs/building-beautiful-apps/complete/app/src/main/java/io/material/demo/codelab/buildingbeautifulapps/MainActivity.kt:119-121 | Binding position i and then position j into one row leaves it showing products[j], and no longer products[i] unless the two products are equal. |
| ProductList.ProductAdapter.constructor | demos/codelabs/building-beautiful-apps/complete/app/src/main/java/io/material/demo/codelab/buildingbeautifulapps/MainActivity.kt:108 | The adapter starts with the given products and requester, with no refresh signalled. |
| ProductList.ProductAdapter.SetProducts | starter/app/src/main/java/io/material/demo/codelab/buildingbeautifulapps/MainActivity.kt:72-75 | The product sequence is replaced by the new one and one full-refresh signal is added. Nothing else changes. |
| ProductList.ProductAdapter.OnCreateViewHolder | starter/app/src/main/java/io/material/demo/codelab/buildingbeautifulapps/MainActivity.kt:77-79 | A new, unbound row is returned. |
| ProductList.ProductAdapter.OnBindViewHolder | demos/codelabs/building-beautiful-apps/complete/app/src/main/java/io/material/demo/codelab/buildingbeautifulapps/MainActivity.kt:119-121 | For a position in range, the row shows products[i] and loads its image through the adapter's requester. |
| ProductList.ProductAdapter.GetItemCount | demos/codelabs/building-beautiful-apps/complete/app/src/main/java/io/material/demo/codelab/buildingbeautifulapps/MainActivity.kt:123-125 | The count is the length of the current product sequence. |
| ProductList.SetProductsThenBind | demos/codelabs/building-beautiful-apps/complete/app/src/main/java/io/material/demo/codelab/buildingbeautifulapps/MainActivity.kt:110-125 | After setProducts, the count is the new length and row i shows the new products[i]. |

## Left out

- Bitmap cache eviction: the least-recently-used eviction and `sizeOf` accounting belong to `android.util.LruCache` (demos/codelabs/building-beautiful-apps/starter/app/src/main/java/io/material/demo/codelab/buildingbeautifulapps/ImageRequester.kt:42-54). The model keeps only the maximum size given to the cache.
- Request de-duplication, asynchronous fetching, decoding and cancellation of stale loads: these happen inside Volley's `RequestQueue`, `ImageLoader` and `NetworkImageView`, whose code is not part of this model. `NetworkImageView.SetImageUrl` records only the last URL and loader.
- Synchronisation: `@Synchronized`, `@Volatile` and the `synchronized` block of `getInstance`. The model is sequential. It keeps the double check, but not the interleavings it guards against.
- The static `instance` field: it is modelled as a field of an explicit companion object, not as global state.
- ImageRequesting.ImageRequesterCompanion.GetInstance: the model's construction always succeeds. In the app, `LruCache` throws for a budget that is not positive, such as the overflowed one of `MaxByteSizeWrapsNegative`. `getInstance` would then pass the exception on and leave `instance` null. Every later call would run the constructor again and start another request queue (demos/codelabs/building-beautiful-apps/starter/app/src/main/java/io/material/demo/codelab/buildingbeautifulapps/ImageRequester.kt:36-42, 83). "At most one constructor run" holds only when construction succeeds.
- ImageRequesting.ImageRequester.constructor: the start of the request queue is not modelled, and neither is `LruCache` rejecting a budget that is not positive (an overflowed one, for instance).
- ProductList.ProductViewHolder.constructor: the image and text that the inflated layout shows before the first bind are not modelled. `None` stands for them.
- ProductList.ProductAdapter.OnBindViewHolder: it requires a position below the product count. RecyclerView asks only for such positions, and Kotlin's list indexing would throw otherwise.
- ProductEntry fields are never null in the model. Gson can leave a field null that Kotlin's type says is not. For a null title, the comparison at demos/codelabs/building-beautiful-apps/complete/app/src/main/java/io/material/demo/codelab/buildingbeautifulapps/MainActivity.kt:81 would simply be false.
- `readProductsList` and `JsonReader`: resource I/O and JSON deserialisation by a library.
- `shuffleProducts`: randomness inside `Collections.shuffle`, plus a re-read of the JSON. Its call to `setProducts` is modelled.
- Activity lifecycle, layout inflation, layout managers, navigation and scroll listeners, and the no-op click listener. This includes the header image request in `onCreate` (demos/codelabs/building-beautiful-apps/complete/app/src/main/java/io/material/demo/codelab/buildingbeautifulapps/MainActivity.kt:50-51), which is a `getHeaderProduct` followed by a `setImageFromUrl`.
- `notifyDataSetChanged` is modelled only as a count of full-refresh signals.
