/**
 * The product literal of backend/src/utils/seedData.ts and `seedProducts`,
 * which inserts it into an empty product collection.
 */
module SeedData {
  import opened Types
  import opened Wrappers
  import opened ProductSchema
  import opened ProductController
  import opened Seed

  /** The image addresses of the seed rows: one Unsplash photo at width 500. */
  function Unsplash(photo: string): string {
    "https://images.unsplash.com/photo-" + photo + "?w=500"
  }

  const ClassicCottonTShirt: AcceptedRow :=
    Row("Classic Cotton T-Shirt",
      "Premium quality cotton t-shirt with a modern fit. "
      + "Perfect for everyday wear, this versatile piece combines comfort with style.",
      29.99, "Men", ["S", "M", "L", "XL", "XXL"], ["Black", "White", "Navy", "Gray"],
      Unsplash("1521572163474-6864f9cf17ab"),
      [Unsplash("1521572163474-6864f9cf17ab"), Unsplash("1583743814966-8936f5b7be1a")],
      true, 150, true, 4.5, 128)

  const ElegantSummerDress: AcceptedRow :=
    Row("Elegant Summer Dress",
      "Flowing summer dress with floral patterns. "
      + "Lightweight fabric perfect for warm weather and special occasions.",
      79.99, "Women", ["XS", "S", "M", "L"], ["Floral Blue", "Floral Pink", "Solid White"],
      Unsplash("1595777457583-95e059d581b8"),
      [Unsplash("1595777457583-95e059d581b8"), Unsplash("1572804013309-59a88b7e92f1")],
      true, 85, true, 4.8, 94)

  const LeatherCrossbodyBag: AcceptedRow :=
    Row("Leather Crossbody Bag",
      "Handcrafted genuine leather crossbody bag with adjustable strap. "
      + "Features multiple compartments for organization.",
      129.99, "Accessories", ["One Size"], ["Brown", "Black", "Tan"],
      Unsplash("1590874103328-eac38a683ce7"),
      [Unsplash("1590874103328-eac38a683ce7"), Unsplash("1548036328-c9fa89d128fa")],
      true, 45, false, 4.7, 67)

  const PremiumDenimJeans: AcceptedRow :=
    Row("Premium Denim Jeans",
      "Classic fit denim jeans made from premium stretch denim. "
      + "Comfortable, durable, and stylish for any occasion.",
      89.99, "Men", ["28", "30", "32", "34", "36", "38"], ["Dark Blue", "Light Blue", "Black"],
      Unsplash("1542272604-787c3835535d"),
      [Unsplash("1542272604-787c3835535d"), Unsplash("1541099649105-f69ad21f3246")],
      true, 120, true, 4.6, 203)

  const WoolBlendBlazer: AcceptedRow :=
    Row("Wool Blend Blazer",
      "Sophisticated wool blend blazer with a tailored fit. "
      + "Perfect for professional settings and formal events.",
      199.99, "Women", ["XS", "S", "M", "L", "XL"], ["Black", "Navy", "Charcoal"],
      Unsplash("1591369822096-ffd140ec948f"),
      [Unsplash("1591369822096-ffd140ec948f"), Unsplash("1594633313593-bab3825d0caf")],
      true, 60, false, 4.9, 45)

  const RunningSneakersPro: AcceptedRow :=
    Row("Running Sneakers Pro",
      "High-performance running sneakers with advanced cushioning technology. "
      + "Breathable mesh upper and responsive sole.",
      149.99, "Shoes", ["7", "8", "9", "10", "11", "12"], ["White/Blue", "Black/Red", "Gray/Green"],
      Unsplash("1542291026-7eec264c27ff"),
      [Unsplash("1542291026-7eec264c27ff"), Unsplash("1606107557195-0e29a4b5b4aa")],
      true, 95, true, 4.7, 312)

  const CashmereScarf: AcceptedRow :=
    Row("Cashmere Scarf",
      "Luxurious 100% cashmere scarf. "
      + "Incredibly soft and warm, perfect for cold weather styling.",
      89.99, "Accessories", ["One Size"], ["Burgundy", "Camel", "Navy", "Gray"],
      Unsplash("1520903920243-00d872a2d1c9"),
      [Unsplash("1520903920243-00d872a2d1c9")],
      true, 75, false, 4.8, 89)

  const SlimFitChinos: AcceptedRow :=
    Row("Slim Fit Chinos",
      "Modern slim fit chinos in premium cotton twill. "
      + "Versatile pants that work for both casual and smart-casual looks.",
      69.99, "Men", ["28", "30", "32", "34", "36"], ["Khaki", "Navy", "Olive", "Black"],
      Unsplash("1473966968600-fa801b869a1a"),
      [Unsplash("1473966968600-fa801b869a1a")],
      true, 110, false, 4.4, 156)

  const SilkBlouse: AcceptedRow :=
    Row("Silk Blouse",
      "Elegant silk blouse with delicate button details. "
      + "Luxurious fabric with a flattering drape.",
      119.99, "Women", ["XS", "S", "M", "L"], ["Ivory", "Blush", "Black"],
      Unsplash("1564257577-1f5b5d2f7e6e"),
      [Unsplash("1564257577-1f5b5d2f7e6e")],
      true, 55, false, 4.6, 72)

  const WinterParkaJacket: AcceptedRow :=
    Row("Winter Parka Jacket",
      "Insulated winter parka with faux fur hood trim. "
      + "Water-resistant outer shell keeps you warm and dry.",
      249.99, "Sale", ["S", "M", "L", "XL"], ["Black", "Olive", "Navy"],
      Unsplash("1539533018447-63fcce2678e3"),
      [Unsplash("1539533018447-63fcce2678e3")],
      true, 40, true, 4.9, 187)

  /** The product literal handed to `insertMany`, in its order. */
  const SeedRows: seq<AcceptedRow> := [
    ClassicCottonTShirt, ElegantSummerDress, LeatherCrossbodyBag,
    PremiumDenimJeans, WoolBlendBlazer, RunningSneakersPro,
    CashmereScarf, SlimFitChinos, SilkBlouse,
    WinterParkaJacket
  ]

  /**
   * An empty collection receives exactly the ten rows, in order, each as
   * `new Product(row)` builds it under its generated id.
   */
  lemma EmptyStoreGetsTheTenRows(ids: seq<string>, now: int)
    requires |ids| == |SeedRows|
    ensures var r := AfterSeedProducts([], SeedRows, ids, now, true);
      && |r| == 10
      && forall i :: 0 <= i < 10 ==> r[i] == Build(SeedRows[i], ids[i], now)
  {
    var r := AfterSeedProducts([], SeedRows, ids, now, true);
    forall i | 0 <= i < 10
      ensures r[i] == Build(SeedRows[i], ids[i], now)
    {
      assert NewProduct(SeedRows[i], ids[i], now) == Some(r[i]);
    }
  }

  /**
   * `seedProducts`. `ids` are the ObjectIds `insertMany` generates for the
   * ten documents, one per row and all different, in lower-case hex;
   * `inserted` says whether `insertMany` succeeds.
   */
  method SeedProducts(store: ProductCollection, ids: seq<string>, now: int, inserted: bool)
    requires store.Valid()
    requires |ids| == |SeedRows| && Distinct(ids)
    requires forall i :: 0 <= i < |ids| ==> CanonicalId(ids[i])
    modifies store
    ensures store.Valid()
    ensures store.products == AfterSeedProducts(old(store.products), SeedRows, ids, now, inserted)
  {
    var count := |store.products|;
    if count > 0 || !inserted {
      return;
    }
    DocumentsValid(SeedRows, ids, now);
    store.products := Documents(SeedRows, ids, now);
  }
}
