/**
 * The start-up seeding of backend/src/utils/seedData.ts: the ten catalogue
 * products are inserted only into an empty product collection, and the admin
 * account only when no user holds the admin email. Each guard makes a second
 * run do nothing.
 */
module Seed {
  import opened Types
  import opened Wrappers
  import opened Text
  import opened ProductSchema
  import opened ProductController
  import opened Environment

  /** A body that `new Product(body)` followed by validation accepts. */
  type AcceptedRow = f: ProductFields | RequiredPresent(f) && FieldsValid(f)
    witness ProductFields(Some("-"), Some("-"), Some(0.0), Some("Men"), None, None, Some("-"), None, None, None, None,
      None, None)

  /**
   * A seed row: every field the literal gives, all present. A name that starts
   * with a visible character and values in range are what the validators ask.
   */
  function Row(name: string, description: string, price: real, category: string, sizes: seq<string>,
               colors: seq<string>, imageUrl: string, images: seq<string>, inStock: bool,
               stockQuantity: int, featured: bool, rating: real, reviewCount: int): AcceptedRow
    requires |name| > 0 && !IsSpace(name[0])
    requires description != "" && price >= 0.0 && category in Categories && imageUrl != ""
    requires stockQuantity >= 0 && 0.0 <= rating <= 5.0 && reviewCount >= 0
  {
    TrimEmptyIffAllSpace(name);
    ProductFields(Some(name), Some(description), Some(price), Some(category), Some(sizes), Some(colors),
      Some(imageUrl), Some(images), Some(inStock), Some(stockQuantity), Some(featured), Some(rating),
      Some(reviewCount))
  }

  /** The documents `insertMany` stores: each row built and validated as `new Product(row)` would be. */
  function Documents(rows: seq<AcceptedRow>, ids: seq<string>, now: int): (r: seq<Product>)
    requires |ids| == |rows|
    ensures |r| == |rows|
    ensures forall i :: 0 <= i < |r| ==> NewProduct(rows[i], ids[i], now) == Some(r[i])
  {
    seq(|rows|, i requires 0 <= i < |rows| => Build(rows[i], ids[i], now))
  }

  predicate Distinct(ids: seq<string>) {
    forall i, j :: 0 <= i < j < |ids| ==> ids[i] != ids[j]
  }

  /**
   * Under distinct ids, spelled as the driver writes generated ObjectIds, the
   * inserted documents form a collection the CRUD handlers accept.
   */
  lemma DocumentsValid(rows: seq<AcceptedRow>, ids: seq<string>, now: int)
    requires |ids| == |rows| && Distinct(ids)
    requires forall i :: 0 <= i < |ids| ==> CanonicalId(ids[i])
    ensures StoreValid(Documents(rows, ids, now))
    ensures forall i :: 0 <= i < |rows| ==> Documents(rows, ids, now)[i].id == ids[i]
  {
    var r := Documents(rows, ids, now);
    forall i | 0 <= i < |r|
      ensures Stored(r[i]) && r[i].id == ids[i]
    {
      assert NewProduct(rows[i], ids[i], now) == Some(r[i]);
    }
  }

  /**
   * The collection after `seedProducts`: unchanged when it holds any product;
   * otherwise the documents when `insertMany` succeeds (`inserted`), and still
   * empty when it throws and the `catch` only logs.
   */
  function AfterSeedProducts(products: seq<Product>, rows: seq<AcceptedRow>, ids: seq<string>, now: int,
                             inserted: bool): (r: seq<Product>)
    requires |ids| == |rows|
    ensures |products| > 0 ==> r == products
    ensures |products| == 0 && inserted ==> r == Documents(rows, ids, now)
    ensures !inserted ==> r == products
  {
    if |products| > 0 || !inserted then products else Documents(rows, ids, now)
  }

  /**
   * Seeding twice is seeding once when the first insert succeeded: the second
   * run finds the collection non-empty. After a failed first run the second
   * run is a first run.
   */
  lemma SeedProductsIdempotent(products: seq<Product>, rows: seq<AcceptedRow>, ids: seq<string>,
                               ids2: seq<string>, now: int, now2: int, inserted: bool, inserted2: bool)
    requires |ids| == |rows| && |ids2| == |rows| && |rows| > 0
    ensures var once := AfterSeedProducts(products, rows, ids, now, inserted);
      inserted ==> AfterSeedProducts(once, rows, ids2, now2, inserted2) == once
    ensures var once := AfterSeedProducts(products, rows, ids, now, inserted);
      !inserted ==> AfterSeedProducts(once, rows, ids2, now2, inserted2) == AfterSeedProducts(products, rows, ids2, now2, inserted2)
  {
  }

  const DefaultAdminEmail: string := "admin@novathreads.com"
  const DefaultAdminPassword: string := "Admin@123"

  /** The account `seedAdminUser` creates, from `ADMIN_EMAIL` and `ADMIN_PASSWORD` or their defaults. */
  function AdminAccount(env: Env): (u: User)
    ensures u.role == "admin" && u.firstName == "Admin" && u.lastName == "User"
    ensures u.email == (if IsSet(env, "ADMIN_EMAIL") then env["ADMIN_EMAIL"] else DefaultAdminEmail)
    ensures u.password == (if IsSet(env, "ADMIN_PASSWORD") then env["ADMIN_PASSWORD"] else DefaultAdminPassword)
  {
    User(ValueOr(env, "ADMIN_EMAIL", DefaultAdminEmail), ValueOr(env, "ADMIN_PASSWORD", DefaultAdminPassword),
      "Admin", "User", "admin")
  }

  /** `User.findOne({ email })` finds a document. */
  predicate HasUserWithEmail(users: seq<User>, email: string) {
    exists i :: 0 <= i < |users| && users[i].email == email
  }

  /**
   * The users after `seedAdminUser`: unchanged when the admin email is taken;
   * otherwise one admin more when `save()` succeeds (`saved`), and unchanged
   * when it throws and the `catch` only logs.
   */
  function AfterSeedAdmin(users: seq<User>, env: Env, saved: bool): (r: seq<User>)
    ensures HasUserWithEmail(users, AdminAccount(env).email) ==> r == users
    ensures !HasUserWithEmail(users, AdminAccount(env).email) && saved ==> r == users + [AdminAccount(env)]
    ensures !saved ==> r == users
    ensures HasUserWithEmail(r, AdminAccount(env).email) <==> HasUserWithEmail(users, AdminAccount(env).email) || saved
  {
    var admin := AdminAccount(env);
    if HasUserWithEmail(users, admin.email) || !saved then users
    else
      assert (users + [admin])[|users|] == admin;
      users + [admin]
  }

  /**
   * Seeding the admin twice is seeding it once when the first save succeeded;
   * after a failed first save the second run is a first run.
   */
  lemma SeedAdminIdempotent(users: seq<User>, env: Env, saved: bool, saved2: bool)
    ensures saved ==> AfterSeedAdmin(AfterSeedAdmin(users, env, saved), env, saved2) == AfterSeedAdmin(users, env, saved)
    ensures !saved ==> AfterSeedAdmin(AfterSeedAdmin(users, env, saved), env, saved2) == AfterSeedAdmin(users, env, saved2)
  {
  }

  /** The user collection, as far as seeding touches it. */
  class UserCollection {
    var users: seq<User>

    constructor()
      ensures users == []
    {
      users := [];
    }

    /**
     * `seedAdminUser`. `saved` says whether `adminUser.save()` succeeds. The
     * password hashing of the User model is not part of this model.
     */
    method SeedAdminUser(env: Env, saved: bool)
      modifies this
      ensures users == AfterSeedAdmin(old(users), env, saved)
    {
      var adminEmail := ValueOr(env, "ADMIN_EMAIL", DefaultAdminEmail);
      var found := false;
      var i := 0;
      while i < |users|
        invariant 0 <= i <= |users|
        invariant found <==> exists j :: 0 <= j < i && users[j].email == adminEmail
      {
        if users[i].email == adminEmail {
          found := true;
        }
        i := i + 1;
      }
      if found || !saved {
        return;
      }
      users := users + [User(adminEmail, ValueOr(env, "ADMIN_PASSWORD", DefaultAdminPassword), "Admin", "User", "admin")];
    }
  }
}
