/** The database seed: the default admin and the starter catalog, inserted idempotently. */
module Seed {
  import opened Wrappers
  import opened Db

  const AdminEmail := "admin@petshop.com"

  /** A starter product as listed in the seed (price in cents). */
  datatype SeedProduct = SeedProduct(name: string, price: int, stock: int, description: string)

  const SeedProducts: seq<SeedProduct> := [
    SeedProduct("Ração Premium para Cães", 8990, 50, "Ração completa e balanceada para cães adultos"),
    SeedProduct("Ração Premium para Gatos", 7990, 45, "Ração completa e balanceada para gatos adultos"),
    SeedProduct("Brinquedo para Cães", 2500, 30, "Brinquedo interativo resistente"),
    SeedProduct("Areia Sanitária", 3500, 60, "Areia higiênica para gatos"),
    SeedProduct("Coleira com Guia", 4500, 25, "Coleira ajustável com guia retrátil"),
    SeedProduct("Shampoo para Cães", 3200, 40, "Shampoo hipoalergênico para cães"),
    SeedProduct("Cama para Pet", 12000, 15, "Cama confortável e macia"),
    SeedProduct("Comedouro Automático", 18000, 10, "Comedouro com timer automático")
  ]

  /** The row `prisma.product.create({ data: product })` inserts. */
  function Row(p: SeedProduct): Product {
    Product(p.name, p.price, p.stock, Some(p.description), None, None)
  }

  /** `findFirst({ where: { name } })` finds a row. */
  predicate HasName(table: seq<Product>, name: string) {
    exists i :: 0 <= i < |table| && table[i].name == name
  }

  /** The product table after the seed loop over `list`, visiting the list in order. */
  function Seeded(table: seq<Product>, list: seq<SeedProduct>): seq<Product>
    decreases |list|
  {
    if list == [] then table
    else
      var before := Seeded(table, list[..|list| - 1]);
      var p := list[|list| - 1];
      if HasName(before, p.name) then before else before + [Row(p)]
  }

  /** Rows already present are never modified or removed: the old table is a prefix of the new one. */
  lemma {:induction false} SeedKeepsExisting(table: seq<Product>, list: seq<SeedProduct>)
    ensures table <= Seeded(table, list)
    decreases |list|
  {
    if list != [] {
      SeedKeepsExisting(table, list[..|list| - 1]);
    }
  }

  /** Names present stay present. */
  lemma NamesStayPresent(table: seq<Product>, list: seq<SeedProduct>, name: string)
    requires HasName(table, name)
    ensures HasName(Seeded(table, list), name)
  {
    SeedKeepsExisting(table, list);
    var i :| 0 <= i < |table| && table[i].name == name;
    assert Seeded(table, list)[i] == table[i];
  }

  /** After the loop every seed product's name is in the table. */
  lemma {:induction false} SeedAddsEveryName(table: seq<Product>, list: seq<SeedProduct>)
    ensures forall j :: 0 <= j < |list| ==> HasName(Seeded(table, list), list[j].name)
    decreases |list|
  {
    if list != [] {
      var front := list[..|list| - 1];
      var last := list[|list| - 1];
      SeedAddsEveryName(table, front);
      var before := Seeded(table, front);
      var after := Seeded(table, list);
      assert before <= after;
      forall j | 0 <= j < |list|
        ensures HasName(after, list[j].name)
      {
        if j < |list| - 1 {
          assert list[j] == front[j];
          var i :| 0 <= i < |before| && before[i].name == list[j].name;
          assert after[i] == before[i];
        } else if !HasName(before, last.name) {
          assert after[|before|] == Row(last);
        }
      }
    }
  }

  /** Each inserted row is a seed product whose name was absent when it was inserted. */
  lemma {:induction false} SeedInsertsOnlyAbsentNames(table: seq<Product>, list: seq<SeedProduct>)
    ensures forall i :: |table| <= i < |Seeded(table, list)| ==>
      !HasName(Seeded(table, list)[..i], Seeded(table, list)[i].name)
      && exists j :: 0 <= j < |list| && Seeded(table, list)[i] == Row(list[j])
    decreases |list|
  {
    SeedKeepsExisting(table, list);
    if list != [] {
      var front := list[..|list| - 1];
      SeedInsertsOnlyAbsentNames(table, front);
      var before := Seeded(table, front);
      var after := Seeded(table, list);
      forall i | |table| <= i < |after|
        ensures !HasName(after[..i], after[i].name)
        ensures exists j :: 0 <= j < |list| && after[i] == Row(list[j])
      {
        if i < |before| {
          assert after[..i] == before[..i] && after[i] == before[i];
          var j :| 0 <= j < |front| && before[i] == Row(front[j]);
          assert front[j] == list[j];
        } else {
          assert after[..i] == before;
          assert after[i] == Row(list[|list| - 1]);
        }
      }
    }
  }

  /** A list whose names are all present already leaves the table as it is. */
  lemma {:induction false} SeedOverPresentNames(table: seq<Product>, list: seq<SeedProduct>)
    requires forall j :: 0 <= j < |list| ==> HasName(table, list[j].name)
    ensures Seeded(table, list) == table
    decreases |list|
  {
    if list != [] {
      var front := list[..|list| - 1];
      assert forall j :: 0 <= j < |front| ==> front[j] == list[j];
      SeedOverPresentNames(table, front);
    }
  }

  /** Seeding twice leaves the same product table as seeding once. */
  lemma SeedProductsIdempotent(table: seq<Product>, list: seq<SeedProduct>)
    ensures Seeded(Seeded(table, list), list) == Seeded(table, list)
  {
    SeedAddsEveryName(table, list);
    SeedOverPresentNames(Seeded(table, list), list);
  }

  /** `upsert` of the default admin with an empty update: created when absent, never edited. */
  function UpsertAdmin(admins: map<string, Admin>, newId: string, passwordHash: string): (r: map<string, Admin>)
    ensures AdminEmail in r
    ensures AdminEmail in admins ==> r == admins
    ensures AdminEmail !in admins ==> r == admins[AdminEmail := Admin(newId, AdminEmail, passwordHash)]
  {
    if AdminEmail in admins then admins else admins[AdminEmail := Admin(newId, AdminEmail, passwordHash)]
  }

  /** A second upsert, with whatever id and hash, changes nothing. */
  lemma UpsertAdminIdempotent(admins: map<string, Admin>, id1: string, hash1: string, id2: string, hash2: string)
    ensures UpsertAdmin(UpsertAdmin(admins, id1, hash1), id2, hash2) == UpsertAdmin(admins, id1, hash1)
  {
  }

  /** The upsert keeps the admin table keyed by e-mail. */
  lemma UpsertAdminKeyed(admins: map<string, Admin>, newId: string, passwordHash: string)
    requires AdminsKeyed(admins)
    ensures AdminsKeyed(UpsertAdmin(admins, newId, passwordHash))
  {
  }

  /**
   * The seed script. `passwordHash` is bcrypt's hash of the default password and `adminId` the
   * id the database would give a new admin.
   */
  method RunSeed(db: Database, adminId: string, passwordHash: string)
    requires db.Valid()
    modifies db
    ensures db.Valid()
    ensures db.admins == UpsertAdmin(old(db.admins), adminId, passwordHash)
    ensures db.products == Seeded(old(db.products), SeedProducts)
    ensures db.orders == old(db.orders)
  {
    UpsertAdminKeyed(db.admins, adminId, passwordHash);
    if AdminEmail !in db.admins {
      db.admins := db.admins[AdminEmail := Admin(adminId, AdminEmail, passwordHash)];
    }
    var k := 0;
    while k < |SeedProducts|
      invariant 0 <= k <= |SeedProducts|
      invariant db.products == Seeded(old(db.products), SeedProducts[..k])
      invariant db.admins == UpsertAdmin(old(db.admins), adminId, passwordHash)
      invariant db.orders == old(db.orders)
    {
      var product := SeedProducts[k];
      var existing := HasName(db.products, product.name);
      if !existing {
        db.products := db.products + [Row(product)];
      }
      assert SeedProducts[..k + 1][..k] == SeedProducts[..k];
      k := k + 1;
    }
    assert SeedProducts[..k] == SeedProducts;
  }
}
