/** Seeding of the catalog: when the database holds no organization yet, two
    organizations, six products and six parties are saved; otherwise nothing
    happens. Every product and party goes to "Selmel Liquors", including the
    batches the seeding code labels as belonging to the first organization. */
module Seed {
  import opened Wrappers
  import opened Entities
  import opened Storage
  import opened Decimal
  import opened InvoiceProcessor

  function FirstProductBatch(orgId: Id): seq<ProductRow>
  {
    [ ProductRow(orgId, "kingfisher", 150.0, 50.0),
      ProductRow(orgId, "tuborg", 130.0, 200.0),
      ProductRow(orgId, "Heineken Lager", 180.0, 500.0) ]
  }

  function SecondProductBatch(orgId: Id): seq<ProductRow>
  {
    [ ProductRow(orgId, "Hayward 500 Larger", 199.99, 30.0),
      ProductRow(orgId, "Canadian Goose", 249.99, 100.0),
      ProductRow(orgId, "Malibu Rum", 299.99, 150.0) ]
  }

  function FirstPartyBatch(orgId: Id): seq<PartyRow>
  {
    [ PartyRow(orgId, "Hilton Hotels India", "CUSTOMER", "416-555-0123"),
      PartyRow(orgId, "Restaurant Supply Co.", "VENDOR", "416-555-0124"),
      PartyRow(orgId, "Ryan", "CUSTOMER", "416-555-0125") ]
  }

  function SecondPartyBatch(orgId: Id): seq<PartyRow>
  {
    [ PartyRow(orgId, "Anonymous Traders", "CUSTOMER", "+91-80-4156-0000"),
      PartyRow(orgId, "Spencer & Co. Suppliers", "VENDOR", "+91-11-4155-1234"),
      PartyRow(orgId, "Taj Hotels", "VENDOR", "+91-22-6178-2000") ]
  }

  /** The store after seeding `s`. */
  function Seeded(s: Store): Store
  {
    if |s.organizations| != 0 then s
    else
      var s1 := InsertOrganization(s, "Hemadri Solutions", "IN", "29AABCH1234E1Z2");
      var selmel := s1.nextId;
      var s2 := InsertOrganization(s1, "Selmel Liquors", "IN", "27AABCT1234H1Z0");
      var s3 := InsertProducts(s2, FirstProductBatch(selmel));
      var s4 := InsertProducts(s3, SecondProductBatch(selmel));
      var s5 := InsertParties(s4, FirstPartyBatch(selmel));
      InsertParties(s5, SecondPartyBatch(selmel))
  }

  class SeedService {
    const db: Database

    constructor (db: Database)
      ensures this.db == db
    {
      this.db := db;
    }

    method Seed()
      modifies db
      ensures db.Snapshot() == Seeded(old(db.Snapshot()))
      ensures WellFormed(old(db.Snapshot())) ==> WellFormed(db.Snapshot())
    {
      SeedPreservesWellFormed(db.Snapshot());
      var organizationCount := |db.organizations|;
      if organizationCount == 0 {
        var org1 := db.SaveOrganization("Hemadri Solutions", "IN", "29AABCH1234E1Z2");
        var org2 := db.SaveOrganization("Selmel Liquors", "IN", "27AABCT1234H1Z0");
        db.SaveProducts(FirstProductBatch(org2.id));
        db.SaveProducts(SecondProductBatch(org2.id));
        db.SaveParties(FirstPartyBatch(org2.id));
        db.SaveParties(SecondPartyBatch(org2.id));
      }
    }
  }

  // ---------------------------------------------------------------------
  // Properties

  /** Once an organization exists, seeding changes nothing. */
  lemma SeedSkipsWhenOrganizationsExist(s: Store)
    requires |s.organizations| != 0
    ensures Seeded(s) == s
  {
  }

  /** Seeding twice is seeding once. */
  lemma SeedIdempotent(s: Store)
    ensures Seeded(Seeded(s)) == Seeded(s)
  {
  }

  /** On a store without organizations, seeding creates exactly the two
      Indian organizations, with fresh ids. */
  lemma SeedCreatesOrganizations(s: Store)
    requires |s.organizations| == 0
    ensures var t := Seeded(s);
            && |t.organizations| == 2
            && t.organizations[0].name == "Hemadri Solutions"
            && t.organizations[1].name == "Selmel Liquors"
            && t.organizations[0].country == "IN" && t.organizations[1].country == "IN"
            && s.nextId <= t.organizations[0].id < t.organizations[1].id < t.nextId
  {
  }

  /** Seeding an organization-less store appends exactly six products, all
      under "Selmel Liquors", none with a negative price or stock. */
  lemma SeedCreatesProducts(s: Store)
    requires |s.organizations| == 0
    ensures var t := Seeded(s);
            var added := t.products[|s.products|..];
            && |t.products| == |s.products| + 6
            && t.products[..|s.products|] == s.products
            && forall p :: p in added ==>
                 p.orgId == t.organizations[1].id && p.unitPrice >= 0.0 && p.currentStock >= 0.0
  {
  }

  /** Seeding an organization-less store appends exactly six parties, all
      under "Selmel Liquors", among them the customer "Anonymous Traders". */
  lemma SeedCreatesParties(s: Store)
    requires |s.organizations| == 0
    ensures var t := Seeded(s);
            var added := t.parties[|s.parties|..];
            && |t.parties| == |s.parties| + 6
            && t.parties[..|s.parties|] == s.parties
            && (forall p :: p in added ==> p.orgId == t.organizations[1].id)
            && exists p :: p in added && p.name == DefaultCustomer && p.partyType == "CUSTOMER"
  {
    var t := Seeded(s);
    var added := t.parties[|s.parties|..];
    assert added[3] == Party(s.nextId + 11, s.nextId + 1, "Anonymous Traders", "CUSTOMER", "+91-80-4156-0000");
  }

  /** After seeding a store without organizations both defaults of the
      processor resolve: the organization lookup finds "Selmel Liquors" and
      every party lookup finds a party. */
  lemma SeedResolvesDefaults(s: Store)
    requires |s.organizations| == 0
    ensures var t := Seeded(s);
            && GetOrganizationByName(t.organizations, DefaultOrganization) == Some(t.organizations[1])
            && forall name :: GetPartyByName(t.parties, name).Some?
  {
    var t := Seeded(s);
    SeedCreatesParties(s);
    assert FindPartyByName(t.parties, DefaultCustomer).Some?;
  }

  /** So building an invoice on a freshly seeded store can only fail on an
      unknown product. */
  lemma SeededStoreHasNoNullReference(s: Store, data: Payload, now: int)
    requires |s.organizations| == 0
    ensures NewInvoice(Seeded(s), data, now) != Failure(NullReference)
  {
    SeedResolvesDefaults(s);
    NewInvoiceNullReference(Seeded(s), data, now);
  }

  /** Seeding keeps the store well formed. */
  lemma SeedPreservesWellFormed(s: Store)
    ensures WellFormed(s) ==> WellFormed(Seeded(s))
  {
  }

  /** The parts of the seeded empty database that Ryan's order reads. */
  lemma SeededEmptyStore()
    ensures var t := Seeded(EmptyStore);
            && t.invoices == [] && t.nextId == 14
            && t.organizations == [Organization(0, "Hemadri Solutions", "IN", "29AABCH1234E1Z2"),
                                   Organization(1, "Selmel Liquors", "IN", "27AABCT1234H1Z0")]
            && |t.products| == 6 && t.products[0] == Product(2, 1, "kingfisher", 150.0, 50.0)
            && |t.parties| == 6
            && t.parties[0].name == "Hilton Hotels India"
            && t.parties[1].name == "Restaurant Supply Co."
            && t.parties[2] == Party(10, 1, "Ryan", "CUSTOMER", "416-555-0125")
  {
  }

  /** Ryan's order against any store that looks like the seeded empty one. */
  lemma RyanOrder(t: Store, now: int)
    requires t.invoices == [] && t.nextId == 14
    requires t.organizations == [Organization(0, "Hemadri Solutions", "IN", "29AABCH1234E1Z2"),
                                 Organization(1, "Selmel Liquors", "IN", "27AABCT1234H1Z0")]
    requires |t.products| >= 1 && t.products[0] == Product(2, 1, "kingfisher", 150.0, 50.0)
    requires |t.parties| >= 3
    requires t.parties[0].name == "Hilton Hotels India"
    requires t.parties[1].name == "Restaurant Supply Co."
    requires t.parties[2] == Party(10, 1, "Ryan", "CUSTOMER", "416-555-0125")
    ensures var data := Payload(CreateSalesOrder, Some("Ryan"),
                                Some([LineItem("kingfisher", 800.0, 150.0, "INR")]), None, None);
            var o := Process(t, data, now);
            && o.reply == CreatedReply("SO-1")
            && o.store.invoices ==
                 [Invoice(14, "SO-1", 1, "CREATE_SALES_ORDER", "PENDING", None, None, now,
                          10, 1, Some([InvoiceItem("kingfisher", 800.0, 2, 14)]))]
  {
    var line := LineItem("kingfisher", 800.0, 150.0, "INR");
    assert FindPartyByName(t.parties, "Ryan") == Some(t.parties[2]);
    assert GetOrganizationByName(t.organizations, DefaultOrganization) == Some(t.organizations[1]);
    assert FindProductByName(t.products, "kingfisher") == Some(t.products[0]);
    var items := BuildItems(t.products, [line], 14);
    assert items.Success? && |items.value| == 1;
    assert items.value[0] == InvoiceItem("kingfisher", 800.0, 2, 14);
    assert items.value == [InvoiceItem("kingfisher", 800.0, 2, 14)];
    assert DisplayNumber(1) == "SO-1" by {
      assert DecimalString(1) == "1";
    }
  }

  /** On a freshly seeded empty database, Ryan's order for 800 kingfisher
      becomes invoice SO-1: pending, for Ryan, under "Selmel Liquors", with
      one item for the kingfisher product. The order is taken whatever the
      stock, and no total is computed. */
  lemma FirstOrderAfterSeeding(now: int)
    ensures var data := Payload(CreateSalesOrder, Some("Ryan"),
                                Some([LineItem("kingfisher", 800.0, 150.0, "INR")]), None, None);
            var o := Process(Seeded(EmptyStore), data, now);
            && o.reply == CreatedReply("SO-1")
            && o.store.invoices ==
                 [Invoice(14, "SO-1", 1, "CREATE_SALES_ORDER", "PENDING", None, None, now,
                          10, 1, Some([InvoiceItem("kingfisher", 800.0, 2, 14)]))]
  {
    SeededEmptyStore();
    RyanOrder(Seeded(EmptyStore), now);
  }

  /** The database seeding starts from is well formed; `Seed` and
      `ProcessInvoice` keep it so. */
  lemma EmptyStoreWellFormed()
    ensures WellFormed(EmptyStore)
  {
  }
}
