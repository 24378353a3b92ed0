/** The in-memory database: one sequence per repository, in insertion order,
    and a counter that stands for the generation of fresh primary keys. */
module Storage {
  import opened Entities

  /** An organization, product or party before the database gives it an id. */
  datatype ProductRow = ProductRow(orgId: Id, name: string, unitPrice: real, currentStock: real)
  datatype PartyRow = PartyRow(orgId: Id, name: string, partyType: string, phone: string)

  /** The abstract state of the database. */
  datatype Store = Store(
    organizations: seq<Organization>,
    parties: seq<Party>,
    products: seq<Product>,
    invoices: seq<Invoice>,
    nextId: Id)

  const EmptyStore: Store := Store([], [], [], [], 0)

  function InsertOrganization(s: Store, name: string, country: string, taxId: string): Store
  {
    s.(organizations := s.organizations + [Organization(s.nextId, name, country, taxId)],
       nextId := s.nextId + 1)
  }

  /** The rows as saved, numbered consecutively from `firstId`. */
  function ProductsWithIds(rows: seq<ProductRow>, firstId: Id): (r: seq<Product>)
    ensures |r| == |rows|
  {
    seq(|rows|, i requires 0 <= i < |rows| =>
      Product(firstId + i, rows[i].orgId, rows[i].name, rows[i].unitPrice, rows[i].currentStock))
  }

  function PartiesWithIds(rows: seq<PartyRow>, firstId: Id): (r: seq<Party>)
    ensures |r| == |rows|
  {
    seq(|rows|, i requires 0 <= i < |rows| =>
      Party(firstId + i, rows[i].orgId, rows[i].name, rows[i].partyType, rows[i].phone))
  }

  function InsertProducts(s: Store, rows: seq<ProductRow>): Store
  {
    s.(products := s.products + ProductsWithIds(rows, s.nextId), nextId := s.nextId + |rows|)
  }

  function InsertParties(s: Store, rows: seq<PartyRow>): Store
  {
    s.(parties := s.parties + PartiesWithIds(rows, s.nextId), nextId := s.nextId + |rows|)
  }

  /** Saving an invoice appends it and consumes the next id; the processor
      builds each invoice with that id. */
  function InsertInvoice(s: Store, inv: Invoice): Store
  {
    s.(invoices := s.invoices + [inv], nextId := s.nextId + 1)
  }

  /** The repositories, updated in place by `save`. */
  class Database {
    var organizations: seq<Organization>
    var parties: seq<Party>
    var products: seq<Product>
    var invoices: seq<Invoice>
    var nextId: Id

    ghost function Snapshot(): Store
      reads this
    {
      Store(organizations, parties, products, invoices, nextId)
    }

    constructor ()
      ensures Snapshot() == EmptyStore
    {
      organizations, parties, products, invoices := [], [], [], [];
      nextId := 0;
    }

    method SaveOrganization(name: string, country: string, taxId: string) returns (saved: Organization)
      modifies this
      ensures Snapshot() == InsertOrganization(old(Snapshot()), name, country, taxId)
      ensures saved == organizations[|organizations| - 1] && saved.id == old(nextId)
    {
      saved := Organization(nextId, name, country, taxId);
      organizations := organizations + [saved];
      nextId := nextId + 1;
    }

    method SaveProducts(rows: seq<ProductRow>)
      modifies this
      ensures Snapshot() == InsertProducts(old(Snapshot()), rows)
    {
      products := products + ProductsWithIds(rows, nextId);
      nextId := nextId + |rows|;
    }

    method SaveParties(rows: seq<PartyRow>)
      modifies this
      ensures Snapshot() == InsertParties(old(Snapshot()), rows)
    {
      parties := parties + PartiesWithIds(rows, nextId);
      nextId := nextId + |rows|;
    }

    method SaveInvoice(inv: Invoice) returns (stored: Invoice)
      modifies this
      ensures Snapshot() == InsertInvoice(old(Snapshot()), inv)
      ensures stored == inv
    {
      invoices := invoices + [inv];
      nextId := nextId + 1;
      stored := inv;
    }
  }
}
