/** The sales-order processor: dispatch on the intent of a classified
    command, and for `CREATE_SALES_ORDER` build a new invoice from the
    payload and the catalog, then save it. Every other intent at most logs
    and gets the fixed "not implemented" reply. */
module InvoiceProcessor {
  import opened Wrappers
  import opened Lookup
  import opened Entities
  import opened Decimal
  import opened Storage

  const DefaultCustomer: string := "Anonymous Traders"
  const DefaultOrganization: string := "Selmel Liquors"

  const CreateSalesOrder: string := "CREATE_SALES_ORDER"
  const Pending: string := "PENDING"
  const NotImplementedReply: string := "Functionality not implement"

  /** What the engine throws while building an invoice: dereferencing the id
      of a party or organization that was not found, or a line item naming an
      unknown product. */
  datatype CreateError = NullReference | ProductNotFound(productName: string)

  function ErrorMessage(e: CreateError): string
  {
    match e
    case NullReference => "Cannot read properties of null (reading 'id')"
    case ProductNotFound(name) =>
      "Product with name " + name + " not found. Please send correct product name."
  }

  function FailureReply(e: CreateError): string
  {
    "Issue creating order " + ErrorMessage(e)
  }

  function CreatedReply(displayNumber: string): string
  {
    "Created a Sales ORder with Order # " + displayNumber
      + ". Use this Order number for further interactions"
  }

  // ---------------------------------------------------------------------
  // Lookups by exact name

  function FindProductByName(products: seq<Product>, name: string): (r: Option<Product>)
    ensures r.Some? ==> r.value in products && r.value.name == name
    ensures r.None? <==> forall p :: p in products ==> p.name != name
  {
    FindFirst(products, (p: Product) => p.name == name)
  }

  function FindPartyByName(parties: seq<Party>, name: string): (r: Option<Party>)
    ensures r.Some? ==> r.value in parties && r.value.name == name
    ensures r.None? <==> forall p :: p in parties ==> p.name != name
  {
    FindFirst(parties, (p: Party) => p.name == name)
  }

  /** The party called `name`, or else the default customer's record. */
  function GetPartyByName(parties: seq<Party>, name: string): (r: Option<Party>)
    ensures (exists p :: p in parties && p.name == name) ==> r.Some? && r.value.name == name
    ensures (forall p :: p in parties ==> p.name != name) ==> r == FindPartyByName(parties, DefaultCustomer)
    ensures r.Some? ==> r.value in parties && (r.value.name == name || r.value.name == DefaultCustomer)
  {
    match FindPartyByName(parties, name)
    case Some(party) => Some(party)
    case None => FindPartyByName(parties, DefaultCustomer)
  }

  function GetOrganizationByName(organizations: seq<Organization>, name: string): (r: Option<Organization>)
    ensures r.Some? ==> r.value in organizations && r.value.name == name
    ensures r.None? <==> forall o :: o in organizations ==> o.name != name
  {
    FindFirst(organizations, (o: Organization) => o.name == name)
  }

  // ---------------------------------------------------------------------
  // Line items

  predicate ProductKnown(products: seq<Product>, line: LineItem)
  {
    FindProductByName(products, line.productName).Some?
  }

  /** The invoice item for a line whose product is known. */
  function ItemFor(products: seq<Product>, line: LineItem, invoiceId: Id): InvoiceItem
    requires ProductKnown(products, line)
  {
    InvoiceItem(line.productName, line.productQuantity,
                FindProductByName(products, line.productName).value.id, invoiceId)
  }

  /** One item per line, in order; the first line naming an unknown product
      aborts the whole list. */
  function BuildItems(products: seq<Product>, lines: seq<LineItem>, invoiceId: Id)
    : (r: Result<seq<InvoiceItem>, CreateError>)
    ensures r.Success? <==> forall i :: 0 <= i < |lines| ==> ProductKnown(products, lines[i])
    ensures r.Success? ==> |r.value| == |lines|
    ensures r.Success? ==> forall i :: 0 <= i < |lines| ==> r.value[i] == ItemFor(products, lines[i], invoiceId)
    ensures r.Failure? ==> exists k :: 0 <= k < |lines| && !ProductKnown(products, lines[k])
                                       && (forall j :: 0 <= j < k ==> ProductKnown(products, lines[j]))
                                       && r.error == ProductNotFound(lines[k].productName)
  {
    if lines == [] then Success([])
    else match FindProductByName(products, lines[0].productName)
      case None => Failure(ProductNotFound(lines[0].productName))
      case Some(product) =>
        match BuildItems(products, lines[1..], invoiceId)
        case Failure(e) => Failure(e)
        case Success(rest) =>
          Success([InvoiceItem(lines[0].productName, lines[0].productQuantity, product.id, invoiceId)] + rest)
  }

  /** No item list at all when the payload has no line items or an empty list. */
  function BuildItemList(products: seq<Product>, lineItems: Option<seq<LineItem>>, invoiceId: Id)
    : Result<Option<seq<InvoiceItem>>, CreateError>
  {
    if lineItems.None? || |lineItems.value| == 0 then Success(None)
    else match BuildItems(products, lineItems.value, invoiceId)
      case Failure(e) => Failure(e)
      case Success(items) => Success(Some(items))
  }

  // ---------------------------------------------------------------------
  // Numbering

  /** The largest invoice number stored, 0 when there is none. */
  function MaxInvoiceNumber(invoices: seq<Invoice>): (m: nat)
    ensures forall i :: 0 <= i < |invoices| ==> invoices[i].invoiceNumber <= m
    ensures invoices == [] ==> m == 0
    ensures invoices != [] ==> exists i :: 0 <= i < |invoices| && invoices[i].invoiceNumber == m
  {
    if invoices == [] then 0
    else
      var m := MaxInvoiceNumber(invoices[..|invoices| - 1]);
      var last := invoices[|invoices| - 1].invoiceNumber;
      if m < last then last else m
  }

  function DisplayNumber(n: nat): string
  {
    "SO-" + DecimalString(n)
  }

  /** Distinct invoice numbers have distinct display numbers. */
  lemma DisplayNumberInjective(m: nat, n: nat)
    requires DisplayNumber(m) == DisplayNumber(n)
    ensures m == n
  {
    assert DisplayNumber(m)[3..] == DecimalString(m);
    assert DisplayNumber(n)[3..] == DecimalString(n);
    DecimalStringInjective(m, n);
  }

  // ---------------------------------------------------------------------
  // Building and saving an invoice

  /** A missing or empty party name means the default customer. */
  function PartyNameOrDefault(partyName: Option<string>): string
  {
    if partyName.Some? && partyName.value != "" then partyName.value else DefaultCustomer
  }

  /** A missing or empty due date is stored as null. */
  function DueDateOf(dueDate: Option<string>): Option<string>
  {
    if dueDate.Some? && dueDate.value != "" then dueDate else None
  }

  /** The invoice built for `data` against the store `s`, or the error the
      build throws. The invoice carries the id its insert will receive. */
  function NewInvoice(s: Store, data: Payload, now: int): Result<Invoice, CreateError>
  {
    var number := MaxInvoiceNumber(s.invoices) + 1;
    match GetPartyByName(s.parties, PartyNameOrDefault(data.partyName))
    case None => Failure(NullReference)
    case Some(party) =>
      match GetOrganizationByName(s.organizations, DefaultOrganization)
      case None => Failure(NullReference)
      case Some(organization) =>
        match BuildItemList(s.products, data.lineItems, s.nextId)
        case Failure(e) => Failure(e)
        case Success(items) =>
          Success(Invoice(s.nextId, DisplayNumber(number), number, data.intent, Pending, None,
                          DueDateOf(data.dueDate), now, party.id, organization.id, items))
  }

  datatype Outcome = Outcome(store: Store, reply: string)

  /** The new store and the reply for one command. */
  function Process(s: Store, data: Payload, now: int): Outcome
  {
    if data.intent == CreateSalesOrder then
      match NewInvoice(s, data, now)
      case Failure(e) => Outcome(s, FailureReply(e))
      case Success(inv) => Outcome(InsertInvoice(s, inv), CreatedReply(inv.displayNumber))
    else
      Outcome(s, NotImplementedReply)
  }

  // ---------------------------------------------------------------------
  // Store invariant kept by the processor

  predicate HasParty(parties: seq<Party>, id: Id)
  {
    exists p :: p in parties && p.id == id
  }

  predicate HasOrganization(organizations: seq<Organization>, id: Id)
  {
    exists o :: o in organizations && o.id == id
  }

  predicate HasProduct(products: seq<Product>, id: Id)
  {
    exists p :: p in products && p.id == id
  }

  /** An invoice's display number matches its number, its party and
      organization exist, and its items point back at it and at existing
      products. The product reference is the one the processor assigns to
      the in-memory item; the item entity maps no column for it. */
  predicate InvoiceConsistent(s: Store, inv: Invoice)
  {
    && inv.id < s.nextId
    && inv.displayNumber == DisplayNumber(inv.invoiceNumber)
    && HasParty(s.parties, inv.partyId)
    && HasOrganization(s.organizations, inv.orgId)
    && (inv.items.Some? ==>
          forall item :: item in inv.items.value ==>
            item.invoiceId == inv.id && HasProduct(s.products, item.productId))
  }

  predicate NumbersIncreasing(invoices: seq<Invoice>)
  {
    forall i, j :: 0 <= i < j < |invoices| ==> invoices[i].invoiceNumber < invoices[j].invoiceNumber
  }

  /** Every id was handed out by the store, invoice numbers increase in
      insertion order, and every invoice is consistent with the catalog. */
  predicate WellFormed(s: Store)
  {
    && (forall o :: o in s.organizations ==> o.id < s.nextId)
    && (forall p :: p in s.parties ==> p.id < s.nextId)
    && (forall p :: p in s.products ==> p.id < s.nextId)
    && (forall inv :: inv in s.invoices ==> InvoiceConsistent(s, inv))
    && NumbersIncreasing(s.invoices)
  }

  // ---------------------------------------------------------------------
  // The facade

  class InvoiceProcessorFacade {
    const db: Database

    constructor (db: Database)
      ensures this.db == db
    {
      this.db := db;
    }

    /** Handles one classified command and returns the reply text. */
    method ProcessInvoice(data: Payload, now: int) returns (reply: string)
      modifies db
      ensures db.Snapshot() == Process(old(db.Snapshot()), data, now).store
      ensures reply == Process(old(db.Snapshot()), data, now).reply
      ensures WellFormed(old(db.Snapshot())) ==> WellFormed(db.Snapshot())
    {
      ProcessPreservesWellFormed(db.Snapshot(), data, now);
      if data.intent == CreateSalesOrder {
        var invoice := CreateInvoiceEntity(data, now);
        match invoice {
          case Failure(e) =>
            reply := FailureReply(e);
          case Success(inv) =>
            var stored := db.SaveInvoice(inv);
            reply := CreatedReply(stored.displayNumber);
        }
        return;
      } else if data.intent == "CREATE_FULLFILLMENT" {
        // only logs
      } else if data.intent == "CREATE_INVOICE" {
        // only logs
      } else if data.intent == "RECORD_PAYMENT" {
        // only logs
      } else if data.intent == "UNKNOWN" {
        // only logs
      } else if data.intent == "CHECK_INVENTORY" {
        // only logs
      }
      reply := NotImplementedReply;
    }

    /** Fills a new invoice from the payload, reading the stored invoices
        and the catalog, step by step as the facade does; it is checked
        against the specification `NewInvoice`, about which the lemmas below
        are proved. */
    method CreateInvoiceEntity(data: Payload, now: int) returns (r: Result<Invoice, CreateError>)
      ensures r == NewInvoice(db.Snapshot(), data, now)
    {
      var maxInvoiceNumber := MaxInvoiceNumber(db.invoices);
      var invoiceNumber := maxInvoiceNumber + 1;
      var displayNumber := DisplayNumber(invoiceNumber);
      var dueDate := DueDateOf(data.dueDate);
      var party := GetPartyByName(db.parties, PartyNameOrDefault(data.partyName));
      if party.None? {
        return Failure(NullReference);
      }
      var organization := GetOrganizationByName(db.organizations, DefaultOrganization);
      if organization.None? {
        return Failure(NullReference);
      }
      var items := BuildItemList(db.products, data.lineItems, db.nextId);
      if items.Failure? {
        return Failure(items.error);
      }
      r := Success(Invoice(db.nextId, displayNumber, invoiceNumber, data.intent, Pending, None,
                           dueDate, now, party.value.id, organization.value.id, items.value));
    }
  }

  // ---------------------------------------------------------------------
  // Properties

  /** Every intent other than a sales order leaves the store as it was and
      gets the fixed reply. */
  lemma OtherIntentsChangeNothing(s: Store, data: Payload, now: int)
    requires data.intent != CreateSalesOrder
    ensures Process(s, data, now) == Outcome(s, NotImplementedReply)
  {
  }

  /** A new invoice's number is one more than the largest stored number, so
      it exceeds every stored number, and the first invoice is number 1. */
  lemma NewInvoiceNumbering(s: Store, data: Payload, now: int)
    requires NewInvoice(s, data, now).Success?
    ensures var inv := NewInvoice(s, data, now).value;
            && (forall i :: 0 <= i < |s.invoices| ==> s.invoices[i].invoiceNumber < inv.invoiceNumber)
            && (s.invoices == [] ==> inv.invoiceNumber == 1)
            && (s.invoices != [] ==> exists i :: 0 <= i < |s.invoices| && s.invoices[i].invoiceNumber + 1 == inv.invoiceNumber)
  {
  }

  /** The header of a new invoice: its display number, its status, the
      intent that created it, a due date that is null exactly when none was
      sent, no total, the creation time and the id its insert receives. */
  lemma NewInvoiceHeader(s: Store, data: Payload, now: int)
    requires NewInvoice(s, data, now).Success?
    ensures var inv := NewInvoice(s, data, now).value;
            && inv.displayNumber == "SO-" + DecimalString(inv.invoiceNumber)
            && inv.status == "PENDING"
            && inv.intent == data.intent
            && (inv.dueDate.None? <==> data.dueDate.None? || data.dueDate.value == "")
            && (inv.dueDate.Some? ==> inv.dueDate == data.dueDate)
            && inv.totalAmount.None?
            && inv.createdAt == now
            && inv.id == s.nextId
  {
  }

  /** The party of a new invoice: the party named in the payload when one
      has exactly that name, and otherwise (no name, an empty name or a name
      nobody has) the default customer's record. The organization is always
      the default organization. */
  lemma NewInvoiceParty(s: Store, data: Payload, now: int)
    requires NewInvoice(s, data, now).Success?
    ensures var inv := NewInvoice(s, data, now).value;
            var named := data.partyName.Some? && data.partyName.value != "";
            && (named && FindPartyByName(s.parties, data.partyName.value).Some? ==>
                  inv.partyId == FindPartyByName(s.parties, data.partyName.value).value.id)
            && (!named || FindPartyByName(s.parties, data.partyName.value).None? ==>
                  FindPartyByName(s.parties, DefaultCustomer).Some? &&
                  inv.partyId == FindPartyByName(s.parties, DefaultCustomer).value.id)
            && GetOrganizationByName(s.organizations, DefaultOrganization).Some?
            && inv.orgId == GetOrganizationByName(s.organizations, DefaultOrganization).value.id
  {
  }

  /** Building fails on a null dereference exactly when neither the named
      party nor the default customer exists, or the default organization
      does not exist. */
  lemma NewInvoiceNullReference(s: Store, data: Payload, now: int)
    ensures NewInvoice(s, data, now) == Failure(NullReference) <==>
              GetPartyByName(s.parties, PartyNameOrDefault(data.partyName)).None? ||
              GetOrganizationByName(s.organizations, DefaultOrganization).None?
  {
    var r := BuildItemList(s.products, data.lineItems, s.nextId);
    if r.Failure? && data.lineItems.Some? && |data.lineItems.value| != 0 {
      assert r.error.ProductNotFound?;
    }
  }

  /** A sales order without a default organization, or without the default
      customer when the named party is unknown, is refused with the
      null-dereference message and nothing is saved. */
  lemma MissingDefaultsAbort(s: Store, data: Payload, now: int)
    requires data.intent == CreateSalesOrder
    requires GetPartyByName(s.parties, PartyNameOrDefault(data.partyName)).None? ||
             GetOrganizationByName(s.organizations, DefaultOrganization).None?
    ensures Process(s, data, now) ==
              Outcome(s, "Issue creating order " + "Cannot read properties of null (reading 'id')")
  {
    NewInvoiceNullReference(s, data, now);
  }

  /** A line item naming an unknown product aborts the sales order: nothing
      is saved and the reply names the first such product. */
  lemma UnknownProductAborts(s: Store, data: Payload, now: int, k: nat)
    requires data.intent == CreateSalesOrder
    requires GetPartyByName(s.parties, PartyNameOrDefault(data.partyName)).Some?
    requires GetOrganizationByName(s.organizations, DefaultOrganization).Some?
    requires data.lineItems.Some? && k < |data.lineItems.value|
    requires !ProductKnown(s.products, data.lineItems.value[k])
    requires forall j :: 0 <= j < k ==> ProductKnown(s.products, data.lineItems.value[j])
    ensures Process(s, data, now) ==
              Outcome(s, "Issue creating order " + ("Product with name " + data.lineItems.value[k].productName
                         + " not found. Please send correct product name."))
  {
    var lines := data.lineItems.value;
    var r := BuildItems(s.products, lines, s.nextId);
    assert |lines| != 0;
    assert r == Failure(ProductNotFound(lines[k].productName)) by {
      assert r.Failure?;
      var k' :| 0 <= k' < |lines| && !ProductKnown(s.products, lines[k'])
                && (forall j :: 0 <= j < k' ==> ProductKnown(s.products, lines[j]))
                && r.error == ProductNotFound(lines[k'].productName);
    }
    assert BuildItemList(s.products, data.lineItems, s.nextId) == Failure(ProductNotFound(lines[k].productName));
    assert NewInvoice(s, data, now) == Failure(ProductNotFound(lines[k].productName));
  }

  /** Without line items (absent or empty) the sales order is still created,
      with no item list. */
  lemma NoLineItemsStillCreates(s: Store, data: Payload, now: int)
    requires GetPartyByName(s.parties, PartyNameOrDefault(data.partyName)).Some?
    requires GetOrganizationByName(s.organizations, DefaultOrganization).Some?
    requires data.lineItems.None? || data.lineItems.value == []
    ensures NewInvoice(s, data, now).Success?
    ensures NewInvoice(s, data, now).value.items.None?
  {
  }

  /** With line items, the new invoice's items follow them one for one and in
      order: same quantity, the product name as description, the id of the
      product of that name, and a back-reference to the new invoice. */
  lemma ItemsFollowLineItems(s: Store, data: Payload, now: int)
    requires NewInvoice(s, data, now).Success?
    requires data.lineItems.Some? && data.lineItems.value != []
    ensures var inv := NewInvoice(s, data, now).value;
            var lines := data.lineItems.value;
            && inv.items.Some? && |inv.items.value| == |lines|
            && forall i :: 0 <= i < |lines| ==>
                 && ProductKnown(s.products, lines[i])
                 && inv.items.value[i].quantity == lines[i].productQuantity
                 && inv.items.value[i].description == lines[i].productName
                 && inv.items.value[i].productId == FindProductByName(s.products, lines[i].productName).value.id
                 && inv.items.value[i].invoiceId == inv.id
  {
    var lines := data.lineItems.value;
    var items := BuildItems(s.products, lines, s.nextId);
    assert items.Success?;
  }

  /** A successful sales order adds exactly one invoice after the existing
      ones, leaves the catalog alone and replies with the new display number;
      a failed one changes nothing. */
  lemma SalesOrderAddsOneInvoice(s: Store, data: Payload, now: int)
    requires data.intent == CreateSalesOrder
    ensures var o := Process(s, data, now);
            match NewInvoice(s, data, now)
            case Success(inv) =>
              && o.store.invoices == s.invoices + [inv]
              && o.store.organizations == s.organizations
              && o.store.parties == s.parties
              && o.store.products == s.products
              && o.reply == "Created a Sales ORder with Order # " + inv.displayNumber
                            + ". Use this Order number for further interactions"
            case Failure(e) =>
              o.store == s && o.reply == "Issue creating order " + ErrorMessage(e)
  {
  }

  /** Two sales orders in a row get consecutive numbers. */
  lemma ConsecutiveOrdersNumbered(s: Store, first: Payload, second: Payload, now: int, later: int)
    requires first.intent == CreateSalesOrder
    requires NewInvoice(s, first, now).Success?
    requires NewInvoice(Process(s, first, now).store, second, later).Success?
    ensures NewInvoice(Process(s, first, now).store, second, later).value.invoiceNumber
              == NewInvoice(s, first, now).value.invoiceNumber + 1
  {
    var inv := NewInvoice(s, first, now).value;
    var invoices := Process(s, first, now).store.invoices;
    assert invoices == s.invoices + [inv];
    assert invoices[..|invoices| - 1] == s.invoices;
  }

  /** In a well-formed store no two invoices share a number or a display
      number. */
  lemma WellFormedNumbersUnique(s: Store, i: nat, j: nat)
    requires WellFormed(s)
    requires i < j < |s.invoices|
    ensures s.invoices[i].invoiceNumber != s.invoices[j].invoiceNumber
    ensures s.invoices[i].displayNumber != s.invoices[j].displayNumber
  {
    assert s.invoices[i] in s.invoices && s.invoices[j] in s.invoices;
    if s.invoices[i].displayNumber == s.invoices[j].displayNumber {
      DisplayNumberInjective(s.invoices[i].invoiceNumber, s.invoices[j].invoiceNumber);
    }
  }

  /** Every command keeps the store well formed. */
  lemma ProcessPreservesWellFormed(s: Store, data: Payload, now: int)
    ensures WellFormed(s) ==> WellFormed(Process(s, data, now).store)
  {
  }
}
