/** The persisted entities and the inbound command, as values. Database
    UUIDs are modelled as natural numbers handed out by the store. */
module Entities {
  import opened Wrappers

  type Id = nat

  datatype Organization = Organization(id: Id, name: string, country: string, taxId: string)

  /** `partyType` is the string "CUSTOMER" or "VENDOR". */
  datatype Party = Party(id: Id, orgId: Id, name: string, partyType: string, phone: string)

  datatype Product = Product(id: Id, orgId: Id, name: string, unitPrice: real, currentStock: real)

  /** `rate` is a percentage (13.0 means 13%). */
  datatype TaxConfig = TaxConfig(id: Id, country: string, rate: real, taxType: string)

  /** A line of an order; `invoiceId` is the back-reference to the owning invoice. */
  datatype InvoiceItem = InvoiceItem(description: string, quantity: real, productId: Id, invoiceId: Id)

  /** An order. `totalAmount` and `dueDate` are nullable columns; `items` is
      absent when the order was created without line items. */
  datatype Invoice = Invoice(
    id: Id,
    displayNumber: string,
    invoiceNumber: nat,
    intent: string,
    status: string,
    totalAmount: Option<real>,
    dueDate: Option<string>,
    createdAt: int,
    partyId: Id,
    orgId: Id,
    items: Option<seq<InvoiceItem>>)

  datatype LineItem = LineItem(productName: string, productQuantity: real, unitPrice: real, currency: string)

  /** The classified command handed to the processor. The intent is kept as
      an arbitrary string; the optional fields are absent when not sent. */
  datatype Payload = Payload(
    intent: string,
    partyName: Option<string>,
    lineItems: Option<seq<LineItem>>,
    dueDate: Option<string>,
    summary: Option<string>)
}
