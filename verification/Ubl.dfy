/** The local element names of UBL 2.1 that a PEPPOL BIS Billing 3.0 document uses. */
module Ubl {
  datatype Elem =
    | Invoice | CreditNote
    | CustomizationID | ProfileID | ID | IssueDate | DueDate | InvoiceTypeCode | CreditNoteTypeCode
    | DocumentCurrencyCode | BuyerReference | BillingReference | InvoiceDocumentReference
    | AccountingSupplierParty | AccountingCustomerParty | Party | EndpointID | PartyIdentification
    | PartyName | Name | PostalAddress | StreetName | CityName | PostalZone | Country | IdentificationCode
    | PartyTaxScheme | CompanyID | TaxScheme | PartyLegalEntity | RegistrationName | Contact | ElectronicMail
    | Delivery | ActualDeliveryDate | DeliveryLocation | Address
    | PaymentMeans | PaymentMeansCode | PaymentID | PayeeFinancialAccount
    | TaxTotal | TaxAmount | TaxSubtotal | TaxableAmount | TaxCategory | Percent
    | LegalMonetaryTotal | LineExtensionAmount | TaxExclusiveAmount | TaxInclusiveAmount | PayableAmount
    | InvoiceLine | CreditNoteLine | InvoicedQuantity | CreditedQuantity
    | Item | ClassifiedTaxCategory | Price | PriceAmount | Description
    | Other(name: string)
}
