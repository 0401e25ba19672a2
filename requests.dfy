/** The request records callers hand to an adapter. They carry no
    behaviour; `meta` is a free-form array. */
module Requests {
  import opened Php
  import opened Numeric

  datatype AirtimeRequest = AirtimeRequest(
    phoneNumber: string,
    network: string,
    country: string,
    currency: string,
    amount: Decimal,
    productCode: Option<string>,
    reference: Option<string>,
    meta: Json)

  datatype DataRequest = DataRequest(
    phoneNumber: string,
    network: string,
    country: string,
    currency: string,
    amount: Decimal,
    productCode: string,
    reference: Option<string>,
    meta: Json)

  datatype PowerBillRequest = PowerBillRequest(
    meterNumber: string,
    disco: string,
    country: string,
    currency: string,
    amount: Decimal,
    productCode: string,
    customerName: Option<string>,
    reference: Option<string>,
    meta: Json)

  datatype TvSubscriptionRequest = TvSubscriptionRequest(
    smartcardNumber: string,
    provider: string,
    country: string,
    currency: string,
    amount: Decimal,
    productCode: string,
    customerName: Option<string>,
    reference: Option<string>,
    meta: Json)

  datatype CustomerValidationRequest = CustomerValidationRequest(
    customerId: string,
    billerCode: Option<string>,
    productCode: string,
    country: Option<string>,
    meta: Json)
}
