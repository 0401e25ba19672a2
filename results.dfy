/** The three uniform result records every adapter returns, with their
    named constructors (`success` / `failure`). */
module Results {
  import opened Php

  /** An amount as the provider reported it: Interswitch reports minor
      units (divided by 100 for the caller), Flutterwave major units (cast
      to float). The division and the cast are floating point and are not
      carried out here. */
  datatype Amount = MinorUnits(kobo: Json) | MajorUnits(units: Json)

  datatype BillTransactionResult = BillTransactionResult(
    success: bool,
    status: string,
    reference: string,
    providerReference: Option<string>,
    amount: Option<Amount>,
    provider: string,
    message: Option<string>,
    errorCode: Option<string>,
    raw: Option<Json>)

  /** `BillTransactionResult::success`: a null status becomes "success". */
  function TransactionSuccess(reference: string, providerReference: Option<string>, amount: Option<Amount>,
                              provider: string, status: Option<string>, message: Option<string>,
                              raw: Option<Json>): (r: BillTransactionResult)
    ensures r.success && r.errorCode == None
    ensures r.status == (if status.Some? then status.value else "success")
    ensures r.reference == reference && r.providerReference == providerReference && r.amount == amount
    ensures r.provider == provider && r.message == message && r.raw == raw
  {
    BillTransactionResult(true, if status.Some? then status.value else "success", reference,
                          providerReference, amount, provider, message, None, raw)
  }

  /** `BillTransactionResult::failure`: no provider reference and no amount;
      a null status becomes "failed". */
  function TransactionFailure(reference: string, provider: string, status: Option<string>,
                              message: Option<string>, errorCode: Option<string>,
                              raw: Option<Json>): (r: BillTransactionResult)
    ensures !r.success && r.providerReference == None && r.amount == None
    ensures r.status == (if status.Some? then status.value else "failed")
    ensures r.reference == reference && r.provider == provider && r.message == message
    ensures r.errorCode == errorCode && r.raw == raw
  {
    BillTransactionResult(false, if status.Some? then status.value else "failed", reference,
                          None, None, provider, message, errorCode, raw)
  }

  datatype BillTransactionStatusResult = BillTransactionStatusResult(
    success: bool,
    status: string,
    reference: string,
    providerReference: Option<string>,
    provider: string,
    message: Option<string>,
    errorCode: Option<string>,
    raw: Option<Json>)

  /** `BillTransactionStatusResult::success`: the status is kept as given. */
  function StatusSuccess(status: string, reference: string, providerReference: Option<string>,
                         provider: string, message: Option<string>, raw: Option<Json>): (r: BillTransactionStatusResult)
    ensures r.success && r.errorCode == None && r.status == status
    ensures r.reference == reference && r.providerReference == providerReference
    ensures r.provider == provider && r.message == message && r.raw == raw
  {
    BillTransactionStatusResult(true, status, reference, providerReference, provider, message, None, raw)
  }

  /** `BillTransactionStatusResult::failure`: no provider reference; a null
      status becomes "failed". */
  function StatusFailure(reference: string, provider: string, status: Option<string>,
                         message: Option<string>, errorCode: Option<string>, raw: Option<Json>): (r: BillTransactionStatusResult)
    ensures !r.success && r.providerReference == None
    ensures r.status == (if status.Some? then status.value else "failed")
    ensures r.reference == reference && r.provider == provider && r.message == message
    ensures r.errorCode == errorCode && r.raw == raw
  {
    BillTransactionStatusResult(false, if status.Some? then status.value else "failed", reference,
                                None, provider, message, errorCode, raw)
  }

  datatype CustomerValidationResult = CustomerValidationResult(
    success: bool,
    customerId: string,
    customerName: Option<string>,
    provider: string,
    message: Option<string>,
    errorCode: Option<string>,
    raw: Option<Json>)

  /** `CustomerValidationResult::success`. */
  function ValidationSuccess(customerId: string, customerName: Option<string>, provider: string,
                             message: Option<string>, raw: Option<Json>): (r: CustomerValidationResult)
    ensures r.success && r.errorCode == None
    ensures r.customerId == customerId && r.customerName == customerName
    ensures r.provider == provider && r.message == message && r.raw == raw
  {
    CustomerValidationResult(true, customerId, customerName, provider, message, None, raw)
  }

  /** `CustomerValidationResult::failure`: no customer name; the error code
      is kept. */
  function ValidationFailure(customerId: string, provider: string, message: Option<string>,
                             errorCode: Option<string>, raw: Option<Json>): (r: CustomerValidationResult)
    ensures !r.success && r.customerName == None && r.errorCode == errorCode
    ensures r.customerId == customerId && r.provider == provider && r.message == message && r.raw == raw
  {
    CustomerValidationResult(false, customerId, None, provider, message, errorCode, raw)
  }
}
