/** The Paystack bills adapter, a stub: its catalog syncs report nothing
    synced and every other operation raises "not implemented". It holds its
    configuration but never reads it and never sends a request. */
module Paystack {
  import opened Php
  import opened Requests
  import opened Results
  import opened Catalog

  const NotImplemented := LogicError("Paystack Bills provider is not implemented yet.")

  /** `notImplemented`. */
  function Raise<T>(): Result<T> {
    Err(NotImplemented)
  }

  function PurchaseAirtime(req: AirtimeRequest): (r: Result<BillTransactionResult>)
    ensures r.Err? && r.error.LogicError? && r.error == NotImplemented
  {
    Raise()
  }

  function PurchaseData(req: DataRequest): (r: Result<BillTransactionResult>)
    ensures r.Err? && r.error.LogicError? && r.error == NotImplemented
  {
    Raise()
  }

  function PayPowerBill(req: PowerBillRequest): (r: Result<BillTransactionResult>)
    ensures r.Err? && r.error.LogicError? && r.error == NotImplemented
  {
    Raise()
  }

  function PayTvSubscription(req: TvSubscriptionRequest): (r: Result<BillTransactionResult>)
    ensures r.Err? && r.error.LogicError? && r.error == NotImplemented
  {
    Raise()
  }

  function ValidateCustomer(req: CustomerValidationRequest): (r: Result<CustomerValidationResult>)
    ensures r.Err? && r.error.LogicError? && r.error == NotImplemented
  {
    Raise()
  }

  function CheckTransactionStatus(reference: string): (r: Result<BillTransactionStatusResult>)
    ensures r.Err? && r.error.LogicError? && r.error == NotImplemented
  {
    Raise()
  }

  /** `syncCatalog`: zero counts and no upserts. */
  function SyncCatalog(): (run: (SyncCounts, seq<Upsert>))
    ensures run.0 == SyncCounts(0, 0, 0) && run.1 == []
  {
    (SyncCounts(0, 0, 0), [])
  }

  /** `syncCatalogScoped` delegates to `syncCatalog`, whatever the scope. */
  function SyncCatalogScoped(scope: string): (run: (SyncCounts, seq<Upsert>))
    ensures run.0 == SyncCounts(0, 0, 0) && run.1 == []
  {
    SyncCatalog()
  }

  /** No scope makes a difference, and a sync leaves every table as it was. */
  lemma SyncsChangeNothing(t: Tables, scope: string, other: string)
    ensures SyncCatalogScoped(scope) == SyncCatalogScoped(other) == SyncCatalog()
    ensures ApplyAll(t, SyncCatalogScoped(scope).1) == t && ApplyAll(t, SyncCatalog().1) == t
  {
  }

  /** The six transaction operations fail alike, whatever the request. */
  lemma NoOperationSucceeds(a: AirtimeRequest, d: DataRequest, p: PowerBillRequest, tv: TvSubscriptionRequest,
                            v: CustomerValidationRequest, reference: string)
    ensures PurchaseAirtime(a).Err? && PurchaseData(d).Err? && PayPowerBill(p).Err? && PayTvSubscription(tv).Err?
    ensures ValidateCustomer(v).Err? && CheckTransactionStatus(reference).Err?
    ensures PurchaseAirtime(a).error == PurchaseData(d).error == PayPowerBill(p).error == PayTvSubscription(tv).error
              == ValidateCustomer(v).error == CheckTransactionStatus(reference).error == NotImplemented
  {
  }
}
