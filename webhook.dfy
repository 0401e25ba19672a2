/** Normalisation of an Interswitch webhook payload into the fields the
    callers read. Signature checking is not implemented by the handler and
    the log call has no effect on the result. */
module Webhook {
  import opened Php

  /** The normalised notification; `raw` is the payload itself. */
  datatype Notification = Notification(
    provider: string,
    reference: Json,
    providerReference: Json,
    status: Json,
    amount: Json,
    raw: Json)

  /** `Arr::get($payload, k)` for a key without a dot reads as `$payload[k]`. */
  lemma PlainKey(payload: Json, k: string)
    requires '.' !in k
    ensures ArrGet(payload, k, JNull) == Index(payload, k)
  {
  }

  /** `Arr::get($payload, k) ?? Arr::get($payload, fallback)`. */
  function FirstOf(payload: Json, k: string, fallback: string): (r: Json)
    requires '.' !in k && '.' !in fallback
    ensures r == (if Index(payload, k) != JNull then Index(payload, k) else Index(payload, fallback))
  {
    PlainKey(payload, k);
    PlainKey(payload, fallback);
    Coalesce(ArrGet(payload, k, JNull), ArrGet(payload, fallback, JNull))
  }

  /** `handle`: each field is the first non-null of its keys. */
  function Handle(payload: Json): (n: Notification)
    ensures n.provider == "interswitch" && n.raw == payload
    ensures n.reference == (if Index(payload, "reference") != JNull then Index(payload, "reference")
                            else Index(payload, "terminalTransactionId"))
    ensures n.providerReference == (if Index(payload, "provider_reference") != JNull then Index(payload, "provider_reference")
                                    else Index(payload, "transactionRef"))
    ensures n.status == (if Index(payload, "status") != JNull then Index(payload, "status")
                         else Index(payload, "responseCode"))
    ensures n.amount == Index(payload, "amount")
  {
    PlainKey(payload, "amount");
    Notification(
      "interswitch",
      FirstOf(payload, "reference", "terminalTransactionId"),
      FirstOf(payload, "provider_reference", "transactionRef"),
      FirstOf(payload, "status", "responseCode"),
      ArrGet(payload, "amount", JNull),
      payload)
  }

  /** A payload that already uses the normalised keys keeps their values;
      the fallback keys are read only when those are absent or null. */
  lemma CanonicalKeysWin(reference: Json, providerReference: Json, status: Json, amount: Json, extra: seq<(string, Json)>)
    requires reference != JNull && providerReference != JNull && status != JNull
    ensures var payload := JObj([("reference", reference), ("provider_reference", providerReference),
                                 ("status", status), ("amount", amount)] + extra);
      Handle(payload) == Notification("interswitch", reference, providerReference, status, amount, payload)
  {
    var fields := [("reference", reference), ("provider_reference", providerReference),
                   ("status", status), ("amount", amount)] + extra;
    FindFirst(fields, "reference", 0);
    FindFirst(fields, "provider_reference", 1);
    FindFirst(fields, "status", 2);
    FindFirst(fields, "amount", 3);
  }

  /** A payload carrying only the Interswitch-native keys is mapped from them. */
  lemma NativeKeysFallBack(terminalId: Json, transactionRef: Json, responseCode: Json)
    ensures var payload := JObj([("terminalTransactionId", terminalId), ("transactionRef", transactionRef),
                                 ("responseCode", responseCode)]);
      Handle(payload) == Notification("interswitch", terminalId, transactionRef, responseCode, JNull, payload)
  {
    var fields := [("terminalTransactionId", terminalId), ("transactionRef", transactionRef),
                   ("responseCode", responseCode)];
    FindFirst(fields, "terminalTransactionId", 0);
    FindFirst(fields, "transactionRef", 1);
    FindFirst(fields, "responseCode", 2);
    Absent(fields, "reference");
    Absent(fields, "provider_reference");
    Absent(fields, "status");
    Absent(fields, "amount");
  }

  /** A key none of the fields carries reads as null. */
  lemma Absent(fields: seq<(string, Json)>, k: string)
    requires forall i :: 0 <= i < |fields| ==> fields[i].0 != k
    ensures Index(JObj(fields), k) == JNull
  {
  }
}
