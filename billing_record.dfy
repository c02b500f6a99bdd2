/** One billing line item as the exporter handles it, and the key it computes for it. */
module BillingRecord {

  /**
   * A line item of the billing API's `data` array. The exporter reads only
   * `resource.id`, `start_date` and `granularity`; every other field is passed
   * through untouched and is kept here as `fields`.
   */
  datatype Record = Record(
    resourceId: string,
    startDate: string,
    granularity: string,
    fields: map<string, string>)

  /** The key triple `key_billing_data` serialises. */
  datatype BillingKey = BillingKey(id: string, startDate: string, granularity: string)

  function KeyBillingData(rec: Record): BillingKey {
    BillingKey(rec.resourceId, rec.startDate, rec.granularity)
  }

  /**
   * Two line items share a key exactly when they agree on resource id, start
   * date and granularity; the passed-through fields play no part.
   */
  lemma KeyIdentifiesLineItem(a: Record, b: Record)
    ensures KeyBillingData(a) == KeyBillingData(b) <==>
      a.resourceId == b.resourceId && a.startDate == b.startDate && a.granularity == b.granularity
  {
  }
}
