/**
 * Paywall events: an immutable record of a paywall being shown, a purchase
 * being cancelled from it, or it being closed, and the flat record of it that
 * is posted with a receipt.
 */
module PaywallEvents {
  import opened Uuid

  /** A Kotlin `Int`. */
  type Int32 = x: int | -0x8000_0000 <= x < 0x8000_0000

  datatype PaywallEventType = IMPRESSION | CANCEL | CLOSE {
    /** The event's wire tag. */
    function Value(): string {
      match this
      case IMPRESSION => "paywall_impression"
      case CANCEL => "paywall_cancel"
      case CLOSE => "paywall_close"
    }
  }

  /** No two event types share a tag. */
  lemma PaywallEventTypeValuesDistinct(a: PaywallEventType, b: PaywallEventType)
    requires a.Value() == b.Value()
    ensures a == b
  {
  }

  /** A point in time, in milliseconds since the epoch. */
  datatype Date = Date(epochMillis: int)

  datatype CreationData = CreationData(id: UUID, date: Date)

  datatype Data = Data(
    offeringIdentifier: string,
    paywallRevision: Int32,
    sessionIdentifier: UUID,
    displayMode: string,
    localeIdentifier: string,
    darkMode: bool)

  /** The record of a paywall event posted together with a receipt. */
  datatype PaywallPostReceiptData = PaywallPostReceiptData(
    sessionID: string,
    revision: Int32,
    displayMode: string,
    darkMode: bool,
    localeIdentifier: string,
    offeringId: string)

  datatype PaywallEvent = PaywallEvent(creationData: CreationData, data: Data, eventType: PaywallEventType) {
    /** `toPaywallPostReceiptData`: the event's data, flattened, with the session id in string form. */
    function ToPaywallPostReceiptData(): (r: PaywallPostReceiptData)
      ensures r.sessionID == ToString(data.sessionIdentifier)
      ensures |r.sessionID| == 36
      ensures r.revision == data.paywallRevision
      ensures r.displayMode == data.displayMode
      ensures r.darkMode == data.darkMode
      ensures r.localeIdentifier == data.localeIdentifier
      ensures r.offeringId == data.offeringIdentifier
    {
      PaywallPostReceiptData(
        sessionID := ToString(data.sessionIdentifier),
        revision := data.paywallRevision,
        displayMode := data.displayMode,
        darkMode := data.darkMode,
        localeIdentifier := data.localeIdentifier,
        offeringId := data.offeringIdentifier)
    }
  }

  /** The posted record depends on the event's data only, not on its creation data or type. */
  lemma ReceiptDataDependsOnlyOnData(e: PaywallEvent, f: PaywallEvent)
    requires e.data == f.data
    ensures e.ToPaywallPostReceiptData() == f.ToPaywallPostReceiptData()
  {
  }

  /** The posted record determines the event's data: every field survives the flattening. */
  lemma {:induction false} ReceiptDataDeterminesData(e: PaywallEvent, f: PaywallEvent)
    requires e.ToPaywallPostReceiptData() == f.ToPaywallPostReceiptData()
    ensures e.data == f.data
  {
    ToStringInjective(e.data.sessionIdentifier, f.data.sessionIdentifier);
  }
}
