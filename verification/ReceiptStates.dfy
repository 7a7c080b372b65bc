/** The states of a recovery receipt and the moves between them that a mark may make. */
module ReceiptStates {

  /** A receipt's primary key: source handle and ordinal. */
  datatype Origin = Origin(handle: string, ordinal: nat)

  datatype ReceiptState = PendingEnqueue | RetryPending | Enqueued | Quarantined | Written

  predicate Pending(st: ReceiptState) {
    st == PendingEnqueue || st == RetryPending || st == Enqueued
  }

  /** The transition table of RecoveryReceiptStore.mark. */
  predicate MarkAllowed(previous: ReceiptState, next: ReceiptState) {
    match next
    case PendingEnqueue => Pending(previous)
    case RetryPending => previous == RetryPending
    case Enqueued => Pending(previous)
    case Written => Pending(previous) || previous == Written
    case Quarantined => Pending(previous) || previous == Quarantined
  }
}
