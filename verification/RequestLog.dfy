/** Rows of the append-only request log. */
module RequestLog {
  import opened Wrappers
  import opened Calendar
  import opened Subscriptions

  /** `user` is None once the account is gone, or for a row written without one. */
  datatype LogRow = LogRow(user: Option<UserId>, status: nat, ms: nat, at: Instant) {
    predicate IsError() {
      status >= 400
    }

    function Day(): int {
      at / DAY
    }
  }
}
