/** A validated transaction; the amount is kept in whole cents, the timestamp in milliseconds. */
module Transactions {
  import opened Prelude

  const MS_PER_DAY := 86_400_000
  // Days from 1970-01-01 to 2201-01-01: validation accepts the years 1970 to 2200.
  const LAST_DAY := 84_371

  type Instant = ms: int | 0 <= ms < LAST_DAY * MS_PER_DAY

  type Currency = s: string | |s| == 3 && forall i :: 0 <= i < 3 ==> 'A' <= s[i] <= 'Z' witness "USD"

  datatype Transaction = Transaction(
    provider: string, transactionId: string, accountId: string, merchantId: string,
    amount: nat, currency: Currency, timestamp: Instant, description: Option<string>)
}
