/** Wallets and token accounts of the concrete histories. */
module Samples {
  import opened State

  const MERCHANT: Key := 1
  const SUBSCRIBER: Key := 2
  const MERCHANT_ATA: Key := 10
  const SUBSCRIBER_ATA: Key := 20
}
