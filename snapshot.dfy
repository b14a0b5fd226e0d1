/** The price snapshot the dashboard works from: one rupee price per tracked
    coin, as read from `data.<coin>.inr` of `/api/prices`, and the fixed
    snapshot used when that fetch fails (public/app.js, fetchCryptoData). */
module Snapshot {

  datatype PriceSnapshot = PriceSnapshot(bitcoin: real, ethereum: real, dogecoin: real)

  /** Prices substituted when the price fetch fails. */
  const FallbackSnapshot: PriceSnapshot := PriceSnapshot(5000000.0, 300000.0, 5000.0)
}
