/** The price cards of the dashboard: the Indian-numbering magnitude tiers
    of formatINR (public/app.js, inside updatePriceDisplay) and the fallback
    snapshot shown when the price fetch fails (public/app.js, fetchCryptoData). */
module PriceDisplay {
  import opened Snapshot
  import opened Wrappers

  /** One crore and one lakh, the two thresholds of the formatter. */
  const Crore: real := 10000000.0
  const Lakh: real := 100000.0

  /** The tier formatINR picks, with the number it prints in that tier. */
  datatype InrAmount =
    | InCrore(scaled: real)   // printed as `₹<scaled.toFixed(2)> Cr`
    | InLakh(scaled: real)    // printed as `₹<scaled.toFixed(2)> L`
    | Plain(value: real)      // printed as `₹<value.toLocaleString('en-IN')>`

  /** Tier selection of formatINR and the value printed in that tier. */
  function FormatINR(value: real): (a: InrAmount)
    ensures a.InCrore? <==> value >= Crore
    ensures a.InLakh? <==> Lakh <= value < Crore
    ensures a.Plain? <==> value < Lakh
  {
    if value >= Crore then InCrore(value / Crore)
    else if value >= Lakh then InLakh(value / Lakh)
    else Plain(value)
  }

  /** The rupee amount a displayed tier stands for. */
  function Amount(a: InrAmount): real
  {
    match a
    case InCrore(s) => s * Crore
    case InLakh(s) => s * Lakh
    case Plain(v) => v
  }

  /** Order of the tiers, smallest unit first. */
  function Rank(a: InrAmount): nat
  {
    match a
    case Plain(_) => 0
    case InLakh(_) => 1
    case InCrore(_) => 2
  }

  /** No information is lost by scaling: the tier and its number give back
      the original value. */
  lemma FormatINRRoundTrip(value: real)
    ensures Amount(FormatINR(value)) == value
  {
  }

  /** The printed number of a scaled tier: at least 1 in crore, and in
      [1, 100) in lakh; a plain amount is below one lakh. */
  lemma FormatINRScaledRange(value: real)
    ensures FormatINR(value).InCrore? ==> FormatINR(value).scaled >= 1.0
    ensures FormatINR(value).InLakh? ==> 1.0 <= FormatINR(value).scaled < 100.0
    ensures FormatINR(value).Plain? ==> FormatINR(value).value == value < Lakh
  {
  }

  /** A larger value never gets a smaller unit. */
  lemma FormatINRMonotone(v: real, w: real)
    requires v <= w
    ensures Rank(FormatINR(v)) <= Rank(FormatINR(w))
  {
  }

  /** The text formatINR returns, with the number-to-text conversions
      (`toFixed(2)` and `toLocaleString('en-IN')`) passed in. */
  function FormatINRText(value: real, fixed2: real -> string, locale: real -> string): (s: string)
    ensures |s| >= 1 && s[0] == '₹'
    ensures value >= Crore ==> s == "₹" + fixed2(value / Crore) + " Cr"
    ensures Lakh <= value < Crore ==> s == "₹" + fixed2(value / Lakh) + " L"
    ensures value < Lakh ==> s == "₹" + locale(value)
  {
    match FormatINR(value)
    case InCrore(s) => "₹" + fixed2(s) + " Cr"
    case InLakh(s) => "₹" + fixed2(s) + " L"
    case Plain(v) => "₹" + locale(v)
  }

  /** updatePriceDisplay: with at least three `.crypto-card .price` elements,
      the first three show bitcoin, ethereum and dogecoin; with fewer, none is
      touched (None). */
  function PriceCardTexts(data: PriceSnapshot, cardCount: nat, fixed2: real -> string, locale: real -> string)
    : (r: Option<seq<string>>)
    ensures r.Some? <==> cardCount >= 3
    ensures r.Some? ==> r.value == [FormatINRText(data.bitcoin, fixed2, locale),
                                    FormatINRText(data.ethereum, fixed2, locale),
                                    FormatINRText(data.dogecoin, fixed2, locale)]
  {
    if cardCount >= 3 then
      Some([FormatINRText(data.bitcoin, fixed2, locale),
            FormatINRText(data.ethereum, fixed2, locale),
            FormatINRText(data.dogecoin, fixed2, locale)])
    else None
  }

  /** The fallback snapshot: bitcoin and ethereum print in lakh, dogecoin
      plainly. */
  lemma FallbackSnapshotTiers()
    ensures FormatINR(FallbackSnapshot.bitcoin) == InLakh(50.0)
    ensures FormatINR(FallbackSnapshot.ethereum) == InLakh(3.0)
    ensures FormatINR(FallbackSnapshot.dogecoin) == Plain(5000.0)
  {
  }

  /** The price cards after a failed price fetch: bitcoin and ethereum in
      lakh, dogecoin plainly. */
  lemma FallbackCardTexts(cardCount: nat, fixed2: real -> string, locale: real -> string)
    requires cardCount >= 3
    ensures PriceCardTexts(FallbackSnapshot, cardCount, fixed2, locale) ==
              Some(["₹" + fixed2(50.0) + " L", "₹" + fixed2(3.0) + " L", "₹" + locale(5000.0)])
  {
  }

  /** Further sample values: 150,000,000 prints in crore, 500,000 in lakh. */
  lemma SampleTiers()
    ensures FormatINR(150000000.0) == InCrore(15.0)
    ensures FormatINR(500000.0) == InLakh(5.0)
    ensures FormatINR(Crore) == InCrore(1.0) && FormatINR(Lakh) == InLakh(1.0)
    ensures FormatINR(99999.99) == Plain(99999.99)
  {
  }
}
