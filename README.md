# CryptoIonic dashboard: data shaping, modelled in Dafny

CryptoIonic is a browser dashboard that shows bitcoin, ethereum and dogecoin
prices in Indian rupees, a static chart per coin and a strip of news cards.
This project models the data shaping done by the client script
`public/app.js`. It covers four pieces:

- **Static chart generator** (`PriceChart`). `generateStaticPriceData` seeds each
  chart with a mean-reverting walk of twelve points around the coin's current
  price. The volatility depends on the price tier. Past 10% of drift, the price
  snaps back to 8% from the base. Each point is rounded to two decimals.
  `loadStaticChartData` also builds twelve hour labels, oldest first.
- **Price cards** (`PriceDisplay`). `formatINR` picks one of three tiers, crore,
  lakh or plain, and the number it prints in that tier. It is called for the
  first three price cards.
- **Snapshot** (`Snapshot`). This is the rupee price of each coin. It also
  holds the fixed fallback snapshot that is used when the price fetch fails.
- **News cards** (`News`). `processCryptoNews` keeps the first two articles of a
  coin and shapes each article into a card, using defaults for a falsy
  description or image. `fetchLatestNews` joins the bitcoin, ethereum and
  dogecoin cards, cuts the list to six, and replaces the displayed set. If any
  coin's list is absent, the script throws before anything is displayed.

Prices are `real`. The draws of `Math.random` are an input sequence of reals in
[0, 1), one per loop iteration. The time passed to `toLocaleTimeString` and the
number-to-text conversions (`toFixed(2)` on a scaled tier, `toLocaleString`)
are function parameters. `parseFloat(x.toFixed(2))` is modelled on exact
reals: it rounds to the nearest hundredth, and a tie goes away from zero.
Values from 1e21 up pass through unchanged, as `toFixed` does. The clock is
the parameter `now`, in milliseconds. The news response is the parsed body,
given as a map from field name to article list, or `None` when the fetch or
the parse failed.

Where the code and the design description differ, the model follows the
code:

- There is no periodic refresh and no sliding window that drops the oldest
  point. Each chart's labels and data are replaced wholesale.
- When the price fetch fails, the source always shows the fallback snapshot
  and keeps no earlier values (public/app.js:130-140). The model has the
  snapshot and what is computed from it, not this control flow (see
  "## Left out").
- Only the description and the image get defaults. The title, source and url
  get none: they are copied as they are.
- A card whose coinType is absent, or is not a string, makes `updateNewsCards`
  throw while it builds that card's tag. The container has already been
  cleared by then, so only the cards before it stay on the page.
- A description equal to the text `No description available.` is kept as it
  is. So the card shows that text exactly when the description is falsy OR
  literally equal to it. That is why the contract is an if-then-else and not
  an if-and-only-if.

## Model

| member | source | states |
|---|---|---|
| `PriceChart.Volatility` | public/app.js:181 | definition: 0.03 below a base of 1,000, else 0.02 below 100,000, else 0.01, read from the base price and not the current one |
| `PriceChart.ChangePercent` | public/app.js:182 | definition: `(draw − 0.5) · volatility · 2` |
| `PriceChart.Drifted` | public/app.js:188 | definition of the drift test `abs(p − base) / base > 0.1`; a zero base gives NaN (p = 0, false) or Infinity (p ≠ 0, true) in JavaScript, and the model follows that |
| `PriceChart.Snap` | public/app.js:190 | definition: `base · (1 + (p > base ? 0.08 : −0.08))` |
| `PriceChart.Step` | public/app.js:185-191 | definition of one loop iteration: perturb the current price, then snap it when the iteration is not the first and the price drifted |
| `PriceChart.Trace` | public/app.js:176-194 | definition: the walk starts at the base itself, at iteration 0 |
| `PriceChart.Round2` | public/app.js:193 | definition of `parseFloat(x.toFixed(2))` on reals: nearest hundredth, a tie away from zero, and values with magnitude from 1e21 up unchanged |
| `PriceChart.LabelTime` | public/app.js:150-152 | definition: the label at position k is `MaxDataPoints − 1 − k` hours before `now` |
| `News.Falsy` | public/app.js:252-255 | definition of a falsy string field, as JavaScript's or-operator reads it: absent or empty |
| `PriceChart.VolatilityTiers` | public/app.js:181 | the volatility is 0.03 exactly when the base is below 1,000, 0.02 exactly when it is from 1,000 up to below 100,000, and 0.01 exactly when it is from 100,000 up; no other value occurs |
| `PriceChart.VolatilityNonIncreasing` | public/app.js:181 | a larger base price never gets a larger volatility |
| `PriceChart.FallbackVolatility` | public/app.js:133-137 | the fallback prices of bitcoin and ethereum walk with volatility 0.01 and dogecoin with 0.02 |
| `PriceChart.ChangePercentBounds` | public/app.js:182 | a draw in [0, 1) gives a change percent in [-volatility, volatility) |
| `PriceChart.StepBounded` | public/app.js:180-191 | after any iteration but the first, a positive base's price is within 10% of the base, whatever the previous price and the draw |
| `PriceChart.FirstStepBounded` | public/app.js:176-185 | the first iteration starts at the base and moves it by at most volatility times the base |
| `PriceChart.DriftedMeaning` | public/app.js:188 | for a positive base the drift test holds exactly when abs(p − base) > base/10; a negative base never drifts |
| `PriceChart.StepClamp` | public/app.js:185-191 | for a positive base, the step changes the perturbed price exactly when the clamp fires (not the first iteration, and drifted); a fired clamp gives exactly base·1.08 if the perturbed price was above the base and base·0.92 otherwise, so it is on the same side and exactly 8% away; otherwise the step is the plain perturbation |
| `PriceChart.TraceFrom` | public/app.js:179-194 | the walk yields exactly one internal price per draw |
| `PriceChart.TraceFromBounded` | public/app.js:179-194 | starting from the base itself, or from any later iteration, every price the walk yields stays within 10% of a positive base |
| `PriceChart.TraceBounded` | public/app.js:179-194 | the bounded-drift invariant: with a positive base and draws in [0, 1), every internal price p satisfies abs(p − base) ≤ 0.1·base |
| `PriceChart.PushedBounded` | public/app.js:179-194 | for a positive base and draws in [0, 1), every pushed value is within 10% of the base plus half a cent of rounding |
| `PriceChart.TracePositive` | public/app.js:179-191 | with a positive base, every internal price is at least 90% of the base, so it is never zero or negative |
| `PriceChart.Round2Bounds` | public/app.js:193 | the pushed value is within 0.005 of the internal price, has at most two decimals below 1e21, and is non-negative for a non-negative price |
| `PriceChart.GenerateStaticPriceData` | public/app.js:174-197 | returns exactly 12 values; value k is the rounding of the walk's k-th internal price; for a positive base and draws in [0, 1), every value is within 10% of the base plus 0.005 |
| `PriceChart.LabelTimesAscending` | public/app.js:150-152 | label times are one hour apart, oldest first, and the last label is at `now` |
| `PriceChart.HourLabels` | public/app.js:147-154 | returns exactly 12 labels; label k shows the time 11 − k hours before `now` |
| `PriceChart.LoadStaticChartData` | public/app.js:144-172 | the label axis and the three coin series each have 12 entries, and each series is the generator's rounded walk from that coin's snapshot price |
| `PriceDisplay.FormatINR` | public/app.js:210-219 | the tiers are exclusive and exhaustive: crore iff value ≥ 10,000,000, lakh iff 100,000 ≤ value < 10,000,000, plain iff value < 100,000 |
| `PriceDisplay.FormatINRRoundTrip` | public/app.js:212-217 | the tier and its scaled number give back the original value (the scaled number is value/1e7 in crore and value/1e5 in lakh) |
| `PriceDisplay.FormatINRScaledRange` | public/app.js:212-218 | the printed number is at least 1 in crore, in [1, 100) in lakh, and a plain amount is the value itself, below one lakh |
| `PriceDisplay.FormatINRMonotone` | public/app.js:212-218 | a larger value never gets a smaller unit |
| `PriceDisplay.FormatINRText` | public/app.js:210-219 | the text starts with the rupee sign; it ends in " Cr" with value/1e7 in crore, in " L" with value/1e5 in lakh, and is the locale text of the value otherwise |
| `PriceDisplay.FallbackSnapshotTiers` | public/app.js:133-137 | the fallback bitcoin 5,000,000 prints as 50 L, ethereum 300,000 as 3 L, and dogecoin 5,000 plainly |
| `PriceDisplay.FallbackCardTexts` | public/app.js:133-139 | after a failed price fetch, with at least three cards, the cards read "₹" + fixed2(50) + " L", "₹" + fixed2(3) + " L" and "₹" + locale(5000), where fixed2 and locale stand for `toFixed(2)` and `toLocaleString('en-IN')` |
| `PriceDisplay.SampleTiers` | public/app.js:212-218 | 150,000,000 prints as 15 Cr and 500,000 as 5 L; exactly one crore and one lakh fall in their own tier, and 99,999.99 is plain |
| `News.ToCard` | public/app.js:250-258 | title, source, url and coinType are copied unchanged and cardClass is the argument; description is the default text if the input's is falsy and the input's otherwise; image is `default-news.jpg` if urlToImage is falsy and urlToImage otherwise |
| `News.MapToCards` | public/app.js:249-259 | the card map yields one card per article, and card k is built from article k |
| `News.ProcessCryptoNews` | public/app.js:247-260 | returns min(2, n) cards for n articles, and card k is built from article k |
| `News.CombineNews` | public/app.js:234-241 | succeeds iff all three coin lists are present, and then has at most six cards |
| `News.CombineNewsComplete` | public/app.js:234-241 | with all three lists present, the result is the bitcoin cards, then the ethereum cards, then the dogecoin cards; the cut to six removes nothing |
| `News.CombineNewsLayout` | public/app.js:234-241 | the combined set has min(2, n) cards per coin: first the blue cards built from bitcoin articles 0 and 1, then purple from ethereum, then orange from dogecoin |
| `News.CombineNewsMissing` | public/app.js:234-244 | any list absent makes the step fail, naming the first absent coin in bitcoin, ethereum, dogecoin order |
| `News.ShownPrefix` | public/app.js:266-283 | the cards left on the page are a prefix of the given cards, all with a coinType, and stop just before the first card without one |
| `News.ShownPrefixComplete` | public/app.js:266-283 | every card is shown exactly when every card has a coinType |
| `News.NewsBoard.UpdateNewsCards` | public/app.js:262-284 | with a container, the displayed set becomes the cards before the first one without a coinType (all of them when none lacks one), and the method reports whether building a card threw; without a container, nothing changes |
| `News.NewsBoard.FetchLatestNews` | public/app.js:228-245 | every throw is caught. The displayed set is unchanged when the fetch fails or a coin list is absent. Otherwise it becomes the combined set up to its first card without a coinType. So it is either the old set or a prefix of the new one, never a mix |

## Left out

- `server.js` is not part of this model. It holds routing, middleware and
  upstream calls. Its flat mock news array has no `bitcoin`, `ethereum` or
  `dogecoin` field, so with it `News.CombineNewsMissing` applies and no card
  is ever shown.
- IEEE-754 arithmetic. Prices are exact reals, so the model has no rounding
  error in the walk, in `toFixed(2)` on binary doubles, or in `parseFloat`. It
  also has no NaN or Infinity prices, such as an absent `inr` field.
- `PriceChart.Round2Bounds`: the tie rule is applied to the exact real value. JavaScript
  applies it to the nearest binary double, so a few decimal ties can round the
  other way there.
- Number-to-text conversion. `toFixed(2)` on a scaled tier,
  `toLocaleString('en-IN')` and `toLocaleTimeString` are function parameters.
  Their digit grouping and time format are not modelled.
- `PriceChart.HourLabels`: a label time is `now` minus whole hours in
  milliseconds. The source's `setHours` works in local time, which differs
  across a daylight-saving change.
- `Math.random` is an input sequence of draws, and the clock is the parameter
  `now`.
- The chart objects. `initCharts`, `createChart`, `getChartOptions` and
  `updateStaticChart` are Chart.js widget calls, left out as rendering.
- The async control flow of `fetchCryptoData`. The model has the fallback
  snapshot and the functions applied to a snapshot. It does not have the
  try/catch sequencing that calls `updatePriceDisplay` and
  `loadStaticChartData`.
- The card HTML that `updateNewsCards` builds, including capitalising
  `coinType`. The model keeps only which cards are displayed, in which order,
  and the throw for a card without a string `coinType`.
- `News.NewsBoard.FetchLatestNews`: a `coinType` that is present but not a
  string is modelled as absent (None), since both throw at the same place.
  Other non-string fields are not modelled, because the template prints them
  without throwing.
- Event listeners, alerts, the subscribe form, mobile navigation, scroll
  animations and smooth scrolling. These are DOM wiring with no data shaping.
