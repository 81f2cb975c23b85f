# OpenStore sidecar: a verified model

OpenStore lets a shop sell through agents. A *sidecar* asks the Consumer to approve a basket, a
*Gate* decides, a *Ledger* records money, the shop keeps stock and statuses behind ten *doors*,
and a sealed *receipt* is left behind. This project models the deterministic core of that system
in Dafny and proves what its parts promise together.

`dafny verify dfyconfig.toml` checks everything. Every lemma carries `{:induction false}`: each
proof is written out, and none leans on the verifier's own induction.

## The parts

| part | modules |
|---|---|
| Quote arithmetic: largest remainder, tax, the Quote, its hashes, the Gate's re-check, the Quote read against its cart | `Apportion`, `Tax`, `Pricing`, `QuoteCheck`, `Canonical`, `Basket` |
| One decision: twelve checks, the Transcript, settling, the stored document | `Gate`, `Transcript`, `Settlement`, `TranscriptStore` |
| Money: the Ledger, one order as a machine of durable writes, every run, crashes, the sweep | `Ledger`, `Money`, `MoneySafety`, `MoneyRuns`, `MoneyCrash`, `Sweeper`, `MoneyLives`, `MoneyEnds` |
| Stock: doors 3 to 6, every run of them, door 3 under concurrency, replay in front of all doors | `Stock`, `StockRuns`, `StockAnswers`, `ReserveInterleaving`, `DoorReplay` |
| Time windows, single use and numbering | `RateLimiter`, `ReplayGuards`, `Tokens`, `Invoice` |
| The receipt's hash chain | `Bundle` |
| Shared: stable sorting, sums and insertion-ordered maps, text framing | `Ordering`, `Sums`, `Text`, `Wrappers` |

Code that changes state in place is a class whose methods are proved against a function of the
old state (`Ledger.Table`, `Transcript.Log`, `Money.Sidecar`, `Stock.Adapter`, `Sweeper.Store`,
`DoorReplay.Controller`, `RateLimiter.Limiter`, `ReplayGuards.HmacGuard`, `Tokens.TokenStore`,
`Invoice.Books`, `Bundle.Builder`, `TranscriptStore.CheckoutStore` and others); loops are loops.
What the system promises is then proved about those functions, over every input and every run; and
what each main operation answers and leaves is stated once more from outside, from its request and
the history alone.

The results that span components:

- **The storefront and the Gate agree.** Every Quote `buildQuote` returns passes the Gate's own
  arithmetic (`QuoteCheck.BuiltQuotePasses`), because the largest-remainder rule is met exactly
  (`Apportion.SharesFollowTheRule`) and tax is extracted half up (`Tax.ExtractTaxIsHalfUp`).
- **The Ledger has four shapes.** Whatever dies wherever and whatever the shop does
  (`MoneySafety.LedgerShapeOverEveryRun`); and in runs not cut short, row, shop, money and stock
  move together (`MoneyRuns.EveryRunStaysInStep`).
- **Closing, exactly.** From a confirmed order a cancel or sweep may die anywhere: once the shop
  says it is over, stock and money are let go, and one full cancel finishes
  (`MoneyCrash.ClosingIsCrashSafe`). Over every life of an order, crashed taps included, a full
  cancel or expiry closes stock and money if and only if the row was confirmed or nothing was held
  (`MoneyLives.ClosesExactly`).
- **One sweep pass settles everything overdue** that is in step with its shop
  (`Sweeper.OnePassSettlesAll`); over rows that crashes left, what it settles is stated exactly
  (`MoneyLives.PassExactly`).
- **The Quote is the cart's** (`Basket.LinesTellTheCart`, `Basket.SubtotalIsTheCart`,
  `Basket.TaxLinesTellTheLines`), and **the Gate permits exactly what the policy allows**
  (`Gate.Decide`).
- **Every operation writes in its order**, wherever it dies (`MoneyEnds.TapCut`,
  `MoneyEnds.DeliverCut`, `MoneyEnds.CancelCut`), and a cancel that is not refused leaves no link
  that could still be paid (`MoneyEnds.CancelEnds`).
- **Concurrent baskets are serialisable** (`ReserveInterleaving.EveryRunIsSerial`), never wait in
  a circle, and are all answered.
- **Retries are transparent** (`DoorReplay.RetriesAreTransparent`) for any doors at all, one
  request at a time; under any overlap a call runs its door if and only if it looked before the
  first answer under its key was remembered (`DoorReplay.RunsExactly`).
- **Equal receipts, or a collision** (`Bundle.EqualHeadsOrACollision`): tamper evidence as a
  reduction, with nothing assumed of the hash.

## Where the code and its words disagree

The model follows the code.

- `sweep_once` says it never raises; its second look at the deadline stands outside the guard. It
  raises exactly when a confirmed row has no time of confirmation (`Sweeper.PassRaisesExactly`),
  and a tap that died midway produces such a row (`Sweeper.CrashedTapStopsThePass`).
- A nonce is said to be remembered for exactly the window it is valid in. With five seconds of
  skew allowed, a signed request can outlive the memory of its nonce
  (`ReplayGuards.ReplayableExactly`).
- The invoice sequence is said to be gapless. Overlapping calls for one order burn a number; the
  numbers are gapless if and only if no two calls for one order both read it without a number
  (`Invoice.GaplessIfNoTwoFoundItFree`).
- The unique idempotency key is called what closes the race between two retries. It keeps the
  stored answer, but both copies run the door if and only if both looked before the first answer
  was remembered (`DoorReplay.BothRunExactly`, `DoorReplay.OverlappingRetriesRunTwice`).
- `cancel` says that only a confirmed order ever took a hold, and that its order of writes cannot
  leave a cancelled order holding inventory (`src/openstore/sidecar/checkout.py:651-675`). A tap
  that died after door 3 leaves a pending row with a hold, and a full cancel or expiry of it ends
  the order with the stock, and perhaps the money, still held (`MoneyLives.DeadTapKeepsItsHold`),
  and no later cancel or sweep gives it back (`MoneyLives.OverIsOver`).
- What the Merchant signed per item is said to be what a Quote may charge
  (`src/openstore/sidecar/gate/decide.py:444-445`). The comparison looks at parents alone, so a
  Quote passes with an add-on at any price (`QuoteCheck.AddonsPassAtAnyPrice`); all that is left
  free is stated exactly (`QuoteCheck.TotalsDifferBy`).
- `release_code` returns one use for every coupon row of an order, whatever its state. The count
  stays right if and only if, at every release, all of the order's rows for the code are still held
  or the clamp at zero hides it (`StockRuns.CountOverEveryRun`); an order reserved twice can give
  back a use it never took (`StockRuns.SecondReserveReturnsTooMuch`).
- Breakdown order is said never to show in the Quote's hash. It is hidden if and only if the sort
  keys of each list tell its entries apart (`Canonical.OrderShows`), and for tax lines they need
  not: the printed label drops the second decimal of a rate (`Canonical.LabelsCanTie`).
- The signed text of a request joins its parts with line feeds. For a path without one it has a
  second reading if and only if the nonce or the body holds one
  (`ReplayGuards.SecondReadingExactly`). A body can be delivered so; but one of the two readings
  always has the line feed in its nonce, a header value, which cannot
  (`ReplayGuards.SecondReadingsAreUndeliverable`).
- Apportionment says it never loses a paisa. It throws when a repeated SKU overwrites a non-zero
  share (`Apportion.Run`, `Apportion.RepeatedSkuLoses`); inside `buildQuote` SKUs are distinct and
  it never throws.
- A discount above the subtotal can make the Gate refuse the shop's own Quote
  (`QuoteCheck.DeepDiscountIsRefused`): exactly when the tax of its lines exceeds the total
  (`QuoteCheck.BuiltVerdict`).
- A failed settlement lets the money go and keeps the stock held (`MoneyRuns.FailureSequence`);
  collecting cash never calls door 4; `cancel` refuses only `paid`; and a prepaid order whose total
  is zero can never be paid (`MoneyRuns.NothingToCapture`).
- The Transcript round trip is called exact. It is exactly when nothing it leaves out is set
  (`TranscriptStore.RoundTripExactly`); the document itself is always stable.

## Model

| member | source | states |
|---|---|---|
| `Apportion.Run` | demo/merchant-site/src/lib/pricing.ts:77-107 | For any non-negative amount and weights: distinct SKUs get the largest-remainder shares; with a weight to share on, the shares sum to the amount; it throws exactly when a repeated SKU overwrote a non-zero share, and names what was lost |
| `Apportion.RepeatedSkuLoses` | demo/merchant-site/src/lib/pricing.ts:104-106 | Two entries of one SKU overwrite the first one's whole floor, so the throw is reachable: amount 2 over two equal entries of one SKU loses a paisa |
| `Apportion.TakeFloors` | demo/merchant-site/src/lib/pricing.ts:87-95 | The first loop leaves whole shares, their sum and every remainder |
| `Apportion.ServeSpare` | demo/merchant-site/src/lib/pricing.ts:97-102 | The second loop adds one paisa to each of the first spare entries of the ranking, so the sum grows by exactly the spare |
| `Apportion.SharesFollowTheRule` | demo/merchant-site/src/lib/pricing.ts:70-107 | The shares are floor or ceiling of amount times weight over total, the ceilings going to the largest remainders, ties by SKU |
| `Apportion.LargestRemainderUnique` | demo/merchant-site/src/lib/pricing.ts:70-76 | The rule as the comment states it leaves one answer |
| `Apportion.SpareBelowPositives` | demo/merchant-site/src/lib/pricing.ts:97-100 | The leftover is below the number of lines with a fraction, so the early break is unreachable |
| `Apportion.SharesSum` | demo/merchant-site/src/lib/pricing.ts:74-75 | An apportionment never loses a paisa |
| `Apportion.ShareWithinWeight` | demo/merchant-site/src/lib/pricing.ts:86-102 | No line bears more than its own weight of an amount no larger than the total |
| `Apportion.ServingIsTheRule` | integrations/woocommerce/openstore-sidecar/includes/class-openstore-pricing.php:55-109 | Floors plus one paisa down the sorted remainders is the rule, and nothing is overwritten when SKUs are distinct |
| `Tax.ExtractTaxIsHalfUp` | demo/merchant-site/src/lib/pricing.ts:62-67 | The integer formula equals the real quotient rounded half up |
| `Tax.ErrorIsHalfUp` | demo/merchant-site/src/lib/pricing.ts:56-61 | The rounding error lies above minus one half and at most one half |
| `Tax.TaxWithinInclusive` | integrations/woocommerce/openstore-sidecar/includes/class-openstore-pricing.php:35-46 | The tax inside an amount is between zero and the amount |
| `Tax.TaxIsMonotone` | demo/merchant-site/src/lib/pricing.ts:62-67 | More money or a higher rate never holds less tax |
| `Tax.BasketTaxBound` | scripts/make_cart_hash_goldens.py:254-257 | Tax line by line differs from tax on the sum by at most half a paisa a line |
| `Tax.BasketTaxBoundIsTight` | scripts/make_cart_hash_goldens.py:254-257 | Two lines meet the bound |
| `Pricing.Build` | demo/merchant-site/src/lib/pricing.ts:154-276 | The whole Quote, or the error of the first line that cannot be folded or the add-on without a parent; the apportionments inside never throw |
| `Pricing.FoldLines` | demo/merchant-site/src/lib/pricing.ts:161-177 | The cart loop leaves each parent once, last line winning, and add-ons under their parent, or stops at the first bad line |
| `Pricing.FindOrphan` | demo/merchant-site/src/lib/pricing.ts:178-185 | The first add-on key whose parent is not in the cart |
| `Pricing.QuoteParents` | demo/merchant-site/src/lib/pricing.ts:187-208 | One Quote line a parent, with its add-ons sorted and added to its total |
| `Pricing.GroupTaxes` | demo/merchant-site/src/lib/pricing.ts:222-243 | The tax loop over the lines leaves the groups that the per-line amounts determine |
| `Pricing.QuoteLinesAreOrdered` | demo/merchant-site/src/lib/pricing.ts:209-209 | The lines of a Quote are distinct parents in SKU order |
| `Basket.LinesTellTheCart` | demo/merchant-site/src/lib/pricing.ts:187-209 | By the cart and catalogue alone: one line for each SKU that is not an add-on, in SKU order, with the quantity of that SKU's last cart line, the catalogue's price, HSN and rate, home or destination as place of supply, exactly its own add-ons at price times quantity, and their sum as its total |
| `Basket.SubtotalIsTheCart` | demo/merchant-site/src/lib/pricing.ts:161-211 | The subtotal is price times quantity over every cart line, a repeated parent counting once, with its last line |
| `Basket.DistinctCartIsCharged` | demo/merchant-site/src/lib/pricing.ts:161-177 | Without repeated parents that is every line of the cart |
| `Basket.TotalIsTheCart` | demo/merchant-site/src/lib/pricing.ts:245-276 | The total is that subtotal plus delivery plus discount; round-off is zero and the rest of the Quote says what was asked for |
| `Basket.TaxLinesTellTheLines` | demo/merchant-site/src/lib/pricing.ts:215-262 | One tax line for each group some line belongs to and no other, labelled and flagged, holding the tax of exactly those lines' amounts after their largest-remainder shares of discount and delivery |
| `Basket.RefusedExactly` | demo/merchant-site/src/lib/pricing.ts:163-185 | A cart is quoted if and only if every line folds and every add-on has its parent; a refusal names the first line that does not fold, or else the parent of the first add-on left loose |
| `Basket.LabelReads` | demo/merchant-site/src/lib/pricing.ts:115-119 | A rate prints as its whole per cent and, when there is a rest, the first digit of it |
| `QuoteCheck.GroupsAddUp` | demo/merchant-site/src/lib/pricing.ts:223-243 | Splitting and grouping lose no paisa of the extracted tax |
| `QuoteCheck.GroupsAreByPlaceAndRate` | demo/merchant-site/src/lib/pricing.ts:224-243 | Each group holds the tax of exactly the lines of its kind, place and rate |
| `QuoteCheck.InclusiveAmounts` | demo/merchant-site/src/lib/pricing.ts:230-235 | Per-line amounts are non-negative and sum to the total when the discount is within the subtotal |
| `QuoteCheck.BuiltVerdict` | src/openstore/sidecar/gate/decide.py:364-457 | With a negative discount or none, a built Quote is refused if and only if prices include tax and the tax of its lines is above the total, and then with that error |
| `QuoteCheck.PassesExactly` | src/openstore/sidecar/gate/decide.py:364-457 | The tenth check passes exactly the Quotes whose sums are right, whose discounts take money off, whose tax is counted once and within the total, and whose parents are at their attested prices |
| `QuoteCheck.BuiltQuotePasses` | src/openstore/sidecar/gate/decide.py:364-457 | Every built Quote with a discount in range passes the Gate; a discount that is not negative never does; without inclusive tax the sign of the discount alone decides |
| `QuoteCheck.DeepDiscountCanPass` | src/openstore/sidecar/gate/decide.py:364-442 | A discount above the subtotal passes all the same when no line's own inclusive amount is below zero |
| `QuoteCheck.DeepDiscountIsRefused` | src/openstore/sidecar/gate/decide.py:364-442 | A discount above the subtotal can make the Gate refuse the shop's own Quote |
| `QuoteCheck.TotalsDifferBy` | src/openstore/sidecar/gate/decide.py:364-457 | Two Quotes that pass for the same attested SKUs and quantities differ in total exactly by the difference of their add-on amounts, shipping and discounts, and in each line exactly by its add-ons |
| `QuoteCheck.AddonsPassAtAnyPrice` | src/openstore/sidecar/gate/decide.py:443-457 | The catalogue comparison looks at parents alone: an add-on attested at 5 passes at any amount |
| `Canonical.QuotableExactly` | demo/merchant-site/src/lib/pricing.ts:163-185 | A cart of distinct lines is quoted exactly when every SKU is known and every add-on has its parent there |
| `Canonical.QuoteIsCanonical` | demo/merchant-site/src/lib/pricing.ts:161-247 | Any permutation of a distinct cart is quoted alike and identically |
| `Canonical.NormalFormIsComplete` | src/openstore/sidecar/core/canonical.py:54-69 | Two Quotes have one normal form exactly when each list is a reordering of the other's |
| `Canonical.QuoteHashBinds` | src/openstore/sidecar/core/canonical.py:39-69 | Reordered Quotes hash alike; Quotes that hash alike are reorderings or a collision |
| `Canonical.TaxOrderShows` | src/openstore/sidecar/core/canonical.py:65-68 | The order of tax lines is hidden if and only if kind and label tell them apart |
| `Canonical.OrderShows` | src/openstore/sidecar/core/canonical.py:39-69 | No reordering of a Quote shows in what is hashed if and only if, in each of the four lists, the sort keys tell the entries apart |
| `Canonical.LabelsCanTie` | demo/merchant-site/src/lib/pricing.ts:115-119 | Rates of 1.20 and 1.25 per cent print as one label; any Quote carrying two such lines hashes otherwise with the two swapped, or a collision is shown |
| `Canonical.CartHashBinds` | src/openstore/sidecar/core/canonical.py:87-123 | Two carts hash alike exactly when they are the same agreement, or a collision of one of the two hashes is shown |
| `Ordering.OrderIndependence` | src/openstore/sidecar/core/canonical.py:46-53 | A sort hides the order of its input if and only if keys identify the entries |
| `Transcript.Log.Record` | src/openstore/sidecar/gate/transcript.py:122-133 | A record is appended and the first failure alone becomes the reason |
| `Transcript.TheFirstFailureIsTheReason` | src/openstore/sidecar/gate/transcript.py:122-133 | Over any run of records all are kept in order and the reason is the first failure's that gives one |
| `Transcript.Log.ResolveDeferred` | src/openstore/sidecar/gate/transcript.py:143-156 | Exactly the first deferred record of the check changes, or the call is refused |
| `Transcript.Log.ResolveAll` | src/openstore/sidecar/gate/settle.py:92-99 | Settling turns every deferred record into a pass and touches nothing else |
| `Transcript.FirstWaiting` | src/openstore/sidecar/gate/transcript.py:143-156 | Looking a waiting record up by its check finds that record and no later one |
| `Gate.Decide` | src/openstore/sidecar/gate/decide.py:164-208 | Permitted if and only if the request meets every condition, each stated from the policy and the request: authority, currency, domain, window, group counts and quantities, blocked tags, cap, a Quote that adds up, fresh bytes, method; a refusal carries the check and the reason of the first condition that fails; a dry run permits nothing |
| `Gate.AcceptableExactly` | src/openstore/sidecar/gate/decide.py:219-275 | There is no fault in the order of the checks if and only if every condition holds, a cart-signing Authority being bound to this very cart among them |
| `Gate.StopsAtTheFirstFault` | src/openstore/sidecar/gate/decide.py:164-196 | Where the Gate stops is the first fault in the order the source lists its checks |
| `Gate.AddUp` | src/openstore/sidecar/gate/decide.py:319-330 | One pass over the lines leaves each group's summed quantity, and no other group |
| `Gate.CheckQty` | src/openstore/sidecar/gate/decide.py:319-334 | The running totals decide exactly whether every group is within its cap |
| `Gate.PermittedHasShape` | src/openstore/sidecar/gate/decide.py:190-208 | All twelve records in order, the first deferred exactly for upi-pin, the rest passed; cap and method hold |
| `Gate.RefusedHasShape` | src/openstore/sidecar/gate/decide.py:190-196 | A refusal is a prefix of the order whose only failure is its last record |
| `Gate.OwnQuoteIsConsistent` | src/openstore/sidecar/gate/decide.py:364-457 | The tenth check never refuses the storefront's own Quote with a discount in range |
| `Settlement.Settle` | src/openstore/sidecar/gate/settle.py:63-111 | Failed and released on a record that does not reconcile, raised or captured otherwise, with every deferred check resolved first |
| `Settlement.Collect` | src/openstore/sidecar/gate/settle.py:114-142 | One capture without a hold, for cash alone, with no check run again |
| `Settlement.ReleaseIfHeld` | src/openstore/sidecar/gate/settle.py:155-170 | Exactly what the order holds is released, if anything |
| `Settlement.NoDeferredCapture` | src/openstore/sidecar/gate/settle.py:92-110 | No capture with a check still deferred or a Binding missing; without a capture only a release can be added |
| `Settlement.SettlesExactly` | src/openstore/sidecar/gate/settle.py:63-111 | A permitted decision settles if and only if the record reconciles and the order holds a positive amount covering it |
| `Settlement.WhatSettlingLeaves` | src/openstore/sidecar/gate/settle.py:63-111 | A permitted decision that settles keeps its records with the deferred ones passed, carries the Binding of the kind that authorised it, and adds one capture of the total; one that does not reconcile keeps its Transcript and lets go of what is held |
| `Settlement.CollectsExactly` | src/openstore/sidecar/gate/settle.py:114-142 | Cash is collected if and only if the order was confirmed for cash and no smaller hold is open; it adds one capture of the total |
| `Ledger.ApplyKeepsSound` | src/openstore/sidecar/ledger/entries.py:201-380 | Every write keeps keys unique, amounts non-negative, no order closing more than it held or refunding more than it captured, and other orders untouched |
| `Ledger.EveryRunIsSound` | src/openstore/sidecar/ledger/entries.py:382-405 | The invariants the Ledger asserts hold after any run of writes from empty |
| `Ledger.RetryIsFree` | src/openstore/sidecar/ledger/entries.py:201-260 | A write whose key is there adds nothing |
| `Ledger.TakenExactly` | src/openstore/sidecar/ledger/entries.py:262-380 | Which of the five writes are taken, by the order's sums: a refund up to all that is left of the captures, a release up to all that is open |
| `Ledger.WhatAWriteLeaves` | src/openstore/sidecar/ledger/entries.py:201-380 | A taken write is one row of exactly that amount, and the order's sums move by it |
| `Ledger.FullRefund` | src/openstore/sidecar/ledger/entries.py:337-358 | All that is left can be refunded at once, and then nothing more |
| `Ledger.OrdersAreSeparate` | src/openstore/sidecar/ledger/entries.py:153-176 | A write acts on an order as if no other order existed |
| `Ledger.Table.Position` | src/openstore/sidecar/ledger/entries.py:153-176 | The four sums of one order, from its rows alone |
| `Ledger.Table.Append` | src/openstore/sidecar/ledger/entries.py:201-260 | The table after an insert that its unique key may refuse |
| `Ledger.Table.Reserve` | src/openstore/sidecar/ledger/entries.py:262-275 | Refused when the order already holds, else one RESERVE |
| `Ledger.Table.Capture` | src/openstore/sidecar/ledger/entries.py:277-311 | Refused without an open hold unless allowed, or above it, else one CAPTURE that closes what is open |
| `Ledger.Table.Release` | src/openstore/sidecar/ledger/entries.py:313-335 | Refused without an open hold or above it, else one RELEASE |
| `Ledger.Table.Refund` | src/openstore/sidecar/ledger/entries.py:337-358 | Refused above what is left of the captures |
| `Ledger.Table.Reversal` | src/openstore/sidecar/ledger/entries.py:360-380 | Refused unless positive |
| `Money.Sidecar.TapApproved` | src/openstore/sidecar/checkout.py:434-543 | The durable writes of a tap, in order, stopping at the first refusal or when the process dies |
| `Money.Sidecar.Callback` | src/openstore/sidecar/provider/routes.py:134-152 | A callback for an order that is over changes nothing; any other is completed |
| `Money.Sidecar.Complete` | src/openstore/sidecar/checkout.py:546-600 | The writes of completing a payment, with no guard on the status: settle, then sold and paid on both sides, or failed on both |
| `Money.Sidecar.CancelOrder` | src/openstore/sidecar/checkout.py:651-703 | Stock, money, status, link, row, in that order; only a paid order is refused |
| `Money.Sidecar.CollectCash` | src/openstore/sidecar/checkout.py:706-723 | Capture, then the shop, then the row, with no guard on the status |
| `Money.Sidecar.ExpireOrder` | src/openstore/sidecar/sweeper.py:174-223 | The sweeper's closing writes, in cancel's order |
| `MoneySafety.LedgerShapeOverEveryRun` | src/openstore/sidecar/checkout.py:434-723 | Over every run, with crashes anywhere and the shop doing anything: a prepaid Ledger is empty, RESERVE, RESERVE and CAPTURE or RESERVE and RELEASE, a cash one empty or one CAPTURE, each for the total fixed at the start |
| `MoneySafety.SettleEffect` | src/openstore/sidecar/gate/settle.py:63-111 | What settling does to each of those Ledgers, exactly |
| `MoneySafety.OneTapGetsPast` | src/openstore/sidecar/checkout.py:443-452 | Over every run at most one tap gets past an order's token |
| `MoneyRuns.EveryRunStaysInStep` | src/openstore/sidecar/checkout.py:434-723 | In runs not cut short the row says what the shop says, a prepaid order holds money exactly while confirmed and is captured exactly when paid, cash is never held, and what left the shelf is what is held or sold |
| `MoneyRuns.FailureSequence` | src/openstore/sidecar/gate/settle.py:76-90 | A failed settlement releases the money and leaves the stock hold alone |
| `MoneyRuns.NothingToCapture` | src/openstore/sidecar/ledger/entries.py:284-300 | A prepaid order of nothing can never be settled: the callback changes nothing |
| `MoneyRuns.TapSequence` | src/openstore/sidecar/checkout.py:434-543 | A whole tap ends spent and refused by stock, or confirmed and held on every side |
| `MoneyCrash.BudgetIsPrefix` | src/openstore/sidecar/checkout.py:672-703 | Dying after so many writes leaves exactly that prefix of the plan |
| `MoneyCrash.ClosingIsCrashSafe` | src/openstore/sidecar/checkout.py:672-703 | For an order that was in step with its shop, pending or confirmed, when the first attempt came: after any cancels and sweeps cut anywhere a shop that says cancelled or expired has stock and money let go, stock came back once, money at most once and exactly, and one full cancel finishes |
| `MoneyCrash.SweepCloses` | src/openstore/sidecar/sweeper.py:174-223 | The same for a sweep cut anywhere, from any order those attempts can leave; it never raises there |
| `MoneyLives.EveryLifeIsLived` | src/openstore/sidecar/checkout.py:434-723 | Over every life, its operations dying anywhere and staff moving the status: what a door answered is still true of the hold, and what left the shelf is what this order holds or has sold, taken once and given back once |
| `MoneyLives.CloseExactly` | src/openstore/sidecar/checkout.py:672-703 | A cancel or expiry dying anywhere: from a confirmed row the shop's status does not move before stock and money are given back; from any other row they are never touched |
| `MoneyLives.ClosesExactly` | src/openstore/sidecar/checkout.py:651-703 | Over every life: a cancel or expiry that runs to its end leaves stock and money closed if and only if the row was confirmed, or nothing was held, when it came |
| `MoneyLives.DeadTapKeepsItsHold` | src/openstore/sidecar/checkout.py:500-543 | A tap that died between door 3 and its last write leaves a pending row; a full cancel or expiry then ends the order on both sides with the stock, and the money if it got that far, still held |
| `MoneyLives.OverIsOver` | src/openstore/sidecar/checkout.py:651-703 | And no later cancel or sweep, however often and wherever cut, gives that stock back |
| `MoneyEnds.CancelEnds` | src/openstore/sidecar/checkout.py:651-703 | Over every life: a cancel of an order that is not paid cancels the link its row names and leaves the row Cancelled with its token off it, unless the shop has sold the stock of a confirmed row, and then row and link stay |
| `MoneyEnds.CancelCut` | src/openstore/sidecar/checkout.py:672-703 | A cancel dying at any write, of any order: the row is not closed before its link is cancelled, nor the link before the shop was told, nor money let go before stock was asked back |
| `MoneyEnds.SweepCut` | src/openstore/sidecar/sweeper.py:174-246 | A sweep dying at any write: a row newly expired has no token and no link on it, and the link it named is cancelled |
| `MoneyEnds.TapCut` | src/openstore/sidecar/checkout.py:434-543 | From any of the Ledger's shapes, a tap dying at any write: the token first, then stock, the shop's status, the money when prepaid, and the row last, with everything the tap decided |
| `MoneyEnds.DeliverCut` | src/openstore/sidecar/provider/routes.py:134-152 | From any of the Ledger's shapes, a callback dying at any write: nothing for an order that is over; capture, stock, shop and row in that order, or money let go, row, shop |
| `MoneyEnds.CollectCut` | src/openstore/sidecar/checkout.py:706-723 | From any of the Ledger's shapes, cash dying at any write: the capture first and for cash alone, then the shop, then the row |
| `Sweeper.Store.SweepOnce` | src/openstore/sidecar/sweeper.py:94-140 | The loop is the pass the lemmas speak of |
| `Sweeper.Store.Turn` | src/openstore/sidecar/sweeper.py:107-140 | One order: check, resync, check again, expire, resync on failure |
| `Sweeper.TurnRaisesExactly` | src/openstore/sidecar/sweeper.py:83-91 | A turn raises if and only if a confirmed row, as stored or as corrected, has no time of confirmation |
| `Sweeper.PassRaisesExactly` | src/openstore/sidecar/sweeper.py:94-140 | The pass raises if and only if some order's turn does, and otherwise gives every order its own turn |
| `Sweeper.StaleCopyIsCorrected` | src/openstore/sidecar/sweeper.py:226-246 | A copy the shop has moved past is corrected and nothing else happens |
| `Sweeper.OnePassSettlesAll` | src/openstore/sidecar/gate/lifecycle.py:60-148 | For rows in step with their shops: one pass leaves no prepaid order live past its deadline, closes its holds and cancels its link, leaves the rest and all confirmed cash orders alone, and a second pass changes nothing |
| `MoneyLives.TurnExactly` | src/openstore/sidecar/sweeper.py:107-140 | A turn over any row a crash can leave, when it does not raise: stock and money move only where the row is due as stored and as corrected, and are then closed if and only if the shop said confirmed or nothing was held; the row stays overdue only where the stock is sold |
| `MoneyLives.PassExactly` | src/openstore/sidecar/sweeper.py:94-140 | The same for every order of a whole pass that does not raise |
| `Sweeper.CrashedTapStopsThePass` | src/openstore/sidecar/sweeper.py:124-127 | A tap that died between the shop and the row makes a later pass raise and stop |
| `Stock.WantedIsTheSum` | integrations/woocommerce/openstore-sidecar/includes/class-openstore-stock.php:75-87 | Lines of one SKU are one want of the sum, in key order |
| `Stock.TakeAllExactly` | integrations/woocommerce/openstore-sidecar/includes/class-openstore-stock.php:91-94 | A basket is taken if and only if every product covers its own want |
| `Stock.TakeAllLeaves` | integrations/woocommerce/openstore-sidecar/includes/class-openstore-stock.php:113-130 | A basket taken takes exactly its lines of each product |
| `Stock.Adapter.ReserveDoor` | integrations/woocommerce/openstore-sidecar/includes/class-openstore-stock.php:69-105 | Door 3 in one transaction: unknown SKU, short product and refused code each leave everything as it was |
| `Stock.Adapter.Take` | integrations/woocommerce/openstore-sidecar/includes/class-openstore-stock.php:113-158 | The conditional UPDATE and its row, or the count that is there |
| `Stock.Adapter.TakeWanted` | integrations/woocommerce/openstore-sidecar/includes/class-openstore-stock.php:91-104 | Every want taken with its row, or the refusal of the first that falls short |
| `Stock.Adapter.CommitDoor` | integrations/woocommerce/openstore-sidecar/includes/class-openstore-stock.php:168-200 | Held rows become committed; again is fine; otherwise no hold |
| `Stock.Adapter.ReleaseDoor` | integrations/woocommerce/openstore-sidecar/includes/class-openstore-stock.php:209-262 | Held units go back, rows close, coupon uses return; again is fine; otherwise no hold |
| `Stock.Adapter.RestockDoor` | integrations/woocommerce/openstore-sidecar/includes/class-openstore-stock.php:274-310 | Every line back or none |
| `StockAnswers.ReserveAnswersExactly` | integrations/woocommerce/openstore-sidecar/includes/class-openstore-stock.php:69-158 | Door 3 accepts if and only if every SKU is known, every product covers all that is wanted of it and the code has a use left; a basket that can be taken is refused for its code exactly when the code is unknown or used to its limit; a refusal names the first unknown SKU, or the first short product with its count, and leaves the shop as it was |
| `StockAnswers.ReserveLeaves` | integrations/woocommerce/openstore-sidecar/includes/class-openstore-stock.php:91-158 | An accepted reservation takes exactly what the lines want, one use of its code and of no other, and adds held rows of this order alone |
| `StockAnswers.LimitHoldsOverEveryRun` | integrations/woocommerce/openstore-sidecar/includes/class-openstore-stock.php:351-378 | Over every run a coupon with a limit is never used beyond it, or beyond its first count if that was higher |
| `StockAnswers.ClosingAnswersExactly` | integrations/woocommerce/openstore-sidecar/includes/class-openstore-stock.php:168-262 | Doors 4 and 5 accept exactly orders with rows to close or closed the same way before, and close those rows and no other |
| `StockAnswers.RestockAnswersExactly` | integrations/woocommerce/openstore-sidecar/includes/class-openstore-stock.php:274-310 | Door 6 adds every line to its product, or nothing when a SKU is unknown |
| `StockRuns.ServeConserves` | integrations/woocommerce/openstore-sidecar/includes/class-openstore-stock.php:69-310 | Every door, answered or refused, keeps each product's units and no count goes below zero |
| `StockRuns.EveryRunConserves` | integrations/woocommerce/openstore-sidecar/includes/class-openstore-stock.php:69-310 | Over any run available plus held plus committed is what there was plus what was restocked |
| `StockRuns.HoldMoves` | integrations/woocommerce/openstore-sidecar/includes/class-openstore-stock.php:168-262 | Which doors move which order's hold, and exactly when doors 4 and 5 accept |
| `StockRuns.CouponUsageOverEveryRun` | integrations/woocommerce/openstore-sidecar/includes/class-openstore-stock.php:348-396 | When every order is reserved at most once coupon usage is the first count plus one per held or committed row |
| `StockRuns.ReleaseKeepsCountExactly` | integrations/woocommerce/openstore-sidecar/includes/class-openstore-stock.php:380-396 | One release keeps a code's count if and only if every row the order has for it is still held, or the clamp at zero hides it |
| `StockRuns.CountOverEveryRun` | integrations/woocommerce/openstore-sidecar/includes/class-openstore-stock.php:348-396 | Over every run, orders reserved as often as they like, the count is right throughout if and only if every release met that condition when it came |
| `StockRuns.AHoldEndsOnce` | integrations/woocommerce/openstore-sidecar/includes/class-openstore-stock.php:168-262 | After a commit no release ever takes effect, nor a commit after a release |
| `StockRuns.SecondReserveReturnsTooMuch` | integrations/woocommerce/openstore-sidecar/includes/class-openstore-stock.php:380-396 | A run that meets the failing side: an order reserved and released twice gives back a use it never took |
| `StockRuns.MoneyDoorsAreThese` | integrations/woocommerce/openstore-sidecar/includes/class-openstore-stock.php:168-262 | The money path's stock doors answer and move as these do |
| `ReserveInterleaving.StepKeepsSound` | integrations/woocommerce/openstore-sidecar/includes/class-openstore-stock.php:91-104 | Under any interleaving no count is below zero and no two open transactions hold one row |
| `ReserveInterleaving.StepIsInvisible` | integrations/woocommerce/openstore-sidecar/includes/class-openstore-stock.php:91-104 | A take, a refusal and a rollback change nothing a reader outside sees |
| `ReserveInterleaving.CommitIsAtomic` | integrations/woocommerce/openstore-sidecar/includes/class-openstore-stock.php:91-104 | A commit is the whole basket taken at once |
| `ReserveInterleaving.RefusalIsAtomic` | integrations/woocommerce/openstore-sidecar/includes/class-openstore-stock.php:113-145 | A refusal, its count read together with the failed UPDATE, is what the whole basket, taken at once then, would be refused with |
| `ReserveInterleaving.EveryRunIsSerial` | integrations/woocommerce/openstore-sidecar/includes/class-openstore-stock.php:69-105 | Every interleaving is the granted baskets taken whole in commit order |
| `ReserveInterleaving.EveryBasketWholeOrNothing` | integrations/woocommerce/openstore-sidecar/includes/class-openstore-stock.php:69-158 | Granted quantity never exceeds the first stock, and a refused basket leaves nothing taken |
| `ReserveInterleaving.NoCircularWait` | integrations/woocommerce/openstore-sidecar/includes/class-openstore-stock.php:85-88 | No transactions wait for each other in a circle |
| `ReserveInterleaving.SomebodyCanStep` | integrations/woocommerce/openstore-sidecar/includes/class-openstore-stock.php:85-104 | While a basket is unanswered some transaction can go on without giving up |
| `ReserveInterleaving.RunsAreBounded` | integrations/woocommerce/openstore-sidecar/includes/class-openstore-stock.php:91-104 | No run is longer than the work its baskets hold |
| `ReserveInterleaving.OpeningIsSound` | integrations/woocommerce/openstore-sidecar/includes/class-openstore-stock.php:75-87 | Baskets as they arrive meet what the other lemmas ask |
| `DoorReplay.Controller.HandleRequest` | integrations/woocommerce/openstore-sidecar/includes/class-openstore-rest.php:54-108 | Refuse, replay, or run and remember, in that order; a thrown handler is not remembered |
| `DoorReplay.TheRefusedAreInert` | integrations/woocommerce/openstore-sidecar/includes/class-openstore-rest.php:54-82 | A request for no door, without a genuine signature, or without the key a changing door needs is told so and leaves store and table as they were, so a run without it is the same run |
| `DoorReplay.TheHeardAreServed` | integrations/woocommerce/openstore-sidecar/includes/class-openstore-rest.php:74-108 | Any other request runs its door exactly when nothing is stored for it, or the door only reads; what a changing door answers is stored |
| `DoorReplay.RetriesAreTransparent` | integrations/woocommerce/openstore-sidecar/includes/class-openstore-rest.php:74-108 | Taking every retry out of a run leaves store, table and all other answers as they were |
| `DoorReplay.ARetryGetsTheFirstAnswer` | integrations/woocommerce/openstore-sidecar/includes/class-openstore-idempotency.php:70-107 | Every retry got the answer the first request with its door and key got, a refusal included |
| `DoorReplay.TheFirstWriterWins` | integrations/woocommerce/openstore-sidecar/includes/class-openstore-idempotency.php:95-107 | Under any overlap a stored answer never changes |
| `DoorReplay.AloneIsHandle` | integrations/woocommerce/openstore-sidecar/includes/class-openstore-rest.php:54-108 | An overlapping call nobody interrupts is the whole request: same store, same table, same answer |
| `DoorReplay.RunsExactly` | integrations/woocommerce/openstore-sidecar/includes/class-openstore-rest.php:80-103 | Over every interleaving of any number of calls, an answered call runs its door if and only if it looked before any answer was remembered under its key |
| `DoorReplay.BothRunExactly` | integrations/woocommerce/openstore-sidecar/includes/class-openstore-rest.php:80-103 | So two answered calls of one key both run the door if and only if both looked before the first answer under it was remembered |
| `DoorReplay.OverlappingRetriesRunTwice` | integrations/woocommerce/openstore-sidecar/includes/class-openstore-rest.php:80-103 | Such a schedule exists: two copies take two units for one |
| `DoorReplay.ComposeScopes` | integrations/woocommerce/openstore-sidecar/includes/class-openstore-idempotency.php:126-128 | An uncut composed key names one door and one key |
| `RateLimiter.Limiter.Check` | src/openstore/sidecar/admission/ratelimit.py:50-74 | One call: stale hits popped, refused at the limit or recorded, other keys untouched |
| `RateLimiter.AdmittedExactly` | src/openstore/sidecar/admission/ratelimit.py:50-74 | Over every run of calls of any keys with a clock that never goes back, a call is admitted if and only if fewer than its limit of its key's admitted calls are no older than the window |
| `RateLimiter.DequeIsTheWindow` | src/openstore/sidecar/admission/ratelimit.py:60-74 | After every call the deque is exactly the admitted hits of the last window |
| `RateLimiter.NoIntervalExceeds` | src/openstore/sidecar/admission/ratelimit.py:29-48 | No closed interval of the window's length holds more admitted calls than the largest limit that applied |
| `RateLimiter.RefusalsLeaveNoTrace` | src/openstore/sidecar/admission/ratelimit.py:63-73 | A refused call changes no later verdict and no history |
| `ReplayGuards.HmacGuard.Verify` | demo/merchant-site/src/lib/hmac.ts:33-69 | Refused before the nonce changes nothing; else the prune, then replay or remembered |
| `ReplayGuards.SignatureGuard.Verify` | src/openstore/sidecar/admission/signatures.py:118-194 | The checks in order, then the nonce cache |
| `ReplayGuards.SignatureGuard.CheckAndRemember` | src/openstore/sidecar/admission/signatures.py:98-108 | An empty nonce is refused, a remembered one is a replay, any other is remembered at now |
| `ReplayGuards.HmacAcceptsExactly` | demo/merchant-site/src/lib/hmac.ts:33-69 | Over every run a request is accepted if and only if it is within a minute of now, its signature is the MAC of its own text, and whatever was accepted with its nonce before was signed over a minute ago |
| `ReplayGuards.SignedAcceptsExactly` | src/openstore/sidecar/admission/signatures.py:98-194 | Over every run a signed request is accepted if and only if every check holds and whatever was accepted with its nonce before was accepted over a minute ago |
| `ReplayGuards.RemembersOnlyTheWindow` | demo/merchant-site/src/lib/hmac.ts:65-68 | After a prune nothing older than the window is remembered |
| `ReplayGuards.GuardRefinesHistory` | demo/merchant-site/src/lib/hmac.ts:65-68 | Over every run with a clock that never goes back, a sound request is accepted exactly when every earlier acceptance of its nonce has left the window |
| `ReplayGuards.HmacNeverAcceptsTwice` | demo/merchant-site/src/lib/hmac.ts:48-69 | The same nonce over the same timestamp is never accepted twice |
| `ReplayGuards.OneSignatureOneRequest` | demo/merchant-site/src/lib/hmac.ts:18-24 | A signature good for two requests without line feeds in path and nonce is good for one, or the MAC has one value for two different texts |
| `ReplayGuards.SecondReadingExactly` | demo/merchant-site/src/lib/hmac.ts:18-24 | For a path without a line feed, the signed text has a second reading if and only if the nonce or the body holds one |
| `ReplayGuards.SecondReadingsAreUndeliverable` | demo/merchant-site/src/lib/hmac.ts:18-24 | And of two readings of one text at least one has a nonce with a line feed, which no header carries |
| `ReplayGuards.SignedTwiceOnlyFromTheFuture` | src/openstore/sidecar/admission/signatures.py:145-153 | Over every run a request accepted twice outlived the memory of its nonce and was created after its first acceptance |
| `ReplayGuards.ReplayableExactly` | src/openstore/sidecar/admission/signatures.py:98-153 | An accepted request can be accepted again if and only if it expires more than sixty seconds after |
| `ReplayGuards.AcceptedAtZeroAndSixtyOne` | src/openstore/sidecar/admission/signatures.py:145-153 | Such a request exists |
| `Tokens.TokenStore.SpendToken` | src/openstore/sidecar/authority/tokens.py:163-210 | Read, check in order, then the conditional UPDATE |
| `Tokens.SpendsExactly` | src/openstore/sidecar/authority/tokens.py:163-210 | A spend succeeds if and only if the token is there, unspent, in time, bound to what is presented and on the page it was shown on; it spends that token alone; a refusal says what failed first and moves nothing |
| `Tokens.TokenStore.MarkSpent` | src/openstore/sidecar/authority/tokens.py:196-204 | One row hit exactly when the token was there unspent |
| `Tokens.TokenStore.Issue` | src/openstore/sidecar/authority/tokens.py:120-152 | A fresh token starts unspent with its term |
| `Tokens.SingleUse` | src/openstore/sidecar/authority/tokens.py:163-271 | Under any interleaving a token is spent exactly when one attempt spent it, never by two, and only for what it is bound to, unexpired at its read |
| `Tokens.TheTapIsThisSpend` | src/openstore/sidecar/checkout.py:443-452 | The money path spends this token |
| `Invoice.Books.AssignInvoiceNumber` | demo/merchant-site/src/lib/invoice.ts:43-89 | An uninterrupted call: the number there, an error, or the next of its year |
| `Invoice.AssignsExactly` | demo/merchant-site/src/lib/invoice.ts:43-89 | An order's own number whatever its status; the year's next for one confirmed, paid, refunded or completed; any other order is refused and draws nothing |
| `Invoice.NumberReads` | demo/merchant-site/src/lib/invoice.ts:74-74 | Prefix, first year and the last two digits of the second, and the count in at least four digits |
| `Invoice.AprilToMarch` | demo/merchant-site/src/lib/invoice.ts:18-26 | April to December are of their own year, January to March of the one before |
| `Invoice.NumbersDiffer` | demo/merchant-site/src/lib/invoice.ts:74-74 | Numbers written alike are of one year, one count and one prefix |
| `Invoice.YearsDiffer` | demo/merchant-site/src/lib/invoice.ts:18-26 | A financial year's text names one year |
| `Invoice.EveryRunIsSound` | demo/merchant-site/src/lib/invoice.ts:43-89 | Under any interleaving each draw is one call's, every number below the next was drawn, and what a call answered is on its order |
| `Invoice.OneOrderOneNumber` | demo/merchant-site/src/lib/invoice.ts:53-57 | All finished calls for one order answered one number |
| `Invoice.ANumberStays` | demo/merchant-site/src/lib/invoice.ts:76-80 | A number once set never changes |
| `Invoice.NoTwoOrdersShare` | demo/merchant-site/src/lib/invoice.ts:36-42 | No two orders share a number |
| `Invoice.DrawsIfItLookedFree` | demo/merchant-site/src/lib/invoice.ts:53-70 | A call goes on to draw a number exactly when its read found the order dispatchable and without one |
| `Invoice.GaplessIfNoTwoFoundItFree` | demo/merchant-site/src/lib/invoice.ts:43-89 | With every call answered, every year's numbers that stand on orders have no gap if and only if no two calls for one order both read it without a number |
| `Invoice.GaplessWhenApart` | demo/merchant-site/src/lib/invoice.ts:43-89 | When calls for one order do not overlap, the numbers standing are exactly 1 to n |
| `Invoice.OverlapLeavesAGap` | demo/merchant-site/src/lib/invoice.ts:68-89 | Two overlapping calls for one order burn a number |
| `Bundle.Builder.Add` | src/openstore/sidecar/evidence/bundle.py:129-135 | A section is chained only at its place in the order, and earlier ones stay |
| `Bundle.Builder.Seal` | src/openstore/sidecar/evidence/bundle.py:216-228 | Sealed exactly with five sections, all recomputing; otherwise what is missing |
| `Bundle.MaterialSplits` | src/openstore/sidecar/evidence/bundle.py:52-61 | What a link covers has one reading |
| `Bundle.EqualHeadsOrACollision` | src/openstore/sidecar/evidence/bundle.py:52-61 | Two recomputing chains of any length with one head are the same sections, or two texts with one hash are returned |
| `Bundle.AppendsOnlyAdd` | src/openstore/sidecar/evidence/bundle.py:231-256 | Any number of appended events keeps the chain recomputing and the first four sections fixed, and all are there in order |
| `Bundle.HistoriesShow` | src/openstore/sidecar/evidence/bundle.py:231-256 | Two histories of one receipt with one head are the same history, or a collision is returned |
| `TranscriptStore.ReadingWhatWasWritten` | src/openstore/sidecar/gate/transcript.py:158-246 | Reading the document back gives the Transcript less what writing forgets |
| `TranscriptStore.DocumentsAreStable` | src/openstore/sidecar/gate/transcript.py:205-215 | The document is the same however often it is read and written |
| `TranscriptStore.RoundTripExactly` | src/openstore/sidecar/gate/transcript.py:158-246 | Nothing is forgotten if and only if no authority detail stands without a kind and no ceremony is empty |
| `TranscriptStore.DocumentsTellApart` | src/openstore/sidecar/gate/transcript.py:184-186 | Equal documents are of Transcripts that differ in forgotten things alone |
| `TranscriptStore.CheckoutStore.Save` | src/openstore/sidecar/checkout_store.py:199-220 | Insert or update; without a decision the stored one stays |
| `TranscriptStore.TheRowIsTheLastSave` | src/openstore/sidecar/checkout_store.py:199-220 | Over any run of saves there is a row for exactly the orders saved, holding the checkout saved last |
| `TranscriptStore.CheckoutStore.DecisionFor` | src/openstore/sidecar/checkout_store.py:244-253 | The stored document read back, or none |
| `TranscriptStore.TheDecisionSurvives` | src/openstore/sidecar/checkout_store.py:90-111 | Over any run of saves the row holds the last decision given, and reading it back loses nothing its document said |

## Left out

Stated weaker than could be wished:

- QuoteCheck.BuiltQuotePasses: leaves discounts above the subtotal on prices that include tax to `QuoteCheck.BuiltVerdict`, which is exact in the tax of the built lines; in the cart's own terms only one half is stated, that no negative line amount means it passes (`QuoteCheck.DeepDiscountCanPass`).
- QuoteCheck.TotalsDifferBy: compares Quotes line by line in one order, as the Gate does.
- Gate.Decide: the prose of a refusal is not modelled, only its code.
- Settlement.SettlesExactly: is about decisions the Gate permitted; any other decision is covered by `Settlement.Settle` against its specification.
- Money.Sidecar.TapApproved: the Gate's ruling is a parameter, held to what `Gate.Decide` proves of a permitted one; a passkey carried to another basket is a ruling that refuses. Publishing events and sealing the receipt are not modelled.
- Money.Sidecar.Complete: the payer's handle, and finding the row by its link, are not modelled.
- MoneyRuns.EveryRunStaysInStep: is about operations that finish and a shop that acts only when asked; operations that die, and a shop whose staff move statuses, are the subject of `MoneyLives.EveryLifeIsLived` and `MoneySafety.LedgerShapeOverEveryRun`.
- MoneyCrash.ClosingIsCrashSafe: starts from orders in step with their shop, pending or confirmed; rows a crashed tap left are outside it, and there closing is not safe (`MoneyLives.DeadTapKeepsItsHold`, `MoneyLives.ClosesExactly`).
- MoneyLives.EveryLifeIsLived: staff may set any status at the shop, except that they do not confirm an order that holds no stock, and they do not rewrite holds or the doors' remembered answers.
- Sweeper.OnePassSettlesAll: is about rows in step with their shops; other rows are the subject of `MoneyLives.PassExactly`.
- Sweeper.Store.SweepOnce: the shop always answers the resync; an unreachable shop leaves its order alone, which the code logs and skips.
- StockRuns.CouponUsageOverEveryRun: asks that every order be reserved at most once; `StockRuns.CountOverEveryRun` is exact without that.
- StockRuns.AHoldEndsOnce: asks that every order be reserved at most once, since a second reserve under a second key mixes rows of two states.
- ReserveInterleaving.EveryRunIsSerial: coupons are taken at the end of door 3 and are not part of the concurrent model; a refused code is a basket that gives up.
- ReserveInterleaving.RefusalIsAtomic: the count a refusal names is read in the same step as the failed UPDATE; the snapshot an isolation level would give that SELECT is not modelled.
- DoorReplay.RetriesAreTransparent: requests are handled one at a time; overlapping ones are the subject of `DoorReplay.RunsExactly`, which treats each door run and each table statement as one step.
- RateLimiter.NoIntervalExceeds: asks for a clock that never goes back, as `time.monotonic` is; a caller that passes its own `now` can break it.
- RateLimiter.AdmittedExactly: starts from a limiter without hits, and asks for a clock that never goes back across all keys.
- ReplayGuards.HmacAcceptsExactly: like `ReplayGuards.SignedAcceptsExactly` it starts from an empty memory, with a clock that never goes back.
- Tokens.SingleUse: a row holds one binding, a cart hash or a session, because the two tables work alike; which reason code each refusal carries is not modelled.
- Invoice.GaplessWhenApart: starts from an empty sequence table and orders without numbers, as does `Invoice.GaplessIfNoTwoFoundItFree`.
- TranscriptStore.ReadingWhatWasWritten: field names and vocabulary words are enumerations, each standing for its own text, and a value of the wrong type is refused where the code would carry it along.

Not modelled:

- Double rounding in `Math.floor(exact / total)`: the model divides integers, which is what the code computes while amount times weight stays below 2^53. The PHP version divides integers.
- The conversion of an instant to a calendar date in IST; `Invoice.StartYear` takes the year and month.
- SHA-256, HMAC, ECDSA and WebAuthn: hashes and MACs are parameters, their collisions explicit outcomes. Canonical JSON is an injective function.
- HTTP routes, sessions, WordPress and WooCommerce beyond the rows they hold; MySQL row locks are kept from the first conditional UPDATE that hits to COMMIT or ROLLBACK.
- Statement-level races inside doors 4 and 5, which are one step each; deleting old idempotency rows; the value of a status code on a refusal.
- Strings are compared character by character; locale and Unicode normalisation are not part of this model.
- Comparators that never answer "equal" (`a < b ? -1 : 1`) are taken as the stable sort they are on distinct keys.
- Refund requests, basket editing, return to origin, price conversion through floats, seeds, console, chat, passkey ceremonies, OAuth, linters and migrations: one-branch checks or plumbing that would add only easy members.
- `attestation_digest`, `signing_payload` and `format_rupees` in the receipt: values built from fields, with nothing that spans functions.
