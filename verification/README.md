# RazorGrowth commerce core in Dafny

The model follows a purchase from cart to quote to order to payment to payment notification,
and three smaller machines beside it: the policy engine, the rate limiter and the shopping
agent's loop.

**The shop** is one store of tables (`Tables`) and one step function (`Machine`). Cart
operations (`Carts`) are asked for first and carried out when the token of the answer comes
back. `Checkout` quotes a cart and turns it into an order, `Payments` asks the provider to
collect an order, and `Webhooks` settles payments. Catalogue, stock and clock change by steps
of their own at any moment, so prices and stock do move between two requests. A request is one
transaction: when it raises, the rows stay as they were. What no rollback undoes is kept apart
from the rows: orders made at the provider, tokens handed out, the clock, identifiers drawn.

`Session` is the code as it works: a class whose methods change the session's rows in place,
with the loops of the source, and whose routes commit or roll back. Every route is proved to
be one step of the machine as others see it. The theorems about runs are then lemmas about the
machine: `CartInvariant`, `DeskInvariant` and `LedgerInvariant` say what each operation keeps,
`Safety` puts them together for all reachable states, and `Guarantees`, `Money`, `TwoPhase`,
`Answers`, `Deliveries` and `Verdicts` draw the consequences. `Shelf`, `CartReplies`,
`DeskReplies` and `BankReplies` say of every request, on the rows alone, which answer it gets. `Race` splits the notification
handler into its read, check and write, and lets handlers interleave; `Overlap` says exactly when
that is safe. `Witness` holds concrete runs that reach what the code gets wrong. The agent's cart
tools work in the same `Session`, under savepoints, and one run of them is one sequence of steps.

**Money.** Prices are whole paise. Quote, order and payment amounts are ten-thousandths of a
rupee, so that the 18% tax on a two-place amount is exact; the ten-digit payment column and the
rounding to subunits are written out.

**What came out false, and its exact condition.**

- An order's subtotal need not be the sum of its items: the cart may change after it was quoted
  (`Witness.QuoteOvertakenByCart`); it is if and only if the quoted subtotal is what the cart
  shows at confirmation (`Money.SubtotalIsItemsIff`).
- Not every order can be paid: above 84,745,762 paise the payment row overflows after the
  provider was called, and the order stays CREATED for ever (`Witness.OversizedOrderIsReachable`);
  a CREATED order has a paying run if and only if it is not above (`Money.PayableIff`).
- A token shown for a variant also carries an add without variant
  (`Witness.VariantOfTokenNotCompared`); what is added is what was shown if and only if the add
  names a variant or the token names none (`TwoPhase.AddedVariantWasShownIff`).
- A clearing token given to somebody without a cart is dead from the start
  (`Witness.DeadClearToken`); `Answers.PromptAnswerCommitsIff` has the exact condition.
- The comment in the webhook route relies on the unique event identifier. That gives at most
  one effect per identifier, but two captures with different identifiers can both be recorded
  when they overlap (`Witness.TwoCapturesAreReachable`). A schedule settles each payment once if
  and only if no handler commits on a stale status (`Overlap.SerializableIff`), and every schedule
  does if and only if the unrecorded decisions on each open payment are at most one or share one
  identifier (`Overlap.EveryScheduleSettlesOnceIff`).
- The rate limiter's comments speak of a sliding or fixed window; the code is a fixed window,
  and a sliding interval of one window can admit twice the allowed number
  (`RateLimit.SlidingBoundIsMet`). An interval of whole windows keeps the plain limit if and only
  if it starts with a window (`RateLimit.KeepsLimitIff`).

**Readings fixed here.** Rows are named by their position in a table; cart and line identifiers
come from a counter that is never rolled back. The instant at which a token expires ("exp",
section 4.1.4 of RFC 7519) is a parameter of the machine, `deadAtExp`. A token counts as signed
when this server handed it out. The policy decision at checkout is an arbitrary parameter,
`allowed`. Amount arithmetic is taken to be exact decimal. Provider order identifiers never
repeat. The limiter's clock does not go back and is the clock that expires its counters.

## Model

| member | source | states |
|---|---|---|
| `Safety.StepInv` | apps/api/app/api/routes/webhooks.py:45-143 | Every step of the shop (cart calls, quotes, confirmations, payment requests, notifications, catalogue and stock changes, time) keeps the cart, order and ledger invariants together |
| `Safety.ReachableInv` | apps/api/app/services/checkout_service.py:127-177 | The invariants, which no database key enforces, hold in every state any sequence of requests can reach from the empty database |
| `Safety.RunLater` | apps/api/app/services/checkout_service.py:174-177 | Over any run nothing that matters is taken back: converted carts, confirmed quotes, order contents and amounts, confirmations and attempts stay, and statuses only move forward |
| `CartInvariant.OpenCartFindsTheOne` | apps/api/app/services/cart_service.py:47-74 | The lookup of the active cart never raises for two rows; it yields the one active cart of the caller, and a cart is opened only when there was none |
| `CartInvariant.MutateKeepsCartsOk` | apps/api/app/services/cart_service.py:233-258 | Each committed add, update, remove or clear keeps one active cart per owner, one line per product and variant and quantities of at least one, and changes no other cart |
| `Shelf.OfferIff` | apps/api/app/services/cart_service.py:131-173 | Said on the catalogue rows alone: the lookup succeeds exactly for the tenant's own active product and, if one is named, active variant of it, gives the variant's price or else the product's, and offers n pieces exactly when none are needed or a stock row has n beyond those reserved; otherwise it raises for the reason that holds |
| `Shelf.LineFindingsAre` | apps/api/app/services/cart_service.py:450-477 | Validating a line reports that it cannot be sold and why, or the old and the row's price if they differ and then the pieces to be had if they are too few |
| `CartInvariant.AddMeans` | apps/api/app/services/cart_service.py:227-258 | Adding raises the number of pieces wanted of that product and variant by the quantity and of nothing else, leaves their line at today's price within the stock, and loses no other line |
| `CartInvariant.UpdateMeans` | apps/api/app/services/cart_service.py:286-331 | Updating makes the pieces wanted of that line's key the new quantity, at today's price within the stock, and leaves every other line alone |
| `CartInvariant.RemoveMeans` | apps/api/app/services/cart_service.py:355-386 | Removing takes out the one line with that identifier and keeps the others in order |
| `CartInvariant.ClearMeans` | apps/api/app/services/cart_service.py:430-434 | A committed clear leaves the caller's cart with no line and wanting nothing |
| `CartInvariant.DemandIsTheLine` | apps/api/app/services/cart_service.py:233-245 | Because keys are distinct, the pieces a cart wants of a key are the quantity on that key's one line |
| `Guarantees.OneActiveCartPerOwner` | apps/api/app/services/cart_service.py:47-74 | In every reachable state an owner has at most one active cart and every cart has distinct keys and positive quantities |
| `Session.Session.GetOrCreateCart` | apps/api/app/services/cart_service.py:47-74 | Working on the session's rows, the lookup returns the row the specification names, opening a cart in place when there is none |
| `Session.Session.AddItem` | apps/api/app/services/cart_service.py:176-271 | The in-place add, with its merge into an existing line, raises, asks or commits exactly as the specification says, with exactly its rows |
| `Session.Session.UpdateItem` | apps/api/app/services/cart_service.py:274-344 | The in-place update answers and rewrites rows exactly as the specification says |
| `Session.Session.RemoveItem` | apps/api/app/services/cart_service.py:347-386 | The in-place removal answers and rewrites rows exactly as the specification says |
| `Session.Session.ClearCart` | apps/api/app/services/cart_service.py:398-434 | The loop that deletes lines one by one leaves the cart empty and every other row alone |
| `Session.Session.ValidateCart` | apps/api/app/services/cart_service.py:446-493 | The loop over the lines gathers the findings of all of them in order |
| `Guarantees.NoFindingsMeansAtOffer` | apps/api/app/services/cart_service.py:450-477 | A cart is valid if and only if every line is on offer, at the price it carries and within the stock |
| `Session.BuildCartResponse` | apps/api/app/api/routes/cart.py:28-58 | The cart page's running total is the sum of price times quantity, and its list has each line's own total |
| `CartReplies.FirstCallIff` | apps/api/app/services/cart_service.py:184-213 | A call without token is answered with a question exactly when what it asks for can be had (quantity, line in the own cart, rows for sale, stock), the question carries the rows' price and an expiry 900 seconds on, and otherwise it raises the one error whose condition holds; for add, update, remove and clear |
| `CartReplies.SecondCallIff` | apps/api/app/services/cart_service.py:99-128 | A call with a token commits exactly when what it asks for can be had, the token fits in every claim, the rows' price is the one in it and a joined line is covered; otherwise it raises the first error whose condition holds |
| `TwoPhase.PriceOfIsTheRows` | apps/api/app/services/cart_service.py:145-159 | The price that the two phases compare is the one in the variant's row or, without a variant, the product's |
| `CartReplies.VisitOpens` | apps/api/app/services/cart_service.py:47-74 | Looking at a cart opens one empty rupee cart for a caller who has none and changes nothing else |
| `TwoPhase.AskMeans` | apps/api/app/services/cart_service.py:195-213 | A token is handed out only to a call without one, and carries the caller, action, target, quantity, variant, the price then current and an expiry fifteen minutes on |
| `TwoPhase.DoneMeans` | apps/api/app/services/cart_service.py:215-229 | A commit needs a live token this server signed for the same caller, action, target and quantity, whose price is still the catalogue's |
| `TwoPhase.TokensWereIssued` | apps/api/app/services/cart_service.py:77-96 | Every signed token of a run has the step of that run that handed it out |
| `TwoPhase.CommitsWereAskedFor` | apps/api/app/services/cart_service.py:99-128 | Every commit in any run is backed by an earlier unexpired question by the same caller for the same thing, with the price shown then still current |
| `TwoPhase.StoredPriceWasShown` | apps/api/app/services/cart_service.py:226-256 | The price that a committed add or update stores in the line is the price that was shown in the earlier answer |
| `TwoPhase.TargetCartWasOpen` | apps/api/app/services/cart_service.py:405-413 | The cart that a clearing token names, if any later state has it, was already the caller's active cart when the token was signed |
| `TwoPhase.ClearedCartWasAskedFor` | apps/api/app/services/cart_service.py:422-432 | A committed clear empties the very cart that was active when it was asked for |
| `Witness.DeadClearToken` | apps/api/app/services/cart_service.py:405-428 | A reachable clear of a cart that is not there hands out a token that is refused at once and ever after |
| `TwoPhase.AddedVariantWasShownIff` | apps/api/app/services/cart_service.py:125-126 | The variant added is the one shown exactly when the add names a variant or the token names none |
| `Witness.VariantOfTokenNotCompared` | apps/api/app/services/cart_service.py:125-126 | A reachable add without variant that commits on a token shown for a variant: the condition above can fail |
| `Answers.PromptAnswerCommitsIff` | apps/api/app/services/cart_service.py:194-245 | With nothing in between, a token is honoured exactly when it is in time, the stock covers the merged line of an add, and a clear has a cart: a token for a cart that was opened only to ask is dead |
| `Session.Session.Subtotal` | apps/api/app/services/checkout_service.py:53-56 | The accumulating loop computes the amount that the cart page shows |
| `Session.Session.CreateQuote` | apps/api/app/services/checkout_service.py:31-86 | The session's in-place quote gives the rows and errors of the specification |
| `Session.Session.AddOrderItems` | apps/api/app/services/checkout_service.py:159-172 | The item loop writes one item per cart line, in order, with its quantity, price and total, and touches no other order |
| `Session.Session.ConfirmQuote` | apps/api/app/services/checkout_service.py:89-189 | The session's in-place confirmation, including the expiry mark that is later rolled back, gives the rows and errors of the specification |
| `DeskReplies.QuoteIff` | apps/api/app/services/checkout_service.py:34-75 | In a reachable state a quote is made exactly when the named cart is the caller's active one, not empty, with all lines for sale at their price and in stock, and policy allows; each refusal has its exact condition; and the one row written has the amounts and the expiry 900 seconds on |
| `DeskReplies.ConfirmIff` | apps/api/app/services/checkout_service.py:92-177 | In a reachable state a confirmation goes through exactly when the quote is the tenant's, active and in time, its cart is the caller's active one, all its lines are for sale at their price and in stock, and policy allows; each refusal has its exact condition; and the confirmation, order, items and marks written are exactly these |
| `Guarantees.ExpiredQuoteIsDead` | apps/api/app/services/checkout_service.py:101-104 | A quote past its time is never confirmed by anyone after any steps, and keeps saying ACTIVE, since its expiry mark never commits |
| `Guarantees.LeftoverQuoteIsDead` | apps/api/app/services/checkout_service.py:106-109 | Whatever other quotes a cart had, once it is converted none of them can ever be confirmed |
| `Guarantees.OneOrderPerCart` | apps/api/app/services/checkout_service.py:126-177 | Orders, confirmations, converted carts and confirmed quotes correspond one to one in every reachable state |
| `Guarantees.OwnershipChain` | apps/api/app/services/checkout_service.py:92-150 | Although users are never compared, every order belongs to the owner of its cart, and tenant, currency and amount agree between cart, quote, confirmation and order |
| `Guarantees.PaymentChain` | apps/api/app/services/payment_service.py:41-47 | Every payment, settled or not, has the tenant, currency and amount of an order on such a chain |
| `Guarantees.AttemptChain` | apps/api/app/api/routes/webhooks.py:101-107 | Every attempt has the tenant and amount of an order on such a chain |
| `Guarantees.FrozenOrder` | apps/api/app/services/checkout_service.py:154-176 | An order's items are its converted cart's lines one for one, and neither changes in any later state |
| `Guarantees.DemandWithinStock` | apps/api/app/services/cart_service.py:464-470 | If each line is within its stock, so is what the whole cart wants of any product and variant |
| `Guarantees.FulfillableAtConfirm` | apps/api/app/services/checkout_service.py:107-113 | When an order is created all its items are on offer at the price they carry and its pieces of each product and variant are in stock together |
| `Money.QuoteOfCart` | apps/api/app/services/checkout_service.py:54-61 | A quote is 118/100 of what the cart page shows, exactly, and fits a payment row if and only if the cart comes to at most 84,745,762 paise; it is of the caller's active cart and good for fifteen minutes |
| `Money.SubtotalIsItemsIff` | apps/api/app/services/checkout_service.py:139-172 | An order's subtotal is the sum of its items exactly when the quoted subtotal is what the cart shows at confirmation |
| `Money.UnchangedCartTotals` | apps/api/app/services/checkout_service.py:139-172 | If the lines at confirmation are those that were quoted, whatever happened in between, subtotal is the sum of the items and total is 118/100 of it |
| `Witness.QuoteOvertakenByCart` | apps/api/app/services/checkout_service.py:106-172 | A reachable confirmation whose order charges for one piece and lists two: the hypothesis above cannot be dropped |
| `Money.RoundedIsNearest` | apps/api/app/services/payment_provider.py:48-51 | Razorpay is sent a nearest whole subunit, the even one from half way; the fake provider's truncation is at most one below it |
| `Money.EchoIsNeverAMismatch` | apps/api/app/api/routes/webhooks.py:61-70 | A notification that repeats what Razorpay was sent always passes the amount and currency checks of its own payment |
| `Money.ScreenedIff` | apps/api/app/api/routes/webhooks.py:48-70 | A notification is accepted for a payment exactly when it names that payment's provider order and any amount and currency it gives are the payment's |
| `BankReplies.SentIff` | apps/api/app/services/payment_provider.py:26-51 | Razorpay is sent the nearest whole subunit, the even one from half way, and the fake provider what is left without fractions, and no other number |
| `Money.PaymentFitsIff` | apps/api/app/models/payment.py:26 | Asking to pay a CREATED order succeeds exactly up to 84,745,762 paise; above, the provider is left with an order that no payment names |
| `Money.OversizedOrderIsNeverPaid` | apps/api/app/models/payment.py:26 | An order above that amount stays CREATED in every later state |
| `Witness.OversizedOrderIsReachable` | apps/api/app/models/payment.py:26 | A run of the shop that ends in such an order: one piece at 84,745,763 paise, confirmed and for ever CREATED |
| `Money.PayingStepsPay` | apps/api/app/services/payment_service.py:40-64 | Asking for payment of a CREATED order up to that amount and then being told of the capture makes the order PAID |
| `Money.PayableIff` | apps/api/app/services/payment_service.py:40-64 | A CREATED order has a run that pays it if and only if its subtotal is at most that amount |
| `BankReplies.PayIff` | apps/api/app/services/payment_service.py:19-62 | In a reachable state a payment request succeeds exactly for a CREATED order of the tenant up to 84,745,762 paise, and then writes one payment of that order's total and marks the order; each refusal has its exact condition; and the provider is asked exactly when the order is the tenant's and CREATED |
| `Session.Session.CreatePaymentForOrder` | apps/api/app/services/payment_service.py:15-73 | The session's in-place payment request gives the rows, provider orders and errors of the specification |
| `Guarantees.OrderPaymentCoupling` | apps/api/app/services/payment_service.py:26-62 | An order is CREATED, PENDING_PAYMENT, PAID or PAYMENT_FAILED exactly as it has no payment or a CREATED, PAID or FAILED one, and has at most one |
| `Guarantees.ExistingPaymentBranchUnreachable` | apps/api/app/services/payment_service.py:29-38 | The branch that returns an existing payment is never taken in a reachable state |
| `Guarantees.SettledStays` | apps/api/app/api/routes/webhooks.py:92-124 | A settled order or payment keeps its whole row in every later state |
| `LedgerInvariant.CreatePaymentKeepsBankOk` | apps/api/app/services/payment_service.py:26-64 | A payment request keeps payments, attempts and the ledger consistent even when the row cannot be written after the provider was called |
| `Session.Session.HandleWebhook` | apps/api/app/api/routes/webhooks.py:45-143 | The handler's in-place changes are the specification's rows when it commits, and when it does not, none were due |
| `BankReplies.NotificationReplyIff` | apps/api/app/api/routes/webhooks.py:39-90 | In a reachable state each reply, be it no order named, unknown order, wrong amount, wrong currency, already processed, missing kind or accepted, is given exactly when the notification's fields and the tables call for it |
| `BankReplies.NotificationWrites` | apps/api/app/api/routes/webhooks.py:81-143 | Only an accepted notification writes: its event, and the verdict if it captures or fails a payment that is neither PAID nor FAILED, and nothing else |
| `Guarantees.VerdictSettles` | apps/api/app/api/routes/webhooks.py:91-140 | A screened, new capture or failure of an open payment makes payment and order PAID or failed accordingly, writes one attempt to match, and moves nothing else |
| `LedgerInvariant.VerdictKeepsLedgerOk` | apps/api/app/api/routes/webhooks.py:94-108 | A capture moves the same amount to both sides of its tenant's ledger and a failure moves none |
| `Guarantees.LedgerConservation` | apps/api/app/api/routes/webhooks.py:91-108 | In every reachable state, per tenant, PAID orders come to what successful attempts brought in |
| `Guarantees.OneReceiptPerPaidOrder` | apps/api/app/api/routes/webhooks.py:99-108 | An order is PAID if and only if it has a successful attempt, it has only one, and that one is for the order's total |
| `Deliveries.FirstVerdictWins` | apps/api/app/api/routes/webhooks.py:45-143 | For any sequence of notifications, each payment, order and attempt ends as the first capture or failure says that is sound and not a repeat, and nothing else in these tables moves |
| `Verdicts.FirstDecisionOfRunWins` | apps/api/app/api/routes/webhooks.py:45-143 | In any run, with payment requests and everything else between notifications, a payment ends as the first sound, new capture or failure after its creation says, with its order and its one attempt, and without one stays open |
| `Deliveries.RedeliveryIsHarmless` | apps/api/app/api/routes/webhooks.py:72-79 | Delivering again anything already delivered, in any order, with or without identifiers, moves no payment, order or attempt |
| `Guarantees.NotificationsSettleOnce` | apps/api/app/api/routes/webhooks.py:45-143 | Both hold in every reachable state of the shop, for arbitrary notifications |
| `Race.AloneIsTheHandler` | apps/api/app/api/routes/webhooks.py:45-143 | The handler split into read, check and write does and replies, uninterrupted, exactly what the handler as a whole does |
| `Race.AtMostOneEffect` | apps/api/app/models/payment.py:78 | With concurrent handlers interleaved between check and insert, an identified event commits and takes effect at most once, and never if it was recorded before |
| `Race.WriteAgreesIff` | apps/api/app/api/routes/webhooks.py:72-101 | A handler writes what it would alone, refused repeats included, exactly when it does not commit a decision on a status that has gone stale |
| `Race.NoStaleCommitIsSerial` | apps/api/app/api/routes/webhooks.py:72-89 | A schedule without stale commits leaves the tables as the committed notifications handled one after the other do |
| `Overlap.SerializableIff` | apps/api/app/api/routes/webhooks.py:72-108 | For any schedule of overlapping handlers these are the same: no commit is stale; no payment ends with two attempts; the ledger invariants hold; some serial handling leaves the same tables |
| `Overlap.EveryScheduleSettlesOnceIff` | apps/api/app/api/routes/webhooks.py:72-108 | Every schedule settles each payment once if and only if no two of the notifications are unrecorded captures or failures of one open payment under different events, so overlapping copies of one identified event are always safe |
| `Overlap.EveryReplyIsDue` | apps/api/app/api/routes/webhooks.py:45-143 | However handlers interleave, each ends with a reply that is due: what screening stops is refused as at the start, a repeat has been recorded by then, and accepted are exactly those that committed |
| `Race.TwoDecisionsRace` | apps/api/app/api/routes/webhooks.py:72-140 | Any two captures or failures of one open payment under different events, each read before the other writes, both record an attempt |
| `Race.TwoCapturesRace` | apps/api/app/api/routes/webhooks.py:72-108 | Two captures of one open payment under different identifiers that overlap record two successful attempts: the unique index alone is not enough |
| `Witness.TwoCapturesAreReachable` | apps/api/app/api/routes/webhooks.py:72-108 | A run of the shop that ends in a payment which two overlapping captures settle twice |
| `Session.Session.CartRoute` | apps/api/app/api/routes/cart.py:71-154 | A cart request on the session commits or rolls back so that what others see is one step of the state machine |
| `Session.Session.ShowCartRoute` | apps/api/app/api/routes/cart.py:61-68 | Showing a cart changes no committed row: the cart it may open is rolled back |
| `Session.Session.MutateTool` | apps/api/app/agents/tools.py:275-343 | A cart tool under its savepoint leaves the open transaction as one cart request would: anything but success falls back to the savepoint |
| `Session.Session.ShowTool` | apps/api/app/agents/tools.py:263-272 | The agent's cart view keeps the cart it may open, as one step of the open transaction |
| `Session.Session.ValidateTool` | apps/api/app/agents/tools.py:346-353 | The agent's validation, too, keeps the cart it may open, as one step of the open transaction |
| `Session.Session.AgentRun` | apps/api/app/agents/orchestrator.py:249-366 | Any cart tools called in one agent run, with time passing between them and one commit at the end, leave what the same requests one by one leave |
| `Session.Session.QuoteRoute` | apps/api/app/api/routes/checkout.py:20-34 | A quote request is one step of the machine, and none at all when it is refused |
| `Session.Session.ConfirmRoute` | apps/api/app/api/routes/checkout.py:37-57 | A confirmation request is one step of the machine; the expiry mark of a late one is rolled back |
| `Session.Session.PayRoute` | apps/api/app/api/routes/payments.py:17-27 | A payment request is one step of the machine; refused, it may still have made an order at the provider |
| `Session.Session.WebhookRoute` | apps/api/app/api/routes/webhooks.py:45-143 | A notification is one step of the machine with the reply of the specification |
| `Policy.Evaluate` | apps/api/app/services/policy_engine.py:53-106 | The loop allows exactly when no active policy of the tenant has a reason to object, said on rule fields and context, which is to be within the tightest of their limits; it denies when the query fails, and otherwise gives the first policy's reason |
| `Policy.Consider` | apps/api/app/services/policy_engine.py:70-101 | One policy objects for a reason exactly in that reason's case: a missing confirmation rule counts as on and a null one as off, limits are exceeded only strictly |
| `Policy.LimitsIff` | apps/api/app/services/policy_engine.py:69-106 | Nobody objecting and being within the tightest limits are the same |
| `Policy.NoObjectionMeansWithinLimits` | apps/api/app/services/policy_engine.py:69-101 | No single policy objects if and only if the tightest limits, which have no order, are respected |
| `Policy.WithinTightestIffWithinAll` | apps/api/app/services/policy_engine.py:73-78 | Being within the smallest bound is being within every bound |
| `Policy.OrderDoesNotMatter` | apps/api/app/services/policy_engine.py:14-20 | Two query results with the same rows in different orders allow the same actions |
| `Policy.MorePoliciesAllowLess` | apps/api/app/services/policy_engine.py:69-106 | What is allowed under more policies is allowed under fewer |
| `Policy.OtherActionsAreNeverDenied` | apps/api/app/services/policy_engine.py:72-95 | Actions other than PAYMENT and DISCOUNT, such as those that checkout and the cart tools name, violate no policy |
| `RateLimit.RateLimiter.Check` | apps/api/app/core/rate_limit.py:11-34 | With a clock that does not go back, the counter that expires after two windows answers as one that never forgets |
| `RateLimit.CountIsKnown` | apps/api/app/core/rate_limit.py:22-26 | The counter of the current window is never one that has expired: it counts every call of that key in the window |
| `RateLimit.AdmittedInBlock` | apps/api/app/core/rate_limit.py:29-34 | In one window exactly the first allowed number of calls of a key is admitted, or all if there are fewer |
| `RateLimit.SlidingBound` | apps/api/app/core/rate_limit.py:19-34 | Any interval of k windows, wherever it starts, admits at most (k + 1) times the allowed number of calls of a key |
| `RateLimit.SlidingBoundIsMet` | apps/api/app/core/rate_limit.py:19-34 | From any start inside a window that bound is reached, by calls in time order |
| `RateLimit.KeepsLimitIff` | apps/api/app/core/rate_limit.py:19-34 | An interval of k windows keeps k times the allowed number for all calls in time order if and only if it starts with a window, or k or the allowed number is zero |
| `Agent.Orchestrator.Run` | apps/api/app/agents/orchestrator.py:145-414 | For every model and tools the nested loops leave messages, trace, tools used, tool rows, message rows and counters all telling the same sequence of rounds, and at most five model calls |
| `Agent.ExecutesTheCalls` | apps/api/app/agents/orchestrator.py:252-267 | A round executes exactly the calls the model asked for, in order |
| `AgentLogs.PlayIsBounded` | apps/api/app/agents/orchestrator.py:214-250 | At most five model calls; the limit is reported only after five rounds of tool calls, none of them empty |
| `AgentLogs.PlayFollowsTheModel` | apps/api/app/agents/orchestrator.py:216-267 | Each round is the model's answer to the conversation so far, and each result the tool's answer to the conversation up to its call |
| `AgentLogs.PlayEndsWithTheModel` | apps/api/app/agents/orchestrator.py:222-247 | The loop ends in an answer or an error only if that is what the model says after the last round |
| `AgentLogs.TraceIsGrammatical` | apps/api/app/agents/orchestrator.py:145-379 | The trace is a request, pairs of a tool's call and completion, one closing event, and a report whose outcome is the one that event stands for |
| `AgentLogs.LogsTellEachCall` | apps/api/app/agents/orchestrator.py:252-334 | Every call is in every log at its place with its own content: its pair in the trace with round number and success, its tool row with arguments and result, its message row and its reply with identifier and result, and its round's question |
| `AgentLogs.TraceEnds` | apps/api/app/agents/orchestrator.py:214-379 | The trace has two events per call and three more: the request, the closing event with the round it came in, and the report of tools used, calls and outcome |
| `AgentLogs.LogsAgreeOnToolCalls` | apps/api/app/agents/orchestrator.py:252-334 | Reported tool calls, call events in the trace, tool call rows and tool messages in the conversation are equally many |
| `AgentLogs.EveryCallIsAnswered` | apps/api/app/agents/orchestrator.py:249-324 | In the messages a run adds, each assistant message with tool calls is followed by exactly its results, by identifier and tool, in order, before anything else |
| `AgentLogs.ToolsUsedAreFirstSuccesses` | apps/api/app/agents/orchestrator.py:271-272 | A tool is listed as used exactly when a call of it succeeded, once, in the order of first successes |

## Left out

- Money.EchoIsNeverAMismatch: for the truncating fake provider it gives only agreement within one subunit, because its notifications are whatever a caller writes.
- Race.AtMostOneEffect: speaks of events that carry an identifier; one without gets a fresh identifier each time, so its repeats are stopped only by the payment's status (`Deliveries.RedeliveryIsHarmless` when serial, `Overlap.EveryScheduleSettlesOnceIff` when they overlap).
- Agent.Orchestrator.Run: logs are sequences rather than database rows, and the tools are arbitrary functions there; what the cart tools do to the shop is `Session.Session.AgentRun`.
- Session.Session.AgentRun: a run that raises before its commit, and requests of others between its tool calls, are not modelled.
- RateLimit.RateLimiter.Check: assumes one clock that does not go back, and a store that drops counters exactly when they are out of time; the fallback when the store is down is not modelled.
- Row locks and isolation: requests are atomic, except for notifications in `Race`; two carts opened at the same moment by one owner are not modelled.
- The product name, SKU, session and metadata columns, audit rows, timestamps and latencies.
- `order.payment_status`, which no modelled code writes after creation.
- Stock conservation between orders: confirmation reserves nothing, so two orders may count on the same pieces.
- Single use of tokens: the code keeps no record of used tokens, so a token can be presented again until stock, price or time stops it.
- A minimum size of orders: a cart may be cleared between quote and confirmation, and the order is then empty.
- The currency of cart lines: subtotals add lines whatever their currency, so the model keeps one currency.
- Two inventory rows for one product without variant: stock is a map by key, so the lookup never meets two rows.
- Binary floating point in `float(amount) * 100`: the conversion is half-to-even rounding of the exact amount.
- Decimal precision limits in totals, and the size limit of the cart line's price column.
- Policy reasons as text, the policy's name in them, and creating or updating policies.
- The registry's checks of tool names, sizes and arguments, and the catalogue tools, which only read.
- Conversation history loaded from earlier runs, which is an arbitrary prefix, and the parsing of the final answer.
- Signatures of notifications and tokens, login, roles, row-level security, cascading deletes and migrations.
- Catalogue search and maintenance, growth, and the web frontends: the catalogue appears only as arbitrary changes of products, variants and stock.
