# Order sagas, verified

A Dafny model of the order saga of this repository, from the HTTP request to the last compensation,
and of the saga log beside it. `dafny verify dfyconfig.toml` checks everything.

**What is modelled.** An HTTP request is validated, becomes a pending order, and launches a saga that
reserves stock, charges the customer and confirms the order; a failing saga compensates what it had
completed, last in first out, and the gateway then cancels the order. A repeated idempotency key gets
the same order back and launches another saga on it, so several sagas may work on one order at once.

- The three servers, the cache clients, the orchestrator and the log repository are classes whose
  methods update fields in loops, as the program does (`InventoryServer`, `PaymentServer`,
  `OrderServer`, `CacheKeys`, `Saga`, `SagaLog`; the loops of the gateway in `Gateway`). Scans over Go
  maps pick entries in an arbitrary order. Each method is proved against a function of the old state
  (`Inventory.Reserve`, `Inventory.Release`, `Payment.Charge`, `Payment.Refund`, `Orders.Create`,
  `Orders.UpdateStatus`, `Orchestrator.Forward`, `Orchestrator.Backward`, `SagaLog.Latest`).
- `Protocol` is the whole system as a state machine over the same functions: any number of threads (a
  request and its saga), a step being one cache probe or one section under a server's mutex. Each
  remote call may arrive, be lost before its effect, lose its reply after its effect, or hang: its
  caller is told of an error, and it takes effect later, at any moment, or never. Cache reads may fail,
  cache writes may fail, and any cache entry may vanish at any time. A locked section is one step
  because nothing outside the server can see the middle of it: probes read the cache only, and its
  cache write comes last. The five cache maps of `Protocol` are the five namespaces of the one shared
  Redis store; `CacheKeys.NamespacesAreSeparate` is why they may be kept apart. The fields `creators`
  and `history` of a world are records for the proofs; no step depends on them. `Calls` says what each
  move amounts to, for the caller and on record.
- `Orchestrator` takes any list of steps over any world, with calls that may fail before or after an
  effect, and describes the run in big steps (forward, backward) and small steps (one call or one log
  row), proved equal. `OrderSteps` is the list that the gateway builds, over the three services.
  `Refinement` proves that the sagas of `Protocol` move exactly through the orchestrator's points.
- `Timestamps` is the text form of the log's timestamps as RFC 3339 (section 5.6) defines it, its
  parser, and the order of the texts; `SagaLog` is the append-only table and its query.

**Four kinds of theorems.** Those of `Safety`, `Overselling` and `Progress` hold in every run, with
duplicate submissions, lost and late calls and forgotten caches. Those of `OneSaga` and `Atomicity`
read off exactly what a saga leaves behind, for each order whose idempotency key no other request
carries (`OneSaga.Sole`), whatever other requests do. `Requests` and `Backing` settle which sets of
requests are safe when calls may be lost and caches forget: `Requests.AtomicityBreaksExactly` for the
state everything ends in, `Backing.GoodsBackedExactly` and `Backing.MoneyBackedExactly` for the
answers sagas get on the way, each an if-and-only-if on the requests and the initial stock, with
`Scenarios` and `Duplicates` building the bad runs. And `FaultlessRuns.FaultlessBreaksExactly` is the
if-and-only-if for runs in which nothing fails at all: every call is delivered at once, the cache
answers every read and keeps every write, and only stock and limit say no. Its condition is in
`Demands`, that nothing else goes wrong is in `Faultless`, and the bad runs are built in
`Continuations`, `Squeezing` and `FaultlessRuns`.

**Where the code and its documentation disagree**, the model follows the code:

- The repository's own README.md, lines 59-62, promises exactly-once processing through the idempotency
  key, with fallbacks that do not compromise consistency. Effects are indeed never doubled, and until
  something is given back every "yes" has its effect behind it (`Safety.ExactlyOnce`). But cache
  entries outlive what they tell of. What that can lead to depends on the requests, and the conditions
  are exact; call two requests a risky pair if they share a key and the stock could serve the first.
  - A saga can be told "reserved" when the goods have been returned: exactly if there is a risky pair
    (`Backing.GoodsBackedExactly`). If the first of the pair is within the limit of 500, the order is
    even confirmed without its goods (`Requests.SharedKeyConfirmsWithoutGoods`).
  - A saga can be told "charged" when the money has been returned: exactly if there is a risky pair
    whose first request is within the limit (`Backing.MoneyBackedExactly`).
  - A saga can be told "released" when it has just reserved, so that a cancelled order keeps its goods
    for ever, every call being clean (`Requests.SharedKeyLeaks`): exactly if there is a risky pair
    (`Requests.AtomicityBreaksExactly`).
  - Even when nothing fails, orders end in pieces, exactly if there is a risky pair whose first request
    is over the limit, so that both sagas reserve and one release is answered by the cache
    (`FaultlessRuns.OverLimitLeaksWithoutFaults`); or within it, but other requests can take the stock
    away for a while and some of them, being over the limit, have to give it back: then one saga of the
    pair is declined, the other one reserves, charges and confirms, and the first one cancels the order,
    which keeps its goods and its money (`Squeezing.SqueezeBreaksWithoutFaults`; the smallest such set of
    requests is in `FaultlessRuns.SmallestSqueeze`). That is all (`FaultlessRuns.FaultlessBreaksExactly`).
    Where no cart that the stock could serve is over the limit nothing of the kind happens, whatever
    keys are shared (`FaultlessRuns.WithinLimitIsAtomic`).
- api/proto/inventory/v1/inventory.proto line 13 says Reserve is idempotent by order ID. The code goes
  by idempotency key; a repeated Reserve without a key is not idempotent
  (`Inventory.RepeatedReserveExactly`). api/proto/payment/v1/payment.proto lines 12-13 mention the key
  for Charge; the code goes by order ID alone.
- internal/coordinator/sagalog/sqlite/repository.go lines 22-23 say that the row with the greatest
  updated_at is the current state. Trimmed fractions make text order differ from time order, and the
  exact condition is `SagaLog.LatestIsLastExactly`.
- internal/coordinator/sagalog/domain.go lines 43-44 say that error messages accumulate compensation
  failures. They are appended to a slice that `Start` never sees: the FAILED row repeats the errors of
  the COMPENSATING row (`Orchestrator.LogTells`).
- internal/coordinator/sagalog/domain.go lines 10-11 mention recovery from the log. The log often cannot
  tell whether the step after the last STEP_DONE row has taken effect, nor which compensations have been
  made (`Orchestrator.SameRowsDifferentStanding`). When a complete log can is
  `Orchestrator.TellingExactly`; when what is left of a log can, failed Saves going unnoticed, is
  `Orchestrator.SurvivorsTellExactly`.
- internal/coordinator/saga.go lines 42-44 promise to compensate all successful steps. A step that took
  effect and reported an error is not among them (`Atomicity.FaultResidue`,
  `OrderSteps.SagaRestoresExactly`). A single lost reply is enough, of any request that can be served:
  the cancelled order keeps its goods (`LostReplies.LostReserveReplyLeaksGoods`), or its money
  (`LostReplies.LostChargeReplyLeaksMoney`), or stays pending for ever, with no saga to work on it
  (`LostReplies.LostCreateReplyStrands`).
- A repeated request gets the order back, but not always as it stands: while the cache remembers the
  creation it is told PENDING, whatever has become of the order since
  (`Answers.CachedAnswerIsPending`, `Repeats.RepeatedRequestIsTold`).
- The gateway accepts quantities that do not fit 32 bits and carts that list a product twice; what
  becomes of them is stated exactly (`Gateway.ReservedAsAskedExactly`, `Inventory.OversellsExactly`).

## Model

| member | source | states |
|---|---|---|
| `Requests.AtomicityBreaksExactly` | internal/api-gateway/infra/httpx/handler.go:79-88 | For any set of valid requests that list distinct products in 32-bit quantities, and any non-negative 32-bit stock: some run of exactly these requests, in which no call lies to its caller about a lasting effect, comes to rest with an order that is neither whole nor cancelled and free, if and only if two of the requests share a key and one of those two could be served from the initial stock |
| `Requests.SafeRequestsStayAtomic` | internal/api-gateway/infra/httpx/handler.go:111-135 | Every run whose keys are each carried by one request, or by none that the stock could serve, ends after clean calls with every order all or nothing and the three services' books those of the confirmed orders |
| `Requests.SharedKeyLeaks` | internal/inventory-service/client.go:111-115 | Any two valid requests with one key, the first reservable, among any other requests: a run of clean calls that ends with their order cancelled and its goods still reserved, because the second saga's release is answered by the first one's cache entry |
| `FaultlessRuns.FaultlessBreaksExactly` | internal/api-gateway/infra/httpx/handler.go:79-135 | For any set of valid requests that list distinct products in 32-bit quantities, and any non-negative 32-bit stock: some run of exactly these requests without any fault (every call delivered at once, the cache perfect) comes to rest with an order that is neither whole nor cancelled and free, if and only if two of the requests a and b share a key, the stock could serve a, and either a is over the limit, or a is within it and some of the other requests, none with a's key and no two with one key, fit the stock together, leave too little for a, and leave enough for a once those over the limit are taken out |
| `FaultlessRuns.WithinLimitIsAtomic` | internal/payment-service/app/client.go:50-56 | If no cart that the initial stock could serve is over the limit, every run of such requests without faults that has come to rest has every order all or nothing and the three services' books those of the confirmed orders, whatever keys are shared |
| `Faultless.FaultlessIsAtomic` | internal/api-gateway/infra/httpx/handler.go:111-135 | The same for every set of requests that the condition of `FaultlessRuns.FaultlessBreaksExactly` does not hold of |
| `Faultless.RunStaysCalm` | internal/api-gateway/infra/httpx/handler.go:111-135 | In every world of such a run: every call made has been answered, and no charge within the limit declined; nothing taken for an order within the limit was ever given back; only a saga that was declined goods cancels such an order; and if one with a key was, its goods were never taken, and requests that squeeze it out of the stock exist, those within the limit among them still holding theirs |
| `Demands.NoOverLimitNoRisk` | internal/payment-service/app/client.go:50-56 | If no cart that the initial stock could serve is over the limit, the condition does not hold, whatever keys are shared |
| `Squeezing.SqueezeBreaksWithoutFaults` | internal/api-gateway/infra/httpx/handler.go:111-135 | Among any other requests: from two requests with a key, the first within the limit and servable, and a set of others that squeezes it out of the stock for a while, a run without faults that ends with the order cancelled, its goods reserved and its money taken |
| `FaultlessRuns.SmallestSqueeze` | internal/payment-service/app/client.go:50-56 | One unit in stock, a cart of 1.0 submitted twice under one key and another of 501.0 are such requests |
| `FaultlessRuns.OverLimitLeaksWithoutFaults` | internal/inventory-service/client.go:111-115 | Any two valid requests with one key, the first reservable and over the limit, among any other valid requests: a run with every call delivered at once, nothing lost and a perfect cache, that comes to rest with their order cancelled and its goods still reserved |
| `Backing.GoodsBackedExactly` | internal/inventory-service/client.go:42-65 | For the same sets of requests and stocks as `Requests.AtomicityBreaksExactly`: some run of exactly these requests reaches a moment at which a saga was told that its goods are reserved, has not asked for their release, and there is no reservation, if and only if two of the requests share a key and one of those two could be served from the initial stock |
| `Backing.MoneyBackedExactly` | internal/payment-service/app/client.go:35-48 | The same of a saga told that its money is taken, no refund asked for and no payment on record, if and only if the one that could be served is also within the limit |
| `Requests.SharedKeyConfirmsWithoutGoods` | internal/inventory-service/client.go:42-51 | Any two valid requests with one key, the first reservable and within the limit, among any others: a run of clean calls in which their order is confirmed while it holds no goods, and ends cancelled and still paid |
| `Requests.LateConfirmBreaks` | internal/order-service/app/client.go:93-111 | Any single reservable request within the limit: a run in which every other call is clean and everything is undone, and a Confirm that was hanging then leaves the order confirmed with neither goods nor money |
| `LostReplies.LostReserveReplyLeaksGoods` | internal/coordinator/steps.go:105-117 | Any single request that the initial stock can serve: a run in which only the reply to its Reserve is lost, and the order ends cancelled, unpaid and with its goods reserved |
| `LostReplies.LostChargeReplyLeaksMoney` | internal/coordinator/steps.go:65-79 | Any such request within the limit: a run in which only the reply to its Charge is lost, and the order ends cancelled, unreserved and paid |
| `LostReplies.LostCreateReplyStrands` | internal/api-gateway/infra/httpx/handler.go:79-83 | Any single request: a run in which only the reply to its creation is lost, and the order ends pending, with no saga |
| `Requests.RunTakesWhatFits` | internal/inventory-service/client.go:69-83 | In every run of sane requests, goods are only ever reserved for orders whose lines fit the initial stock |
| `Requests.NeverTaken` | internal/inventory-service/client.go:69-83 | So never for a key none of whose requests fits it |
| `Requests.UntakenIsAtomic` | internal/api-gateway/infra/httpx/handler.go:122-134 | In any reachable world at rest after clean calls, an order for which goods were never reserved is cancelled, unreserved and unpaid, however many sagas worked on it |
| `Atomicity.GlobalAtomicity` | internal/api-gateway/infra/httpx/handler.go:111-135 | In every run with absent or distinct keys and any quantities, once all sagas are at rest after clean calls (no forward call took effect behind an error, no undoing call ended in an error without effect, no Confirm came late): every order is confirmed, reserved and paid, or cancelled with neither; the live reservations are exactly the lines of the confirmed orders, the payments exactly their totals, and the stock is the initial stock less those lines |
| `Atomicity.GlobalStock` | internal/api-gateway/infra/httpx/handler.go:111-135 | If the requests also list each product once in 32-bit quantities, that last equation is exact integer arithmetic and no level is negative |
| `Atomicity.AtomicExactly` | internal/coordinator/saga.go:45-92 | For each order whose key no other request carries, once its own thread is at rest and whatever other requests do: it is all-or-nothing if and only if its calls were clean and no late Confirm came after the cancellation, or nothing was undone and the Confirm had the last word |
| `Atomicity.FaultResidue` | internal/coordinator/saga.go:51-92 | For each failed saga whose key no other request carries, with calls lost, unheard, still hanging or landed late: goods stay reserved iff its Reserve took effect behind an error or its Release has had no effect; money stays iff the same of Charge and Refund; the order is cancelled iff the cancellation took effect and no Confirm came after it, and confirmed iff the Confirm took effect behind an error and the cancellation had no effect or came before it |
| `Atomicity.CompletedIsConfirmed` | internal/coordinator/saga.go:72-74 | A completed saga whose key no other request carries leaves its order confirmed, reserved and paid |
| `OneSaga.SoleSaga` | internal/api-gateway/infra/httpx/handler.go:79-88 | If no other request has its key, the saga working on an order belongs to the request that created it |
| `OneSaga.RunKeepsLedger` | internal/coordinator/saga.go:45-92 | In every run, for each order whose key no other request carries, its reservation, payment, status and cache entries are at every moment exactly those told by the calls its saga has made, and every reply that arrives says truly whether the call had its effect |
| `Safety.RunKeepsInv` | internal/api-gateway/infra/httpx/handler.go:48-135 | In every world of every run the orders, caches, sagas, calls, reservations, payments and history fit together (the invariant behind the other rows of `Safety`) |
| `Safety.StepKeepsInv` | internal/api-gateway/infra/httpx/handler.go:48-135 | Every submission, every move of any saga under any network luck, and every loss of cache entries keeps that invariant |
| `Safety.StockIsConserved` | internal/inventory-service/client.go:53-94 | In every run, for each product, the stock level plus the units in all live reservations is the initial stock in the service's int32 arithmetic |
| `Safety.EffectsAlternate` | internal/inventory-service/client.go:110-138 | In every run, effective Reserves and Releases of an order alternate beginning with a Reserve, as do Charges and Refunds; the difference of their counts is 0 or 1 and equals membership in the map |
| `Safety.ExactlyOnce` | internal/payment-service/app/client.go:33-70 | In every run, as long as an order's goods (money) have not been given back, they were taken at most once, and every saga that was told yes, by cache, memory or the real path, has a live reservation (payment) behind it |
| `Safety.KeysBindOneOrder` | internal/order-service/app/client.go:39-79 | In every run no two orders share a non-empty key; all sagas of a key got the same ID, customer, items and total; and sagas of different requests meet on one order only through a shared key |
| `Safety.ConfirmedWasBacked` | internal/coordinator/steps.go:141-153 | In every run, a confirmed order was confirmed at a moment when a reservation and a charge for that order had already been committed |
| `Safety.OverLimitNeverPaid` | internal/payment-service/app/client.go:50-56 | In every run, an order whose total exceeds 500 is never paid, never charged, never cached as charged and never confirmed |
| `Safety.MoneyAgreesWithGoods` | internal/order-service/adapters/grpc/mappers/order_mapper.go:15-79 | In every run, every charge ever recorded, at each moment it was made, and every payment on record came after a reservation of the same order and is the sum of quantity times unit price over exactly the lines reserved; all reservations of an order, past and present, have the same lines |
| `Safety.ChargedForGoods` | internal/coordinator/steps.go:65-117 | Each recorded charge was preceded by a reservation of the same order and amounts to the worth of its goods |
| `Safety.TakesAreNew` | internal/inventory-service/client.go:85-94 | Whenever a Reserve takes stock, its order holds no live reservation, so `reservations[id]` is never overwritten |
| `Safety.MoveConserves` | internal/inventory-service/client.go:85-138 | Any step of any saga keeps stock plus reservations at the initial stock |
| `Invariants.NotYetHeld` | internal/inventory-service/client.go:56-65 | A Reserve that gets as far as the stock check finds no reservation of its own order: the order's key would have been found, and a keyless order has only one saga |
| `Invariants.ReserveReplyBacked` | internal/inventory-service/client.go:42-65 | Whoever answers yes to a Reserve, cache, memory or stock, goods were once taken for this very order |
| `Invariants.MoveKeepsCreators` | internal/api-gateway/infra/httpx/handler.go:79-88 | Every step keeps each order tied to the one request that made it, and each keyless saga tied to its own order |
| `Invariants.MoveKeepsCalls` | internal/coordinator/saga.go:51-92 | Every step keeps the calls a saga has made in the orchestrator's pattern: forward in order, then the completed steps undone in reverse, then the cancellation |
| `Invariants.MoveKeepsBacked` | internal/coordinator/steps.go:65-153 | Every step keeps a recorded take behind every yes, every cache entry and every confirmation |
| `Calls.RunTellsCalls` | internal/coordinator/saga.go:51-92 | In every run, whatever an unfinished thread does next is a cache probe that misses and only moves it on to the locked section, or the one call that its phase is about, of which it is told by what the network did: a yes or no whose effect is on record, an error before the service was reached, an error after the effect that is on record, or an error while the call hangs; it goes on after a yes and turns back after all else; and exactly the event of that call, or the new order, is on record if it had an effect |
| `Calls.LostReplyTurnsBack` | internal/coordinator/steps.go:65-117 | So in every run a call whose reply is lost is an error to its caller, with an effect if and only if one was recorded, and the saga turns back: not started, to the next compensation, or to the cancellation |
| `Calls.ProbeAnswers` | internal/payment-service/app/client.go:35-38 | A probe that gets through is answered yes, without effect, if and only if the cache can be read and remembers such a call; otherwise the locked section is next |
| `Calls.LockAnswers` | internal/payment-service/app/client.go:43-56 | A locked section that gets through says no exactly to a reservation under a free key with a line that names no product of the stock or exceeds its level, and to a first charge above 500 |
| `Calls.EffectsAreRemembered` | internal/inventory-service/client.go:97-105 | A call with an effect is remembered by the cache if the cache write works, and nothing else comes to be remembered |
| `Calls.ForgottenExactly` | internal/pkg/cache/redis.go:29-44 | Any set of cache entries may run out at any moment: those are no longer remembered, the others keep what they hold, and nothing else changes |
| `Calls.LateIsTheSame` | internal/inventory-service/client.go:53-107 | A call that lands late does in the services exactly what it would have done in time |
| `Answers.RunStores` | internal/order-service/app/client.go:40-78 | In every run each stored order has the customer, narrowed items, total and key of the request that made it, every request has passed the checks of the gateway, and cached orders are pending |
| `Answers.StoredPricesArePositive` | internal/api-gateway/infra/httpx/handler.go:61-65 | In every run every stored order has a customer and at least one line, and every line a product and a price above zero |
| `Answers.AmountsArePositive` | internal/api-gateway/infra/httpx/handler.go:61-65 | In every run in which no quantity exceeds 2^31-1, every stored total and every payment on record is above zero |
| `Answers.AnswerTellsStatus` | internal/order-service/app/client.go:55-78 | In every run, a creation answered by the locked section carries the order under its key with the stored customer, items and total and the last status written for it up to that moment |
| `Answers.CachedAnswerIsPending` | internal/order-service/app/client.go:42-53 | In every run, one answered by the cache carries the same with the status PENDING |
| `Repeats.RepeatedRequestIsTold` | internal/order-service/app/client.go:42-64 | Any two valid requests with one key, the first servable and within the limit: a run in which its order is confirmed and the second request is then told CONFIRMED if the cache entry has gone, and PENDING if it has not |
| `Overselling.NeverOversold` | internal/inventory-service/client.go:69-94 | In every run whose requests list distinct products in quantities from 1 to 2^31-1, each stock level is the initial level less the units held, never negative and never wrapped |
| `Overselling.DistinctAndSmallExactly` | internal/inventory-service/client.go:69-83 | For positive quantities: a cart lists distinct products in quantities of at most 2^31-1 if and only if its quantities are at most 2^31-1 and, whatever the stock, a cart whose lines each pass the check also fits as a whole; so that hypothesis is the exact one |
| `Progress.BoundedProgress` | internal/api-gateway/infra/httpx/handler.go:111-135 | Between any two moments of a run, the moves made by sagas and by late calls plus those left are at most those left before plus twenty-four for each new submission, so without submissions everything comes to rest |
| `Progress.StepMeasure` | internal/api-gateway/infra/httpx/handler.go:111-135 | Every move, of a saga or of a late call, lowers the measure, a submission adds at most twenty-four, cache expiry leaves it unchanged |
| `Progress.MeasureOfRest` | internal/api-gateway/infra/httpx/handler.go:111-135 | The measure is never negative and is zero exactly when every saga has ended and no call hangs |
| `Progress.NeverStuck` | internal/coordinator/saga.go:51-74 | An unfinished saga, and a hanging call, always has an enabled move in which the network delivers |
| `Progress.ComesToRest` | internal/api-gateway/infra/httpx/handler.go:111-135 | Every run can be continued, by delivered calls alone, to a world in which every saga has ended and no call hangs |
| `Refinement.SagaFollowsOrchestrator` | internal/api-gateway/infra/httpx/handler.go:111-122 | Every move of a running saga in the protocol either misses the cache before the same call, or makes that call and goes where the generic orchestrator goes after it, and only a reply that arrives counts as a success |
| `Refinement.LateCallsAreUnseen` | internal/api-gateway/infra/httpx/handler.go:111-122 | A call that takes effect after its caller was told of an error leaves the saga at its point |
| `Orchestrator.NextCallIsSettled` | internal/coordinator/saga.go:51-92 | From one call to the next the orchestrator advances on success, turns to the last completed step on failure, and never stops a rollback because a compensation failed |
| `Orchestrator.LifoRestores` | internal/coordinator/saga.go:54-92 | For any steps, if each step that succeeds in this run is undone by its compensation in the world the run met it in, a failing saga whose compensations succeed ends in its starting world when the failing step had no effect |
| `OrderSteps.SagaRestoresExactly` | internal/api-gateway/infra/httpx/handler.go:111-122 | For the three steps of an order saga over the three services, an order that holds nothing, and any losses of requests and replies: a failing saga ends in its starting world if and only if the failing step had no effect and the requests to compensate the completed steps got through |
| `OrderSteps.SagaRestores` | internal/coordinator/saga.go:54-92 | `Orchestrator.LifoRestores` applied to those very steps |
| `OrderSteps.UndoneAlongSaga` | internal/coordinator/steps.go:65-159 | In a failing saga of an order that holds nothing, the inventory and payment steps undo themselves where the run meets them, and ConfirmOrderStep, which never does, is not asked to |
| `OrderSteps.SagaSucceedsExactly` | internal/coordinator/steps.go:65-153 | A saga of an order that holds nothing succeeds if and only if all its replies arrive, each line names a product of the stock and does not exceed its level, the amount is at most 500 and the order is stored; and then the order is CONFIRMED, paid exactly the amount, holds a reservation of exactly the lines under the key, the stock is lower by what they sum to, and all else is unchanged |
| `OrderSteps.InventoryStepReserves` | internal/coordinator/steps.go:105-117 | The step records a reservation of its lines under its key and lowers each level by the units summed over them, or changes nothing; and which error it returns |
| `OrderSteps.PaymentStepPays` | internal/coordinator/steps.go:65-79 | The step records exactly its amount for an unpaid order if that is at most 500 and the request gets through, else nothing; and which error it returns |
| `OrderSteps.ConfirmStepConfirms` | internal/coordinator/steps.go:141-153 | The step sets the status of its order to CONFIRMED and changes nothing else; and when it returns an error |
| `OrderSteps.InventoryStepShape` | internal/coordinator/steps.go:105-122 | An Execute that succeeds leaves a reservation, which a Compensate that gets through takes back to the earlier stock and reservations, whatever became of payments and orders meanwhile |
| `OrderSteps.PaymentStepShape` | internal/coordinator/steps.go:65-85 | An Execute that succeeds leaves a payment, which a Compensate that gets through takes back |
| `Orchestrator.SmallStepsReachFinal` | internal/coordinator/saga.go:45-92 | Running call by call reaches the world of the big-step description and the first error, from any point of the forward run |
| `Orchestrator.AdvanceIsFaithful` | internal/coordinator/saga.go:45-92 | After every call and every row, the rows handed to the log and the calls made are a function of the point reached: execute 0..k, then compensate k-1..0, each once |
| `Orchestrator.EndIsFaithful` | internal/coordinator/saga.go:45-92 | So are those of a whole run |
| `Orchestrator.RowsAreAPrefix` | internal/coordinator/saga.go:46-72 | The rows of any moment are a prefix of STARTED, a STEP_DONE row for each step in order, COMPLETED, or of STARTED, k STEP_DONE rows, COMPENSATING, FAILED with k less than the number of steps |
| `Orchestrator.LogTells` | internal/coordinator/saga.go:60-68 | Without a COMPENSATING row the STEP_DONE count is the number of standing steps or one less; with one it is exactly the number of steps completed before the failure; the FAILED row repeats the COMPENSATING row's step and errors |
| `Orchestrator.SameRowsDifferentStanding` | internal/coordinator/saga.go:54-92 | Before and after an Execute, and at the start and the end of a rollback, the rows are the same while different steps stand |
| `Orchestrator.TellingExactly` | internal/coordinator/saga.go:46-72 | The rows of a complete log determine how many steps stand if and only if there are none, or all STEP_DONE rows are there and no COMPENSATING row, or there is a FAILED row, or a COMPENSATING row with no step done |
| `Orchestrator.SurvivorsTellExactly` | internal/coordinator/saga.go:96-111 | For steps with different names, and whichever rows were saved: what is left determines how many steps stand if and only if there are no steps, or a FAILED or a COMPLETED row is left, or the STEP_DONE row of the last step, or a COMPENSATING row of the first |
| `OrderSteps.OrderRowsTellExactly` | internal/coordinator/steps.go:63-139 | For the order saga: if and only if a FAILED or a COMPLETED row is left, or the STEP_DONE row of the confirmation, or the COMPENSATING row of a failed reservation |
| `Saga.Saga.Start` | internal/coordinator/saga.go:45-75 | For any steps: returns the first error, ends in the big-step world, has made exactly the calls execute 0..k, compensate k-1..0 (whatever the compensations answered) and offered exactly those rows; the stored rows are a subsequence of the offered ones, none without a repository |
| `Saga.Saga.Rollback` | internal/coordinator/saga.go:78-92 | Compensates the completed steps once each, last first, through all failures |
| `Saga.Saga.SaveLog` | internal/coordinator/saga.go:96-111 | Offers one row to the log, which keeps it or loses it |
| `InventoryServer.Server.Reserve` | internal/inventory-service/client.go:39-108 | A cached key answers yes and changes nothing; otherwise stock, reservations and reply are those of `Inventory.Reserve`, and a cache write is asked for iff there was an effect and a key |
| `InventoryServer.Server.ReserveLocked` | internal/inventory-service/client.go:53-107 | The scan in any map order, the check of all lines before any deduction, the deduction and the record amount to `Inventory.Reserve`; it says no if and only if the key is not in use and some line names a product that is not stocked or asks for more than its level; at most the service's own entry for the key is written |
| `InventoryServer.Server.Release` | internal/inventory-service/client.go:110-149 | Always answers yes; a cached order changes nothing, otherwise the state is that of `Inventory.Release` |
| `InventoryServer.Server.ReleaseLocked` | internal/inventory-service/client.go:117-148 | The restoring loop and the deletion amount to `Inventory.Release`, and the release is offered to the cache iff it had an effect |
| `InventoryServer.Server.constructor` | internal/inventory-service/client.go:27-37 | Starts with 15, 10 and 0 units of the three products and no reservations |
| `Inventory.ReleaseUndoesReserve` | internal/inventory-service/client.go:85-138 | Releasing an effective Reserve of an order that held nothing gives back the whole earlier state, for any quantities and repeated products |
| `Inventory.RestoreUndoesDeduct` | internal/inventory-service/client.go:85-136 | The restoring loop undoes the deducting loop in int32 arithmetic |
| `Inventory.DeductLevel` | internal/inventory-service/client.go:85-92 | The deducting loop lowers each product by the units of it summed over all lines, as one int32 wrap |
| `Inventory.ReserveConserves` | internal/inventory-service/client.go:53-94 | Reserve keeps stock plus live reservations at the initial stock, provided an order that already holds one is met with its key |
| `Inventory.ReleaseConserves` | internal/inventory-service/client.go:117-138 | Release keeps it unconditionally |
| `Inventory.ReserveBooks` | internal/inventory-service/client.go:94 | Exactly what an effective Reserve does otherwise: the units of an overwritten reservation are lost from the books |
| `Inventory.RepeatedReserveExactly` | internal/inventory-service/client.go:56-94 | Repeating an effective Reserve answers yes and changes nothing iff it carries a key; without one it takes the goods again iff they suffice |
| `Inventory.ReserveDeclinesExactly` | internal/inventory-service/client.go:56-83 | Reserve says no if and only if the key is not in use and some line names a product that is not stocked or asks for more than its level |
| `Inventory.ReserveSplits` | internal/inventory-service/client.go:69-83 | Under a free key a request is accepted if and only if both parts of any cut of its lines are, an empty one always, and one line iff its product is stocked and its quantity at most the level |
| `Inventory.DistinctLinesFit` | internal/inventory-service/client.go:69-83 | When no product is listed twice, the line-by-line check bounds the whole request by the stock |
| `Inventory.OversellsExactly` | internal/inventory-service/client.go:69-92 | An accepted request leaves a product between zero and its old level, lower by what was asked, iff the units summed over all its lines are between zero and that level |
| `Inventory.DuplicateLinesOversell` | internal/inventory-service/client.go:69-92 | Two lines of ten against a stock of fifteen are accepted and leave minus five |
| `Inventory.HugeQuantityGrowsStock` | internal/api-gateway/infra/adapters/service/order_service_grpc.go:35-39 | A quantity of 2^32-5 passes the gateway, arrives as minus five, and a reservation adds five units to an empty stock |
| `PaymentServer.Server.Charge` | internal/payment-service/app/client.go:33-70 | A cached order answers yes and changes nothing; otherwise payments and reply are those of `Payment.Charge` (an order already charged is yes without effect, an amount over 500 is no without effect), and the charge is offered to the cache iff it had an effect |
| `PaymentServer.Server.Refund` | internal/payment-service/app/client.go:72-99 | Always answers yes; payments are those of `Payment.Refund`, offered to the cache iff there was a payment to delete |
| `Payment.ChargeTakesExactly` | internal/payment-service/app/client.go:45-58 | Charge takes amounts of at most 500 from orders not yet charged, records them as they are, and answers yes to these and to orders already charged |
| `OrderServer.Server.CreateOrder` | internal/order-service/app/client.go:39-79 | A repeated key gets the stored order's ID, customer, items and total from cache or memory, with its present status unless the cache held an entry, which says PENDING, and stores nothing; otherwise a new pending order is stored; keys stay unique and cached orders stay copies of stored ones |
| `OrderServer.Server.CreateLocked` | internal/order-service/app/client.go:55-78 | The scan in any map order and the insertion amount to `Orders.Create`: an order with the key is answered as it stands, status included, and otherwise the new pending order with the fields of the request; at most the order's own create entry is written, and it is asked for iff an order with a key was made |
| `OrderServer.Server.CreateProbe` | internal/order-service/app/client.go:42-53 | A cached reply is the stored order with that key, with the status it was created with |
| `OrderServer.Server.UpdateOrderStatus` | internal/order-service/app/client.go:93-111 | Fails with no change for an unknown ID, otherwise writes the status of that order only |
| `Orders.ScanOrderIsIrrelevant` | internal/order-service/app/client.go:60-64 | While keys are unique, whichever order with the key the map iteration meets is the same one |
| `OrderServer.CachingKeepsAgreement` | internal/order-service/app/client.go:67-74 | Storing and caching a new order keeps every cached order a copy of a stored one |
| `OrderServer.ForeignWritesKeepAgreement` | internal/pkg/cache/redis.go:46-49 | No write by another service or under another operation disturbs the cached orders |
| `OrderServer.ExpiryKeepsAgreement` | internal/pkg/cache/redis.go:33-44 | Nor does the vanishing of any cache entries |
| `OrderServer.Server.CalculateTotal` | internal/order-service/adapters/grpc/mappers/order_mapper.go:73-79 | The accumulating loop computes the sum of quantity times unit price |
| `Items.GoodsAreWorthTheTotal` | internal/order-service/adapters/grpc/mappers/order_mapper.go:15-79 | The lines a saga reserves, at the order's prices, are worth the order's total |
| `Items.TotalAdds` | internal/order-service/adapters/grpc/mappers/order_mapper.go:73-79 | A total is quantity times price for one line, zero for none, and adds up over any cut of the lines |
| `Items.Int32Range` | internal/api-gateway/infra/adapters/service/order_service_grpc.go:35-39 | The conversion keeps exactly the numbers from -2147483648 to 2147483647, and is periodic |
| `Items.NarrowOnce` | internal/order-service/adapters/grpc/mappers/order_mapper.go:49-71 | After the first conversion to int32 the later conversions between int and int32 change nothing |
| `Gateway.Validate` | internal/api-gateway/infra/httpx/handler.go:55-71 | Accepts a request, with its items copied in order, iff the customer and the cart are not empty and every item has a product, a positive quantity and a positive price |
| `Gateway.ToOrderItems` | internal/api-gateway/infra/adapters/service/order_service_grpc.go:32-40 | Copies the items in order with quantities cut to int32 |
| `Gateway.ToStockLines` | internal/api-gateway/infra/httpx/handler.go:138-147 | Copies product and int32 quantity of every item in order |
| `Gateway.ReservedAsAskedExactly` | internal/api-gateway/infra/httpx/handler.go:61-71 | What the saga reserves for an accepted cart is what was asked iff every quantity is below 2^31 |
| `CacheKeys.GenerateKeyInjective` | internal/pkg/cache/redis.go:46-49 | For service and operation names without colons and any client keys, equal cache keys come from equal parts |
| `CacheKeys.KeyParts` | internal/pkg/cache/redis.go:46-49 | A cache key is the service name, the operation and the key, in this order, with colons between |
| `CacheKeys.NamespacesAreSeparate` | internal/pkg/cache/redis.go:46-49 | A write through one service, operation and key is visible there and nowhere else in the shared store |
| `CacheKeys.ColonsInNamesCollide` | internal/pkg/cache/redis.go:46-49 | With a colon in an operation name two different entries would share a cache key |
| `CacheKeys.Cache.Get` | internal/pkg/cache/redis.go:33-44 | Answers with the entry of its own service, operation and key, or with nothing, even when there is one (a failed call) |
| `CacheKeys.Cache.Set` | internal/pkg/cache/redis.go:29-31 | Writes that one entry or nothing; an error may come either way, success only after the write |
| `Timestamps.ParseOfFormat` | internal/coordinator/sagalog/sqlite/time.go:10-16 | Parsing the stored text of any valid UTC instant gives that instant back, to the nanosecond |
| `Timestamps.FormatOfParse` | internal/coordinator/sagalog/sqlite/repository.go:117 | A text that parses gives a valid instant, and is what that instant is stored as iff its fraction has at most nine digits and no trailing zero |
| `Timestamps.FieldsOfText` | internal/coordinator/sagalog/sqlite/repository.go:117 | The stored text of any valid instant is YYYY-MM-DDThh:mm:ss, then nothing or a point and one to nine digits of which the last is not zero, then Z, each field standing for its number |
| `Timestamps.CalendarExactly` | internal/coordinator/sagalog/sqlite/time.go:10-16 | An instant is valid if and only if its year is at most 9999, its month and time of day exist, and its day is counted before the first of the next month by the Gregorian day count |
| `Timestamps.TextOrderExactly` | internal/coordinator/sagalog/sqlite/repository.go:117 | For instants t before u, the text of t sorts before that of u iff they fall in different seconds or t's trimmed fraction is not a proper prefix of u's; otherwise it sorts after |
| `Timestamps.HalfSortsAfterFiftyOneHundredths` | internal/coordinator/sagalog/sqlite/repository.go:117 | Half a second past sorts after fifty-one hundredths |
| `SagaLog.LatestIsLastExactly` | internal/coordinator/sagalog/sqlite/repository.go:127-135 | Over non-decreasing instants, the query answers with the last row a saga appended iff no earlier row of the saga in the same second, at another instant, has a trimmed fraction that is a proper prefix of the last row's; equal instants are settled by id |
| `SagaLog.LatestIsAbove` | internal/coordinator/sagalog/sqlite/repository.go:133-134 | The row found is above every other row of the saga by text of updated_at, then id |
| `SagaLog.AboveIsLatest` | internal/coordinator/sagalog/sqlite/repository.go:133-134 | A row is the one found iff it is above all others of its saga |
| `SagaLog.OvershadowedIsMissed` | internal/coordinator/sagalog/sqlite/repository.go:22-23 | After an overshadowing row, a saga's next row is not found |
| `SagaLog.CompletedReadsAsStepDone` | internal/coordinator/sagalog/sqlite/repository.go:125-135 | A saga whose COMPLETED row follows the last STEP_DONE row by a hundredth of a second still reads as STEP_DONE |
| `SagaLog.LoadOfStore` | internal/coordinator/sagalog/sqlite/repository.go:102-163 | An entry read back is the entry saved, through the NULL payload and the text time |
| `SagaLog.Repository.Save` | internal/coordinator/sagalog/sqlite/repository.go:102-123 | Appends one row with the next id, or fails and leaves the table as it was |
| `SagaLog.Repository.GetLatest` | internal/coordinator/sagalog/sqlite/repository.go:127-163 | Not found iff the saga has no rows; the stored time always parses; the answer is a saved entry of the saga, the one the query puts first |

## Left out

- gRPC and HTTP transport, generated code, JSON, routing, start-up, telemetry and logging: a call is reduced to its outcome and effect, a cached order to a copy of the order, a list of error strings in a log row to the list itself.
- gRPC retries: none are configured.
- Service restarts and crash recovery: none is implemented. What a log would tell a recovery is `Orchestrator.LogTells`.
- Floating point: amounts are reals, without rounding, NaN or infinities.
- UUIDs are parameters assumed to be unused so far.
- Order statuses are the three that sagas write. PAID, SHIPPED and FAILED, and the fallback of mapStatusToProto for unknown names, are not modelled; nor are request IDs, creation times, and trace and span IDs.
- CreateOrderStep, fakeOrderService, GetOrder, the mapping of orders to HTTP responses and Repository.Open: not part of a saga, or only easy claims.
- Mutexes: a locked section is atomic. The order service updates a shared order through a pointer; here the map entry is replaced, so aliasing of that pointer is not captured.
- The texts stored in the cache: only the presence of an entry is ever looked at, except for cached orders.
- The mapper loops between identical field lists (mapItemsFromProto, mapProtoItemsToEntity) are the identity here, apart from the int32 conversions.
- SQLite and Redis internals: an append-only sequence of rows with byte-wise text comparison, and a map that may forget.
- Timestamps.ParseOfFormat: instants are calendar fields of years 0 to 9999, compared field by field; leap seconds and calendar arithmetic are not modelled.
- Timestamps.FormatOfParse: the parser is that of the stored form. It does not accept what Go's parser additionally does (zone offsets, a comma before the fraction, one-digit hours), since the table never holds such texts.
- InventoryServer.Server.Reserve: the class method runs its cache probe and locked section with nothing in between, and so do Release, Charge, Refund and CreateOrder; what may happen in between is in `Protocol`.
- CacheKeys.Cache.Set: a write that fails silently and a write never asked for leave the same store, so the record `asked` of attempted writes tells them apart.
- Requests.AtomicityBreaksExactly: for requests that list distinct products in 32-bit quantities. For other requests the bad runs exist as well (`Requests.SharedKeyLeaks`), and so do the good ones with distinct keys (`Atomicity.GlobalAtomicity`); but for a shared key, stock that other requests create out of wrapped quantities could serve what the initial stock could not.
- Backing.GoodsBackedExactly: for the same requests, as are `Backing.MoneyBackedExactly` and `FaultlessRuns.FaultlessBreaksExactly`; the bad runs of `FaultlessRuns.OverLimitLeaksWithoutFaults` exist for any valid requests.
- Orchestrator.SurvivorsTellExactly: for steps with different names, as those of the order saga are; the orchestrator itself does not ask for that.
- OrderSteps.SagaRestoresExactly: calls of the services without their caches, and the error texts without the wrapped cause; a confirmation refused without an error (internal/coordinator/steps.go lines 149-151) does not occur, since the service always answers success; caches and interleaving are in `Protocol`.
- Progress.BoundedProgress: bounds the number of moves; that each enabled move is eventually made is up to the scheduler.
