# RFID card balance ledger — a Dafny model

This project models the balance-keeping core of an RFID top-up and payment
backend. Card readers report over MQTT, a dashboard receives Socket.IO
pushes, and an HTTP API takes top-ups, purchases and card registrations.

The model covers four parts:

- **TopupController.** It holds an in-memory map from card uid to balance and reacts to three events:
  - A *balance* report from the hardware overwrites the stored balance. It prefers `balance` over `new_balance` and broadcasts `balance_update`.
  - A *status* report enters an unseen card at 0 and never changes an existing balance. It ignores any balance the hardware sends and broadcasts `card_status` with the backend's value.
  - A *top-up* request adds the amount, publishes a `{uid, amount}` command to the hardware, and broadcasts the new balance.

  The class appears twice in the repository with the same logic: `src/controllers/topupController.js` and `Backend/server.js`. It is modelled once. The class, its methods and the lemmas about the map cite the first copy. The transition functions `Ledger.Reported`, `Ledger.BalanceReport`, `Ledger.StatusReport` and `Ledger.Topup` cite the second.
- **PaymentController.pay.** It validates the request, defaults the quantity to 1, looks up the product and then the wallet under the upper-cased uid, and rejects a purchase the wallet cannot cover. On success it debits the wallet, logs one PAYMENT transaction with the before/after pair, copies the new balance into TopupController's map, and broadcasts it.
- **CardController.** It registers cards (rejecting duplicates, and upserting a wallet at 0), renames them, deletes a card together with its wallet, and looks them up.
- **Schemas.** The Transaction, Wallet and Card records, with their defaults, the upper-case uid setter, and the `required` and `min: 0` validators.

Layout. There is one module per file:
- `wrappers.dfy`: Option and Result.
- `text.dfy`: `toUpperCase` and decimal rendering of integers.
- `schemas.dfy`: the records.
- `store.dfy`: the collections, as a `Db` value and as the `Database` object the controllers update in place.
- `ledger.dfy`: the TopupController rules as functions on the map, with replay lemmas.
- `topup.dfy`: the TopupController class, the dashboard channel and the MQTT client.
- `cards.dfy`: card handling.
- `payments.dfy`: the purchase rule.
- `lifecycle.dfy`: properties of arbitrary request sequences.

Each state-changing handler has two forms:
- A method on a class that updates the fields in place.
- A function on values that the method's postcondition is proved equal to.

The properties are proved about the functions.

Modelling conventions:
- **Truthiness.** A string field is truthy when present and non-empty. An integer field is truthy when present and non-zero.
- **Emitted events.** Broadcasts go to a ghost log on `Topup.Dashboard`. Published top-up commands go to a ghost log on `Topup.MqttService`.
- **Balances.** Balances, prices, amounts and quantities are `int` currency units.

## Model

| member | source | states |
|---|---|---|
| `Text.ToUpper` | Backend/src/controllers/paymentController.js:25 | upper-casing keeps the length, turns each letter a–z into its own capital, and leaves every other character (so upper-case strings) alone |
| `Text.ToUpperIgnoresCase` | Backend/src/controllers/cardController.js:32 | two uids that differ only in the case of ASCII letters upper-case to the same key, so they name the same card or wallet |
| `Text.ToUpperIdempotent` | Backend/src/controllers/paymentController.js:42 | re-upper-casing an already upper-cased uid (as the schema setter does) changes nothing |
| `Text.IntToString` | Backend/src/controllers/paymentController.js:49 | the rendering of the quantity starts with '-' exactly when it is negative |
| `Text.IntToStringRoundTrip` | Backend/src/controllers/paymentController.js:49 | the rendered quantity parses back to the same integer |
| `Schemas.NewTransaction` | Backend/src/models/Transaction.js:3-12 | a record is created exactly when the uid is non-empty; it is stored upper-case, and every other field is kept as given |
| `Schemas.TransactionDefaults` | Backend/src/models/Transaction.js:9-11 | an omitted productId and quantity become null, and an omitted description becomes "" |
| `Schemas.NewWallet` | Backend/src/models/Wallet.js:3-6 | a wallet is accepted exactly when the uid is non-empty and the balance is at least 0; the balance defaults to 0 and the uid is stored upper-case |
| `Schemas.NewCard` | Backend/src/models/Card.js:3-6 | a card needs a uid, which is stored upper-case; its name defaults to "Unknown Card" |
| `Ledger.Reported` | Backend/server.js:78 | `balance` wins when present, otherwise `new_balance` is used |
| `Ledger.BalanceReport` | Backend/server.js:73-86 | without a uid nothing happens; otherwise only that uid's entry may change. It takes the reported value if there is one, else the map is untouched, and one `balance_update` carries the stored value or 0 |
| `Ledger.StatusReport` | Backend/server.js:88-100 | without a uid nothing happens; otherwise the uid's balance is the old one, or 0 if unseen, no other key moves, and one `card_status` carries it |
| `Ledger.Topup` | Backend/server.js:122-136 | a missing uid or a missing or zero amount gives 400 with no effect. Otherwise the balance becomes old-or-0 plus the amount, and no other key moves. One `{uid, amount}` command is published, and the new balance is broadcast and returned |
| `Ledger.BalanceReportIdempotent` | src/controllers/topupController.js:25-33 | applying the same balance report twice gives the same map and the same `balance_update` payload as applying it once |
| `Ledger.StatusIgnoresHardwareBalance` | src/controllers/topupController.js:48-51 | the outcome of a status report does not depend on the balance the hardware sent |
| `Ledger.NegativeTopupAccepted` | src/controllers/topupController.js:79-85 | for every map, non-empty uid and negative amount, the top-up succeeds and lowers the stored balance, below zero when the amount exceeds it |
| `Ledger.StatusReportsKeepBalances` | src/controllers/topupController.js:43-51 | over any run of status reports, existing balances are unchanged, new entries are 0, and nothing is published |
| `Ledger.TopupsAccumulate` | src/controllers/topupController.js:84-85 | a run of top-ups on one card ends at the start balance plus the sum of the amounts, touches no other key, and creates the entry exactly when one amount is non-zero |
| `Ledger.TopupsCommute` | src/controllers/topupController.js:84-85 | two top-ups on one card lead to the same map in either order (no lost update) |
| `Topup.TopupController.constructor` | src/controllers/topupController.js:5-9 | the controller starts from the stored map and its MQTT client and dashboard channel |
| `Topup.TopupController.OnBalance` | src/controllers/topupController.js:18-34 | the map and the emitted events become exactly those of `Ledger.BalanceReport`, and nothing is published |
| `Topup.TopupController.OnStatus` | src/controllers/topupController.js:36-55 | the map and the emitted events become exactly those of `Ledger.StatusReport`, and nothing is published |
| `Topup.TopupController.Topup` | src/controllers/topupController.js:77-95 | the reply, map, emitted events and published commands are exactly those of `Ledger.Topup` |
| `Cards.CreateCard` | Backend/src/controllers/cardController.js:27-48 | a missing uid gives 400 and changes nothing. An existing upper-cased uid gives 409 with the existing card and changes nothing. Otherwise the card is added under the upper-cased uid with the given or default name, its wallet is set to balance 0 (created or reset), and the store stays well formed |
| `Cards.UpdateCard` | Backend/src/controllers/cardController.js:51-63 | an unknown uid gives 404 and changes nothing; otherwise only that card's name changes and the updated card is returned |
| `Cards.DeleteCard` | Backend/src/controllers/cardController.js:66-75 | the card and the wallet under the upper-cased uid are both gone afterwards, nothing else changes, and the call always succeeds |
| `Cards.CardOperationsKeepPairing` | Backend/src/controllers/cardController.js:35-71 | if every card has a wallet and every wallet a card, registering, renaming and deleting keep it so |
| `Cards.CardController.GetByUid` | Backend/src/controllers/cardController.js:16-24 | the lookup succeeds exactly when a card is filed under the upper-cased uid and returns that card; otherwise 404 |
| `Cards.CardController.Create` | Backend/src/controllers/cardController.js:27-48 | the reply and the new tables are exactly those of `Cards.CreateCard`; the store stays well formed |
| `Cards.CardController.Update` | Backend/src/controllers/cardController.js:51-63 | the reply and the new tables are exactly those of `Cards.UpdateCard` |
| `Cards.CardController.Delete` | Backend/src/controllers/cardController.js:66-75 | the reply and the new tables are exactly those of `Cards.DeleteCard` |
| `Payments.Quantity` | Backend/src/controllers/paymentController.js:18 | an absent or zero quantity becomes 1, and any other quantity is kept |
| `Payments.Purchase` | Backend/src/controllers/paymentController.js:12-50 | fields, then product, then wallet (upper-cased uid), then funds are checked, each refusal in exactly its case and with no change. Insufficient funds reports balance and price*quantity. Success happens exactly when the wallet covers the cost; the balance drops by the cost, stays at least 0, and one PAYMENT record holds cost, before/after, product, quantity and "Purchased {qty}x {name}" |
| `Payments.DescriptionNamesQuantity` | Backend/src/controllers/paymentController.js:49 | the quantity written into the description reads back as the quantity bought |
| `Payments.PaymentController.Pay` | Backend/src/controllers/paymentController.js:12-69 | the reply and tables are those of `Payments.Purchase`. A refusal leaves the top-up map and the dashboard untouched. A success sets the top-up map entry for the upper-cased uid to the new wallet balance and broadcasts one `balance_update` with it |
| `Lifecycle.RunKeepsValid` | Backend/src/models/Wallet.js:4-5 | after any sequence of card and payment requests, each uid has at most one wallet, no wallet balance is below 0, and every logged transaction balances |
| `Lifecycle.RunOnlyAppends` | Backend/src/controllers/paymentController.js:41-50 | the transaction log only grows at its end; existing records never change |
| `Lifecycle.RunAppendsOnlyPayments` | Backend/src/controllers/paymentController.js:43 | every record these handlers append is a PAYMENT; none writes a TOPUP record |

## Left out

- Transport and process plumbing is not modelled: the MQTT client (connecting, subscribing, JSON decoding of payloads), Socket.IO transport, Express routing and server start-up. A publish is an append to `MqttService.published`, and an emit is an append to `Dashboard.events`.
- The order of a publish relative to an emit is not kept: the two go to separate logs.
- Loading and saving `balances.json` is not modelled. The initial map is a constructor parameter, and a save changes nothing in the model. The source swallows errors from both.
- The catalog, wallet and transaction list controllers are not modelled. They only pass queries through, apart from upper-casing a uid. Products are a read-only table in the store.
- `Backend/src/controllers/topupController.js`, which `Backend/src/app.js` loads, is not part of this model. The top-up controller modelled here is the one in `src/controllers/topupController.js` and `Backend/server.js`. No modelled code writes a TOPUP transaction.
- Number handling is left out: `Number()` coercion, `NaN`, amounts sent as strings, and fractional or floating-point prices. Every amount, balance, price and quantity is an integer.
- `Ledger.BalanceReport`, `Ledger.StatusReport`, `Ledger.Topup`: the balance map is an own-property dictionary from string uids. In the source it is a plain JavaScript object. A uid naming an `Object.prototype` member (`toString`, `__proto__`, ...) there sees the inherited value: a status report inserts nothing, a top-up concatenates strings, and a `__proto__` assignment is ignored. A numeric uid in an MQTT message is coerced to a string key. The model assumes uids are strings that name no such member.
- Async interleaving is not modelled. Each handler runs to completion before the next starts, and `Ledger.Replay` is that serial order.
- The 500 branch is not modelled: database or cast errors, such as a malformed product id or a failed write.
- `Text.ToUpper`: only the ASCII letters a–z are mapped. JavaScript's full Unicode case mapping is not modelled, so this is weaker for non-ASCII uids.
- `Cards.UpdateCard`: when the request has no `name`, the card is left unchanged. This is what Mongoose 6 and later do with an `undefined` update key. Mongoose 5 would instead clear the name.
- `Store.Db`: record timestamps (`createdAt`, `updatedAt`) and Mongo `_id`s are not modelled. A product is identified by the key it is looked up under.
