/** The document store behind the card, wallet, transaction and product
    models: tables keyed by uid (or product id) and the append-only
    transaction log. */
module Store {
  import opened Schemas

  /** A snapshot of the four collections. */
  datatype Db = Db(
    cards: map<string, Card>,
    wallets: map<string, Wallet>,
    transactions: seq<Transaction>,
    products: map<string, Product>)

  /** Each card is filed under its own stored uid (uid is `unique`). */
  predicate CardsValid(cards: map<string, Card>)
  {
    forall k :: k in cards ==> StoredUid(k) && cards[k].uid == k
  }

  /** Each wallet is filed under its own uid, so there is at most one wallet
      per uid, and no balance is below zero. */
  predicate WalletsValid(wallets: map<string, Wallet>)
  {
    forall k :: k in wallets ==> WalletValid(wallets[k]) && wallets[k].uid == k
  }

  predicate LogValid(log: seq<Transaction>)
  {
    forall i :: 0 <= i < |log| ==> TransactionValid(log[i])
  }

  predicate DbValid(d: Db)
  {
    CardsValid(d.cards) && WalletsValid(d.wallets) && LogValid(d.transactions)
  }

  /** What a request handler leaves behind: the new snapshot and its reply. */
  datatype Outcome<R> = Outcome(db: Db, response: R)

  /** The live collections, which the controllers update in place. */
  class Database {
    var cards: map<string, Card>
    var wallets: map<string, Wallet>
    var transactions: seq<Transaction>
    var products: map<string, Product>

    function State(): Db
      reads this
    {
      Db(cards, wallets, transactions, products)
    }

    predicate Valid()
      reads this
    {
      DbValid(State())
    }

    /** Connecting to a store that already holds `initial`. */
    constructor (initial: Db)
      requires DbValid(initial)
      ensures Valid() && State() == initial
    {
      cards := initial.cards;
      wallets := initial.wallets;
      transactions := initial.transactions;
      products := initial.products;
    }
  }
}
