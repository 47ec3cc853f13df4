/** The persisted records: Transaction (Backend/src/models/Transaction.js),
    Wallet (Backend/src/models/Wallet.js) and Card, whose two fields are
    folded in here, plus the catalog entry a payment looks up.

    Each `New...` function plays the part of creating a document through its
    schema: the `uppercase` setter normalises the uid, a `default` fills an
    omitted field, and the `required` and `min` validators reject the
    document. */
module Schemas {
  import opened Wrappers
  import opened Text

  /** The `type` enum: a transaction is a top-up or a payment and nothing else. */
  datatype TxType = Topup | Payment

  datatype Transaction = Transaction(
    uid: string,
    kind: TxType,
    amount: int,
    balanceBefore: int,
    balanceAfter: int,
    productId: Option<string>,
    quantity: Option<int>,
    description: string)

  datatype Wallet = Wallet(uid: string, balance: int)

  datatype Card = Card(uid: string, name: string)

  /** A catalog entry, keyed by its id in the product table. */
  datatype Product = Product(name: string, price: int)

  /** Why a schema refuses a document. */
  datatype ValidationError = UidRequired | BalanceBelowMinimum

  const DefaultCardName: string := "Unknown Card"

  /** A uid as every schema stores it: present and upper-case. */
  predicate StoredUid(uid: string)
  {
    uid != "" && IsUpper(uid)
  }

  /** What a persisted wallet always satisfies: its uid is stored
      upper-case and its balance respects `min: 0`. */
  predicate WalletValid(w: Wallet)
  {
    StoredUid(w.uid) && w.balance >= 0
  }

  /** The ledger rule a transaction record carries: a payment lowers the
      balance by its amount, a top-up raises it by its amount. */
  predicate Balanced(tx: Transaction)
  {
    match tx.kind
    case Payment => tx.balanceAfter == tx.balanceBefore - tx.amount
    case Topup => tx.balanceAfter == tx.balanceBefore + tx.amount
  }

  predicate TransactionValid(tx: Transaction)
  {
    StoredUid(tx.uid) && Balanced(tx)
  }

  /** `Transaction.create(...)`: `productId` and `quantity` default to null
      and `description` to the empty string; an empty uid fails `required`;
      the uid is stored upper-case. */
  function NewTransaction(
    uid: string, kind: TxType, amount: int, balanceBefore: int, balanceAfter: int,
    productId: Option<string> := None, quantity: Option<int> := None,
    description: string := ""): (r: Result<Transaction, ValidationError>)
    ensures r.Success? <==> uid != ""
    ensures r.Success? ==>
      && StoredUid(r.value.uid)
      && r.value.uid == ToUpper(uid)
      && r.value.kind == kind
      && r.value.amount == amount
      && r.value.balanceBefore == balanceBefore
      && r.value.balanceAfter == balanceAfter
      && r.value.productId == productId
      && r.value.quantity == quantity
      && r.value.description == description
  {
    if uid == "" then Failure(UidRequired)
    else Success(Transaction(ToUpper(uid), kind, amount, balanceBefore, balanceAfter,
                             productId, quantity, description))
  }

  /** Omitted optional fields come out as null, null and "". */
  lemma TransactionDefaults(uid: string, kind: TxType, amount: int, before: int, after: int)
    requires uid != ""
    ensures var r := NewTransaction(uid, kind, amount, before, after);
      r.Success? && r.value.productId == None && r.value.quantity == None && r.value.description == ""
  {
  }

  /** Saving a wallet: the uid is required and upper-cased, the balance
      defaults to 0 and is refused below 0. */
  function NewWallet(uid: string, balance: int := 0): (r: Result<Wallet, ValidationError>)
    ensures r.Success? <==> uid != "" && balance >= 0
    ensures r.Success? ==> WalletValid(r.value) && r.value == Wallet(ToUpper(uid), balance)
    ensures uid == "" ==> r == Failure(UidRequired)
  {
    if uid == "" then Failure(UidRequired)
    else if balance < 0 then Failure(BalanceBelowMinimum)
    else Success(Wallet(ToUpper(uid), balance))
  }

  /** `Card.create({uid, name})`: the uid is required and upper-cased, an
      omitted name becomes "Unknown Card". */
  function NewCard(uid: string, name: Option<string>): (r: Result<Card, ValidationError>)
    ensures r.Success? <==> uid != ""
    ensures r.Success? ==> StoredUid(r.value.uid) && r.value.uid == ToUpper(uid)
    ensures r.Success? ==> r.value.name == (if name.Some? then name.value else DefaultCardName)
  {
    if uid == "" then Failure(UidRequired)
    else Success(Card(ToUpper(uid), match name case Some(n) => n case None => DefaultCardName))
  }
}
