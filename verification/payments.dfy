/** PaymentController.pay: buying `quantity` units of a catalog product with
    the balance of a card's wallet. On success the wallet is debited, one
    PAYMENT transaction is logged, TopupController's map is brought in line
    with the wallet and the new balance is pushed to dashboards. */
module Payments {
  import opened Wrappers
  import opened Text
  import opened Schemas
  import opened Store
  import opened Ledger
  import Topup

  /** The body of POST /api/payment. */
  datatype PayRequest = PayRequest(uid: Option<string>, productId: Option<string>, quantity: Option<int>)

  /** 400 "uid and productId are required", 404 "Product not found",
      404 "Wallet not found for this UID", 400 "Insufficient balance" with
      the balance and the amount required. */
  datatype PayError =
    | FieldsRequired
    | ProductNotFound
    | WalletNotFound
    | InsufficientBalance(balance: int, required: int)

  /** The 200 reply: the recorded transaction and the new balance. */
  datatype Receipt = Receipt(transaction: Transaction, newBalance: int)

  /** `quantity || 1`: an absent or zero quantity means one unit. */
  function Quantity(q: Option<int>): (n: int)
    ensures n != 0
    ensures NonZero(q) ==> n == q.value
    ensures !NonZero(q) ==> n == 1
  {
    if NonZero(q) then q.value else 1
  }

  function Description(qty: int, productName: string): string
  {
    "Purchased " + IntToString(qty) + "x " + productName
  }

  /** Both required fields are there, and the product and the wallet they
      name exist. */
  predicate Resolves(d: Db, req: PayRequest)
  {
    Present(req.uid) && Present(req.productId)
    && req.productId.value in d.products && ToUpper(req.uid.value) in d.wallets
  }

  function Cost(d: Db, req: PayRequest): int
    requires Resolves(d, req)
  {
    d.products[req.productId.value].price * Quantity(req.quantity)
  }

  function WalletOf(d: Db, req: PayRequest): Wallet
    requires Resolves(d, req)
  {
    d.wallets[ToUpper(req.uid.value)]
  }

  /** The purchase rule. The checks run in this order: required fields,
      product, wallet (under the upper-cased uid), funds; a refusal changes
      nothing. A purchase goes through exactly when everything resolves and
      the wallet holds at least price * quantity; then the wallet drops by
      that cost, never below zero, and exactly one PAYMENT record with the
      before/after pair is appended to the log. */
  function Purchase(d: Db, req: PayRequest): (o: Outcome<Result<Receipt, PayError>>)
    ensures o.response.Failure? ==> o.db == d
    ensures o.response == Failure(FieldsRequired) <==> !Present(req.uid) || !Present(req.productId)
    ensures o.response == Failure(ProductNotFound) <==>
      Present(req.uid) && Present(req.productId) && req.productId.value !in d.products
    ensures o.response == Failure(WalletNotFound) <==>
      Present(req.uid) && Present(req.productId) && req.productId.value in d.products
      && ToUpper(req.uid.value) !in d.wallets
    ensures o.response.Failure? && o.response.error.InsufficientBalance? <==>
      Resolves(d, req) && WalletOf(d, req).balance < Cost(d, req)
    ensures o.response.Failure? && o.response.error.InsufficientBalance? ==>
      o.response.error == InsufficientBalance(WalletOf(d, req).balance, Cost(d, req))
    ensures o.response.Success? <==> Resolves(d, req) && WalletOf(d, req).balance >= Cost(d, req)
    ensures o.response.Success? ==>
      var key, rc := ToUpper(req.uid.value), o.response.value;
      && rc.newBalance == WalletOf(d, req).balance - Cost(d, req)
      && rc.newBalance >= 0
      && rc.transaction == Transaction(key, Payment, Cost(d, req), WalletOf(d, req).balance, rc.newBalance,
                                       req.productId, Some(Quantity(req.quantity)),
                                       Description(Quantity(req.quantity), d.products[req.productId.value].name))
      && o.db == d.(wallets := d.wallets[key := Wallet(key, rc.newBalance)],
                    transactions := d.transactions + [rc.transaction])
    ensures DbValid(d) ==> DbValid(o.db)
  {
    if !Present(req.uid) || !Present(req.productId) then Outcome(d, Failure(FieldsRequired))
    else
      var qty := Quantity(req.quantity);
      var productId := req.productId.value;
      if productId !in d.products then Outcome(d, Failure(ProductNotFound))
      else
        var product := d.products[productId];
        var totalCost := product.price * qty;
        var key := ToUpper(req.uid.value);
        if key !in d.wallets then Outcome(d, Failure(WalletNotFound))
        else
          var before := d.wallets[key].balance;
          if before < totalCost then Outcome(d, Failure(InsufficientBalance(before, totalCost)))
          else
            var after := before - totalCost;
            var tx := NewTransaction(key, Payment, totalCost, before, after,
                                     Some(productId), Some(qty), Description(qty, product.name)).Extract();
            Outcome(d.(wallets := d.wallets[key := Wallet(key, after)], transactions := d.transactions + [tx]),
                    Success(Receipt(tx, after)))
  }

  /** The payment's description names the quantity bought, and that
      quantity can be read back from it. */
  lemma DescriptionNamesQuantity(qty: int, productName: string)
    ensures var s := Description(qty, productName);
      var digits := IntToString(qty);
      s[10..10 + |digits|] == digits && ParseInt(s[10..10 + |digits|]) == qty
  {
    IntToStringRoundTrip(qty);
  }

  class PaymentController {
    const topup: Topup.TopupController
    const io: Topup.Dashboard
    const db: Database

    constructor (topup: Topup.TopupController, io: Topup.Dashboard, db: Database)
      ensures this.topup == topup && this.io == io && this.db == db
    {
      this.topup := topup;
      this.io := io;
      this.db := db;
    }

    /** POST /api/payment. */
    method Pay(req: PayRequest) returns (r: Result<Receipt, PayError>)
      requires db.Valid()
      modifies db, topup, io
      ensures db.Valid()
      ensures var o := Purchase(old(db.State()), req);
        r == o.response && db.State() == o.db
      ensures r.Failure? ==> topup.balances == old(topup.balances) && io.events == old(io.events)
      ensures r.Success? ==>
        var key := r.value.transaction.uid;
        && topup.balances == old(topup.balances)[key := r.value.newBalance]
        && io.events == old(io.events) + [BalanceUpdate(key, r.value.newBalance)]
    {
      if !Present(req.uid) || !Present(req.productId) {
        return Failure(FieldsRequired);
      }
      var qty := Quantity(req.quantity);
      var productId := req.productId.value;
      if productId !in db.products {
        return Failure(ProductNotFound);
      }
      var product := db.products[productId];
      var totalCost := product.price * qty;
      var key := ToUpper(req.uid.value);
      if key !in db.wallets {
        return Failure(WalletNotFound);
      }
      var wallet := db.wallets[key];
      if wallet.balance < totalCost {
        return Failure(InsufficientBalance(wallet.balance, totalCost));
      }
      var balanceBefore := wallet.balance;
      wallet := wallet.(balance := wallet.balance - totalCost);
      db.wallets := db.wallets[key := wallet];
      var tx := NewTransaction(key, Payment, totalCost, balanceBefore, wallet.balance,
                               Some(productId), Some(qty), Description(qty, product.name)).Extract();
      db.transactions := db.transactions + [tx];
      topup.balances := topup.balances[key := wallet.balance];
      io.Emit(BalanceUpdate(key, wallet.balance));
      r := Success(Receipt(tx, wallet.balance));
    }
  }
}
