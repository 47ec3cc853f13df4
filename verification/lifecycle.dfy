/** The store under any sequence of card and payment requests, accepted or
    refused: the tables stay well formed, so no wallet balance ever drops
    below zero, and the transaction log only grows at its end. */
module Lifecycle {
  import opened Wrappers
  import opened Schemas
  import opened Store
  import opened Cards
  import opened Payments

  datatype Request =
    | RegisterCard(uid: Option<string>, name: Option<string>)
    | RenameCard(key: string, newName: Option<string>)
    | RemoveCard(key: string)
    | Buy(req: PayRequest)

  function Apply(d: Db, r: Request): Db
  {
    match r
    case RegisterCard(uid, name) => CreateCard(d, uid, name).db
    case RenameCard(key, name) => UpdateCard(d, key, name).db
    case RemoveCard(key) => DeleteCard(d, key).db
    case Buy(req) => Purchase(d, req).db
  }

  function Run(d: Db, rs: seq<Request>): Db
    decreases |rs|
  {
    if rs == [] then d else Run(Apply(d, rs[0]), rs[1..])
  }

  /** Starting from a well-formed store, every sequence of requests leaves a
      well-formed store: every wallet balance is at least zero, each uid has
      at most one wallet, and every logged transaction balances. */
  lemma {:induction false} RunKeepsValid(d: Db, rs: seq<Request>)
    requires DbValid(d)
    // DbValid includes WalletsValid, hence a balance of at least 0 in every wallet
    ensures DbValid(Run(d, rs))
    decreases |rs|
  {
    if rs != [] {
      RunKeepsValid(Apply(d, rs[0]), rs[1..]);
    }
  }

  /** The transaction log is an audit trail: records are only appended, and
      the ones already there are never changed or removed. */
  lemma {:induction false} RunOnlyAppends(d: Db, rs: seq<Request>)
    ensures |d.transactions| <= |Run(d, rs).transactions|
    ensures Run(d, rs).transactions[..|d.transactions|] == d.transactions
    decreases |rs|
  {
    if rs != [] {
      var next := Apply(d, rs[0]);
      assert next.transactions[..|d.transactions|] == d.transactions;
      RunOnlyAppends(next, rs[1..]);
    }
  }

  /** Every record appended by a run of requests is a PAYMENT: nothing in
      these handlers writes a TOPUP record. */
  lemma {:induction false} RunAppendsOnlyPayments(d: Db, rs: seq<Request>)
    ensures |d.transactions| <= |Run(d, rs).transactions|
    ensures forall i :: |d.transactions| <= i < |Run(d, rs).transactions| ==>
      Run(d, rs).transactions[i].kind == Payment
    decreases |rs|
  {
    if rs != [] {
      var next := Apply(d, rs[0]);
      assert forall i :: |d.transactions| <= i < |next.transactions| ==> next.transactions[i].kind == Payment;
      RunAppendsOnlyPayments(next, rs[1..]);
      RunOnlyAppends(next, rs[1..]);
      var log := Run(next, rs[1..]).transactions;
      assert forall i :: |d.transactions| <= i < |next.transactions| ==> log[i] == next.transactions[i] by {
        assert log[..|next.transactions|] == next.transactions;
      }
    }
  }
}
