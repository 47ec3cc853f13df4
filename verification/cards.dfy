/** CardController: registering, renaming, removing and looking up cards.
    Registering a card also gives it a wallet at balance 0; removing it
    removes the wallet too. Every uid is upper-cased before it is used. */
module Cards {
  import opened Wrappers
  import opened Text
  import opened Schemas
  import opened Store

  /** 400 "uid is required", 409 "Card already exists" (with the existing
      card), 404 "Card not found". */
  datatype CardError = MissingUid | AlreadyExists(card: Card) | NotFound

  /** POST /api/cards. */
  function CreateCard(d: Db, uid: Option<string>, name: Option<string>): (o: Outcome<Result<Card, CardError>>)
    ensures !Present(uid) ==> o == Outcome(d, Failure(MissingUid))
    ensures Present(uid) && ToUpper(uid.value) in d.cards ==>
      o == Outcome(d, Failure(AlreadyExists(d.cards[ToUpper(uid.value)])))
    ensures Present(uid) && ToUpper(uid.value) !in d.cards ==>
      var key := ToUpper(uid.value);
      && o.response.Success?
      && o.response.value.uid == key
      && o.response.value.name == (if name.Some? then name.value else DefaultCardName)
      && o.db == d.(cards := d.cards[key := o.response.value], wallets := d.wallets[key := Wallet(key, 0)])
    ensures DbValid(d) ==> DbValid(o.db)
  {
    if !Present(uid) then Outcome(d, Failure(MissingUid))
    else
      var key := ToUpper(uid.value);
      if key in d.cards then Outcome(d, Failure(AlreadyExists(d.cards[key])))
      else
        var card := NewCard(uid.value, name).Extract();
        var wallet := NewWallet(key).Extract();
        Outcome(d.(cards := d.cards[key := card], wallets := d.wallets[key := wallet]), Success(card))
  }

  /** PUT /api/cards/:uid. Only the name changes; an absent name in the body
      leaves the card as it is. */
  function UpdateCard(d: Db, uid: string, name: Option<string>): (o: Outcome<Result<Card, CardError>>)
    ensures ToUpper(uid) !in d.cards ==> o == Outcome(d, Failure(NotFound))
    ensures ToUpper(uid) in d.cards ==>
      var key := ToUpper(uid);
      && o.response.Success?
      && o.response.value.uid == d.cards[key].uid
      && o.response.value.name == (if name.Some? then name.value else d.cards[key].name)
      && o.db == d.(cards := d.cards[key := o.response.value])
    ensures DbValid(d) ==> DbValid(o.db)
  {
    var key := ToUpper(uid);
    if key !in d.cards then Outcome(d, Failure(NotFound))
    else
      var current := d.cards[key];
      var card := if name.Some? then current.(name := name.value) else current;
      Outcome(d.(cards := d.cards[key := card]), Success(card))
  }

  /** DELETE /api/cards/:uid. Always succeeds, replying with the normalised uid. */
  function DeleteCard(d: Db, uid: string): (o: Outcome<string>)
    ensures o.response == ToUpper(uid)
    ensures o.response !in o.db.cards && o.response !in o.db.wallets
    ensures o.db == d.(cards := d.cards - {o.response}, wallets := d.wallets - {o.response})
    ensures DbValid(d) ==> DbValid(o.db)
  {
    var key := ToUpper(uid);
    Outcome(d.(cards := d.cards - {key}, wallets := d.wallets - {key}), key)
  }

  /** Every card has a wallet and every wallet a card. */
  predicate Paired(d: Db)
  {
    d.cards.Keys == d.wallets.Keys
  }

  /** Registering, renaming and removing cards keep cards and wallets paired. */
  lemma CardOperationsKeepPairing(d: Db, uid: Option<string>, key: string, name: Option<string>)
    requires Paired(d)
    ensures Paired(CreateCard(d, uid, name).db)
    ensures Paired(UpdateCard(d, key, name).db)
    ensures Paired(DeleteCard(d, key).db)
  {
  }

  class CardController {
    const db: Database

    constructor (db: Database)
      ensures this.db == db
    {
      this.db := db;
    }

    /** GET /api/cards/:uid. */
    method GetByUid(uid: string) returns (r: Result<Card, CardError>)
      requires db.Valid()
      ensures r.Success? <==> ToUpper(uid) in db.cards
      ensures r.Success? ==> r.value == db.cards[ToUpper(uid)] && r.value.uid == ToUpper(uid)
      ensures r.Failure? ==> r.error == NotFound
    {
      var key := ToUpper(uid);
      if key !in db.cards {
        return Failure(NotFound);
      }
      r := Success(db.cards[key]);
    }

    /** POST /api/cards. */
    method Create(uid: Option<string>, name: Option<string>) returns (r: Result<Card, CardError>)
      requires db.Valid()
      modifies db
      ensures db.Valid()
      ensures var o := CreateCard(old(db.State()), uid, name);
        r == o.response && db.State() == o.db
    {
      if !Present(uid) {
        return Failure(MissingUid);
      }
      var key := ToUpper(uid.value);
      if key in db.cards {
        return Failure(AlreadyExists(db.cards[key]));
      }
      var card := NewCard(uid.value, name).Extract();
      db.cards := db.cards[key := card];
      // the wallet is upserted: created at 0, or reset to 0 if one was left over
      db.wallets := db.wallets[key := Wallet(key, 0)];
      r := Success(card);
    }

    /** PUT /api/cards/:uid. */
    method Update(uid: string, name: Option<string>) returns (r: Result<Card, CardError>)
      requires db.Valid()
      modifies db
      ensures db.Valid()
      ensures var o := UpdateCard(old(db.State()), uid, name);
        r == o.response && db.State() == o.db
    {
      var key := ToUpper(uid);
      if key !in db.cards {
        return Failure(NotFound);
      }
      var card := db.cards[key];
      if name.Some? {
        card := card.(name := name.value);
      }
      db.cards := db.cards[key := card];
      r := Success(card);
    }

    /** DELETE /api/cards/:uid. */
    method Delete(uid: string) returns (deleted: string)
      requires db.Valid()
      modifies db
      ensures db.Valid()
      ensures var o := DeleteCard(old(db.State()), uid);
        deleted == o.response && db.State() == o.db
    {
      deleted := ToUpper(uid);
      db.cards := db.cards - {deleted};
      db.wallets := db.wallets - {deleted};
    }
  }
}
