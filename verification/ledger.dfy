/** The reconciliation rules of TopupController, as transitions of its
    `balances` map (card uid to balance). A transition yields the new map,
    the dashboard events it emits and the top-up commands it publishes. */
module Ledger {
  import opened Wrappers

  /** What the dashboard receives over the push channel. */
  datatype Broadcast = BalanceUpdate(uid: string, balance: int) | CardStatus(uid: string, balance: int)

  /** What is published on the top-up topic for the hardware to write. */
  datatype TopupCommand = TopupCommand(uid: string, amount: int)

  /** A message on the balance topic: `balance` and `new_balance` are both optional. */
  datatype BalanceMessage = BalanceMessage(uid: Option<string>, balance: Option<int>, newBalance: Option<int>)

  /** A message on the status topic; the balance the hardware sends along is ignored. */
  datatype StatusMessage = StatusMessage(uid: Option<string>, balance: Option<int>)

  /** The body of a top-up request. */
  datatype TopupRequest = TopupRequest(uid: Option<string>, amount: Option<int>)

  /** The 400 reply "uid and amount are required". */
  datatype TopupError = UidAndAmountRequired

  datatype Effect = Effect(balances: map<string, int>, broadcasts: seq<Broadcast>, commands: seq<TopupCommand>)

  datatype TopupOutcome = TopupOutcome(effect: Effect, response: Result<int, TopupError>)

  /** `balances[uid] || 0`: the stored balance, 0 for an unseen card. */
  function Stored(m: map<string, int>, uid: string): int
  {
    if uid in m then m[uid] else 0
  }

  /** No key other than `uid` is added, removed or changed. */
  predicate OnlyTouches(m: map<string, int>, m': map<string, int>, uid: string)
  {
    && (forall k :: k in m && k != uid ==> k in m' && m'[k] == m[k])
    && (forall k :: k in m' && k != uid ==> k in m)
  }

  /** The balance a confirmation carries: `balance`, else `new_balance`. */
  function Reported(msg: BalanceMessage): (v: Option<int>)
    ensures msg.balance.Some? ==> v == msg.balance
    ensures msg.balance.None? ==> v == msg.newBalance
  {
    if msg.balance.Some? then msg.balance else msg.newBalance
  }

  /** A balance confirmation from the hardware. Without a uid it is dropped.
      Otherwise the reported balance, if there is one, becomes the stored
      balance of that uid, and the stored balance (0 when there is none) is
      broadcast; nothing is published. */
  function BalanceReport(m: map<string, int>, msg: BalanceMessage): (e: Effect)
    ensures !Present(msg.uid) ==> e == Effect(m, [], [])
    ensures Present(msg.uid) ==>
      var uid := msg.uid.value;
      && OnlyTouches(m, e.balances, uid)
      && (Reported(msg).Some? ==> uid in e.balances && e.balances[uid] == Reported(msg).value)
      && (Reported(msg).None? ==> e.balances == m)
      && e.broadcasts == [BalanceUpdate(uid, Stored(e.balances, uid))]
      && e.commands == []
  {
    if !Present(msg.uid) then Effect(m, [], [])
    else
      var uid := msg.uid.value;
      var m' := match Reported(msg) case Some(v) => m[uid := v] case None => m;
      Effect(m', [BalanceUpdate(uid, Stored(m', uid))], [])
  }

  /** A status report from the hardware. Without a uid it is dropped.
      Otherwise an unseen uid is entered at 0, an existing balance is kept
      whatever the hardware sent, and the backend's balance is broadcast. */
  function StatusReport(m: map<string, int>, msg: StatusMessage): (e: Effect)
    ensures !Present(msg.uid) ==> e == Effect(m, [], [])
    ensures Present(msg.uid) ==>
      var uid := msg.uid.value;
      && OnlyTouches(m, e.balances, uid)
      && uid in e.balances
      && e.balances[uid] == Stored(m, uid)
      && e.broadcasts == [CardStatus(uid, e.balances[uid])]
      && e.commands == []
  {
    if !Present(msg.uid) then Effect(m, [], [])
    else
      var uid := msg.uid.value;
      var m' := if uid in m then m else m[uid := 0];
      Effect(m', [CardStatus(uid, m'[uid])], [])
  }

  /** A top-up request. A missing uid or a missing or zero amount is refused
      with no effect (a negative amount is accepted). Otherwise the amount is
      added to the stored balance (0 for an unseen card) under the uid as
      given, one command carrying the requested amount is published, and
      the new balance is broadcast and returned. */
  function Topup(m: map<string, int>, req: TopupRequest): (o: TopupOutcome)
    ensures !(Present(req.uid) && NonZero(req.amount)) ==>
      o == TopupOutcome(Effect(m, [], []), Failure(UidAndAmountRequired))
    ensures Present(req.uid) && NonZero(req.amount) ==>
      var uid, amount := req.uid.value, req.amount.value;
      && OnlyTouches(m, o.effect.balances, uid)
      && uid in o.effect.balances
      && o.effect.balances[uid] == Stored(m, uid) + amount
      && o.effect.commands == [TopupCommand(uid, amount)]
      && o.effect.broadcasts == [BalanceUpdate(uid, Stored(m, uid) + amount)]
      && o.response == Success(Stored(m, uid) + amount)
  {
    if !Present(req.uid) || !NonZero(req.amount) then
      TopupOutcome(Effect(m, [], []), Failure(UidAndAmountRequired))
    else
      var uid, amount := req.uid.value, req.amount.value;
      var after := Stored(m, uid) + amount;
      TopupOutcome(Effect(m[uid := after], [BalanceUpdate(uid, after)], [TopupCommand(uid, amount)]),
                   Success(after))
  }

  /** Replaying a confirmation is harmless: the second application leaves
      the map as the first left it and broadcasts the same payload. */
  lemma BalanceReportIdempotent(m: map<string, int>, msg: BalanceMessage)
    ensures var once := BalanceReport(m, msg);
      var twice := BalanceReport(once.balances, msg);
      twice.balances == once.balances && twice.broadcasts == once.broadcasts
  {
  }

  /** The balance carried in a status report has no influence at all. */
  lemma StatusIgnoresHardwareBalance(m: map<string, int>, uid: Option<string>, b1: Option<int>, b2: Option<int>)
    ensures StatusReport(m, StatusMessage(uid, b1)) == StatusReport(m, StatusMessage(uid, b2))
  {
  }

  /** A negative amount is not refused: the top-up succeeds and lowers the
      balance, so it can leave a balance below zero. */
  lemma NegativeTopupAccepted(m: map<string, int>, uid: string, amount: int)
    requires uid != "" && amount < 0
    ensures var o := Topup(m, TopupRequest(Some(uid), Some(amount)));
      && o.response == Success(Stored(m, uid) + amount)
      && uid in o.effect.balances
      && o.effect.balances[uid] < Stored(m, uid)
      && (Stored(m, uid) < -amount ==> o.effect.balances[uid] < 0)
  {
  }

  /** The events the controller reacts to. */
  datatype Input = BalanceIn(msg: BalanceMessage) | StatusIn(status: StatusMessage) | TopupIn(req: TopupRequest)

  function Step(m: map<string, int>, input: Input): Effect
  {
    match input
    case BalanceIn(msg) => BalanceReport(m, msg)
    case StatusIn(status) => StatusReport(m, status)
    case TopupIn(req) => Topup(m, req).effect
  }

  /** The controller processing `inputs` one at a time, in order, as the
      single event loop does. */
  function Replay(m: map<string, int>, inputs: seq<Input>): Effect
    decreases |inputs|
  {
    if inputs == [] then Effect(m, [], [])
    else
      var first := Step(m, inputs[0]);
      var rest := Replay(first.balances, inputs[1..]);
      Effect(rest.balances, first.broadcasts + rest.broadcasts, first.commands + rest.commands)
  }

  /** However many status reports arrive, with whatever balances, no existing
      balance changes, every new entry is 0 and nothing is published. */
  lemma {:induction false} StatusReportsKeepBalances(m: map<string, int>, inputs: seq<Input>)
    requires forall i :: 0 <= i < |inputs| ==> inputs[i].StatusIn?
    ensures var r := Replay(m, inputs).balances;
      && (forall k :: k in m ==> k in r && r[k] == m[k])
      && (forall k :: k in r && k !in m ==> r[k] == 0)
    ensures Replay(m, inputs).commands == []
    decreases |inputs|
  {
    if inputs != [] {
      var first := Step(m, inputs[0]);
      StatusReportsKeepBalances(first.balances, inputs[1..]);
    }
  }

  function Sum(amounts: seq<int>): int
  {
    if amounts == [] then 0 else amounts[0] + Sum(amounts[1..])
  }

  /** Top-up requests for one card, one per amount, in order. */
  function TopupsFor(uid: string, amounts: seq<int>): (inputs: seq<Input>)
    ensures |inputs| == |amounts|
  {
    seq(|amounts|, i requires 0 <= i < |amounts| => TopupIn(TopupRequest(Some(uid), Some(amounts[i]))))
  }

  /** A run of top-ups on one card ends at the starting balance plus the sum
      of the amounts (a zero amount is refused, which adds nothing), and no
      other card's balance moves: no top-up is lost. */
  lemma {:induction false} TopupsAccumulate(m: map<string, int>, uid: string, amounts: seq<int>)
    requires uid != ""
    ensures var r := Replay(m, TopupsFor(uid, amounts)).balances;
      && Stored(r, uid) == Stored(m, uid) + Sum(amounts)
      && OnlyTouches(m, r, uid)
      && (uid in r <==> uid in m || exists i :: 0 <= i < |amounts| && amounts[i] != 0)
    decreases |amounts|
  {
    if amounts != [] {
      var inputs := TopupsFor(uid, amounts);
      assert inputs[1..] == TopupsFor(uid, amounts[1..]);
      var first := Step(m, inputs[0]);
      TopupsAccumulate(first.balances, uid, amounts[1..]);
    }
  }

  /** Two top-ups on the same card settle at the same map in either order. */
  lemma TopupsCommute(m: map<string, int>, uid: string, a: int, b: int)
    requires uid != ""
    ensures Replay(m, TopupsFor(uid, [a, b])).balances == Replay(m, TopupsFor(uid, [b, a])).balances
  {
    TopupsAccumulate(m, uid, [a, b]);
    TopupsAccumulate(m, uid, [b, a]);
    var r1 := Replay(m, TopupsFor(uid, [a, b])).balances;
    var r2 := Replay(m, TopupsFor(uid, [b, a])).balances;
    assert (exists i :: 0 <= i < 2 && [a, b][i] != 0) <==> (exists i :: 0 <= i < 2 && [b, a][i] != 0) by {
      assert [a, b][0] == [b, a][1] && [a, b][1] == [b, a][0];
    }
    assert r1.Keys == r2.Keys;
  }
}
