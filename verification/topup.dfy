/** TopupController as an object: its `balances` map is updated in place by
    the two hardware handlers and by the top-up endpoint, each of which then
    emits to the dashboard. The dashboard push channel and the MQTT client
    are represented only by what was sent through them. Saving the map to
    its JSON file is a no-op here. */
module Topup {
  import opened Wrappers
  import opened Ledger

  /** The Socket.IO server: everything emitted to dashboards, in order. */
  class Dashboard {
    ghost var events: seq<Broadcast>

    constructor ()
      ensures events == []
    {
      events := [];
    }

    method Emit(e: Broadcast)
      modifies this
      ensures events == old(events) + [e]
    {
      events := events + [e];
    }
  }

  /** The MQTT client: every top-up command published, in order. */
  class MqttService {
    ghost var published: seq<TopupCommand>

    constructor ()
      ensures published == []
    {
      published := [];
    }

    method PublishTopup(uid: string, amount: int)
      modifies this
      ensures published == old(published) + [TopupCommand(uid, amount)]
    {
      published := published + [TopupCommand(uid, amount)];
    }
  }

  class TopupController {
    var balances: map<string, int>
    const mqtt: MqttService
    const io: Dashboard

    /** `stored` is whatever the balance file held when the controller started. */
    constructor (mqtt: MqttService, io: Dashboard, stored: map<string, int>)
      ensures this.mqtt == mqtt && this.io == io && balances == stored
    {
      this.mqtt := mqtt;
      this.io := io;
      balances := stored;
    }

    /** Handler for the balance topic. */
    method OnBalance(msg: BalanceMessage)
      modifies this, io
      ensures var e := BalanceReport(old(balances), msg);
        balances == e.balances && io.events == old(io.events) + e.broadcasts
    {
      if !Present(msg.uid) {
        return;
      }
      var uid := msg.uid.value;
      var reported := if msg.balance.Some? then msg.balance else msg.newBalance;
      if reported.Some? {
        balances := balances[uid := reported.value];
      }
      var shown := if uid in balances then balances[uid] else 0;
      io.Emit(BalanceUpdate(uid, shown));
    }

    /** Handler for the status topic. */
    method OnStatus(msg: StatusMessage)
      modifies this, io
      ensures var e := StatusReport(old(balances), msg);
        balances == e.balances && io.events == old(io.events) + e.broadcasts
    {
      if !Present(msg.uid) {
        return;
      }
      var uid := msg.uid.value;
      if uid !in balances {
        balances := balances[uid := 0];
      }
      io.Emit(CardStatus(uid, balances[uid]));
    }

    /** POST /topup: the reply is the new balance or the 400 error. */
    method Topup(req: TopupRequest) returns (r: Result<int, TopupError>)
      modifies this, io, mqtt
      ensures var o := Ledger.Topup(old(balances), req);
        && r == o.response
        && balances == o.effect.balances
        && io.events == old(io.events) + o.effect.broadcasts
        && mqtt.published == old(mqtt.published) + o.effect.commands
    {
      if !Present(req.uid) || !NonZero(req.amount) {
        return Failure(UidAndAmountRequired);
      }
      var uid, amount := req.uid.value, req.amount.value;
      if uid !in balances {
        balances := balances[uid := 0];
      }
      balances := balances[uid := balances[uid] + amount];
      mqtt.PublishTopup(uid, amount);
      io.Emit(BalanceUpdate(uid, balances[uid]));
      r := Success(balances[uid]);
    }
  }
}
