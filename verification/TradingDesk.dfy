/** The engine together with the portfolio its fill callback books into. */
module TradingDesk {
  import opened Domain
  import opened Execution
  import opened Accounting

  /** `raised` means the portfolio refused a fill: the exception ends the event loop. */
  datatype Desk = Desk(engine: Engine, ledger: Ledger, raised: bool)

  predicate ValidEvent(ev: Event) {
    ev.FillEvent? ==> ev.fill.Valid()
  }

  predicate ValidEvents(events: seq<Event>) {
    forall i :: 0 <= i < |events| ==> ValidEvent(events[i])
  }

  function DeliverOne(d: Desk, ev: Event): Desk
    requires ValidEvent(ev)
  {
    if d.raised then d
    else
      var (e, booked) := Deliver(d.engine, ev);
      if booked.None? || !booked.value.Valid() then d.(engine := e)
      else
        var r := Accounting.ApplyFill(d.ledger, booked.value);
        if r.Ok? then Desk(e, r.value, false) else Desk(e, d.ledger, true)
  }

  function DeliverAll(d: Desk, events: seq<Event>): Desk
    requires ValidEvents(events)
    decreases |events|
  {
    if events == [] then d else DeliverAll(DeliverOne(d, events[0]), events[1..])
  }
}
