/** The energy ledger of a general user: a guarded debit of the user's energy
    balance that leaves a consumption record behind, and the read-only check
    callers make before it. */
module Energy {

  type UserId = string

  /** One EnergyConsumptionRecord row: whose energy, spent on which
      marketplace item, and how much. */
  datatype ConsumptionRecord = ConsumptionRecord(user: UserId, marketplaceItem: string, energyConsumed: int)

  /** The user's balance together with the records of what was consumed. */
  datatype Ledger = Ledger(value: int, records: seq<ConsumptionRecord>)

  /** How a call to the debit ends as the code is written. */
  datatype DebitOutcome = Debited(ok: bool) | RaisedAfterDebit(message: string)

  /** Total energy consumed according to the records. */
  function Consumed(records: seq<ConsumptionRecord>): int
  {
    if records == [] then 0 else records[0].energyConsumed + Consumed(records[1..])
  }

  /** What the ledger accounts for: the balance plus everything recorded as spent. */
  function Total(l: Ledger): int
  {
    l.value + Consumed(l.records)
  }

  lemma {:induction false} ConsumedAppend(records: seq<ConsumptionRecord>, r: ConsumptionRecord)
    ensures Consumed(records + [r]) == Consumed(records) + r.energyConsumed
  {
    if records != [] {
      assert (records + [r])[1..] == records[1..] + [r];
      ConsumedAppend(records[1..], r);
    }
  }

  /** `check_can_consume_energy`: does the balance cover the cost? */
  function CanConsume(l: Ledger, cost: int): bool
  {
    l.value >= cost
  }

  /** `consume_energy` with the record it evidently means to create: on
      success the balance drops by exactly the cost and exactly one record of
      that cost is appended; otherwise nothing changes. */
  function Consume(l: Ledger, user: UserId, item: string, cost: int): (r: (bool, Ledger))
    ensures r.0 <==> CanConsume(l, cost)
    ensures r.0 ==> r.1.value == l.value - cost
    ensures r.0 ==> r.1.records == l.records + [ConsumptionRecord(user, item, cost)]
    ensures !r.0 ==> r.1 == l
    ensures Total(r.1) == Total(l)
    ensures l.value >= 0 ==> r.1.value >= 0
  {
    if l.value >= cost then
      ConsumedAppend(l.records, ConsumptionRecord(user, item, cost));
      (true, Ledger(l.value - cost, l.records + [ConsumptionRecord(user, item, cost)]))
    else
      (false, l)
  }

  /** `consume_energy` as written: the balance is updated first, then
      `EnergyConsumptionRecord.create!` is given a `chatbot` attribute the
      record does not have, so it raises and no record is created. */
  function ConsumeAsWritten(l: Ledger, cost: int): (r: (DebitOutcome, Ledger))
    ensures CanConsume(l, cost) ==> r.0.RaisedAfterDebit? && r.1 == Ledger(l.value - cost, l.records)
    ensures !CanConsume(l, cost) ==> r.0 == Debited(false) && r.1 == l
  {
    if l.value >= cost then
      (RaisedAfterDebit("unknown attribute 'chatbot' for EnergyConsumptionRecord."), Ledger(l.value - cost, l.records))
    else
      (Debited(false), l)
  }

  /** As written, a successful debit of a positive cost loses energy from the
      books: the balance drops but nothing records the spending. */
  lemma AsWrittenLosesEnergy()
    ensures Total(ConsumeAsWritten(Ledger(10, []), 3).1) == 7
    ensures Total(Consume(Ledger(10, []), "u", "item", 3).1) == 10
  {
  }

  /** A sequence of debits, each of (marketplace item, cost). */
  function ConsumeAll(l: Ledger, user: UserId, calls: seq<(string, int)>): Ledger
    decreases |calls|
  {
    if calls == [] then l
    else ConsumeAll(Consume(l, user, calls[0].0, calls[0].1).1, user, calls[1..])
  }

  /** Conservation: balance plus recorded consumption is the same after any
      sequence of debits, and a non-negative balance stays non-negative. */
  lemma {:induction false} ConsumeAllConserves(l: Ledger, user: UserId, calls: seq<(string, int)>)
    ensures Total(ConsumeAll(l, user, calls)) == Total(l)
    ensures l.value >= 0 ==> ConsumeAll(l, user, calls).value >= 0
    decreases |calls|
  {
    if calls != [] {
      ConsumeAllConserves(Consume(l, user, calls[0].0, calls[0].1).1, user, calls[1..]);
    }
  }

  /** The `energy` record a user has one of. */
  class EnergyAccount {
    var value: int
  }

  class GeneralUser {
    const id: UserId
    const energy: EnergyAccount
    /** The EnergyConsumptionRecord rows whose user is this user. */
    var records: seq<ConsumptionRecord>

    constructor (id: UserId, energy: EnergyAccount)
      ensures this.id == id && this.energy == energy && records == []
    {
      this.id := id;
      this.energy := energy;
      records := [];
    }

    function Snapshot(): Ledger
      reads this, energy
    {
      Ledger(energy.value, records)
    }

    /** `check_can_consume_energy`: reads the balance, changes nothing. */
    method CheckCanConsumeEnergy(chatbot: string, cost: int) returns (can: bool)
      ensures can == CanConsume(Snapshot(), cost)
      ensures can <==> Consume(Snapshot(), id, chatbot, cost).0
    {
      can := energy.value >= cost;
    }

    /** `consume_energy`, recording the marketplace item it is passed. */
    method ConsumeEnergy(item: string, cost: int) returns (ok: bool)
      modifies this, energy
      ensures (ok, Snapshot()) == Consume(old(Snapshot()), id, item, cost)
      ensures Total(Snapshot()) == Total(old(Snapshot()))
    {
      if energy.value >= cost {
        energy.value := energy.value - cost;
        records := records + [ConsumptionRecord(id, item, cost)];
        ok := true;
      } else {
        ok := false;
      }
    }
  }
}
