/**
  The inventory behind the actor: the four commands on a stock level and a table
  of reservations, their serial replay, and what is conserved by it.
*/
module Inventory {
  import opened Wrappers
  import opened Folds

  datatype StockSnapshot = StockSnapshot(sku: string, onHand: int, reserved: int, available: int)

  const NO_SNAPSHOT := StockSnapshot("", 0, 0, 0)

  datatype Error = EmptyOrder | BadQuantity | InsufficientStock | ExceedsReservation

  datatype CommandResult = CommandResult(snapshot: StockSnapshot, err: Option<Error>)

  datatype Command =
    | Reserve(orderId: string, quantity: int)
    | Release(orderId: string, quantity: int)
    | Restock(quantity: int)
    | Snapshot

  datatype Stock = Stock(sku: string, onHand: int, reservations: map<string, int>)

  // ----- the sum over the reservation table

  ghost function SumOver(m: map<string, int>, keys: set<string>): int
    requires keys <= m.Keys
    decreases keys
  {
    if keys == {} then 0
    else
      var k :| k in keys;
      m[k] + SumOver(m, keys - {k})
  }

  /** Any key may be taken first: the sum does not depend on the order of the range. */
  lemma {:induction false} TakeKey(m: map<string, int>, keys: set<string>, k: string)
    requires keys <= m.Keys && k in keys
    ensures SumOver(m, keys) == m[k] + SumOver(m, keys - {k})
    decreases keys
  {
    var first :| first in keys && SumOver(m, keys) == m[first] + SumOver(m, keys - {first});
    if first != k {
      TakeKey(m, keys - {first}, k);
      TakeKey(m, keys - {k}, first);
      assert keys - {first} - {k} == keys - {k} - {first};
    }
  }

  lemma {:induction false} SameSum(m: map<string, int>, m': map<string, int>, keys: set<string>)
    requires keys <= m.Keys && keys <= m'.Keys && forall k :: k in keys ==> m[k] == m'[k]
    ensures SumOver(m, keys) == SumOver(m', keys)
    decreases keys
  {
    if keys != {} {
      var k :| k in keys;
      TakeKey(m, keys, k);
      TakeKey(m', keys, k);
      SameSum(m, m', keys - {k});
    }
  }

  lemma {:induction false} SumOfPositives(m: map<string, int>, keys: set<string>)
    requires keys <= m.Keys && forall k :: k in keys ==> m[k] > 0
    ensures SumOver(m, keys) >= 0
    decreases keys
  {
    if keys != {} {
      var k :| k in keys;
      TakeKey(m, keys, k);
      SumOfPositives(m, keys - {k});
    }
  }

  ghost function Total(m: map<string, int>): int { SumOver(m, m.Keys) }

  function Entry(m: map<string, int>, k: string): int { if k in m then m[k] else 0 }

  /** Writing one entry moves the total by the change of that entry. */
  lemma TotalUpdate(m: map<string, int>, k: string, x: int)
    ensures Total(m[k := x]) == Total(m) - Entry(m, k) + x
  {
    var m' := m[k := x];
    TakeKey(m', m'.Keys, k);
    assert m'.Keys - {k} == m.Keys - {k};
    SameSum(m, m', m.Keys - {k});
    if k in m {
      TakeKey(m, m.Keys, k);
    } else {
      assert m.Keys - {k} == m.Keys;
    }
  }

  lemma TotalDelete(m: map<string, int>, k: string)
    requires k in m
    ensures Total(m - {k}) == Total(m) - m[k]
  {
    TakeKey(m, m.Keys, k);
    assert (m - {k}).Keys == m.Keys - {k};
    SameSum(m, m - {k}, m.Keys - {k});
  }

  // ----- the commands

  ghost function SnapshotOf(s: Stock): StockSnapshot {
    StockSnapshot(s.sku, s.onHand, Total(s.reservations), s.onHand - Total(s.reservations))
  }

  ghost function Refuse(s: Stock, err: Error): (Stock, CommandResult) {
    (s, CommandResult(NO_SNAPSHOT, Some(err)))
  }

  ghost function Run(s: Stock, c: Command): (Stock, CommandResult) {
    match c
    case Reserve(id, q) =>
      if id == "" then Refuse(s, EmptyOrder)
      else if q <= 0 then Refuse(s, BadQuantity)
      else if s.onHand - Total(s.reservations) < q then (s, CommandResult(SnapshotOf(s), Some(InsufficientStock)))
      else
        var t := s.(reservations := s.reservations[id := Entry(s.reservations, id) + q]);
        (t, CommandResult(SnapshotOf(t), None))
    case Release(id, q) =>
      if id == "" then Refuse(s, EmptyOrder)
      else if q <= 0 then Refuse(s, BadQuantity)
      else if Entry(s.reservations, id) < q then (s, CommandResult(SnapshotOf(s), Some(ExceedsReservation)))
      else
        var t := s.(reservations :=
                      if Entry(s.reservations, id) == q then s.reservations - {id}
                      else s.reservations[id := Entry(s.reservations, id) - q]);
        (t, CommandResult(SnapshotOf(t), None))
    case Restock(q) =>
      if q <= 0 then Refuse(s, BadQuantity)
      else
        var t := s.(onHand := s.onHand + q);
        (t, CommandResult(SnapshotOf(t), None))
    case Snapshot => (s, CommandResult(SnapshotOf(s), None))
  }

  /** Reservations are positive and together never exceed the stock. */
  ghost predicate Sound(s: Stock) {
    && (forall k :: k in s.reservations ==> s.reservations[k] > 0)
    && 0 <= Total(s.reservations) <= s.onHand
  }

  lemma RunSound(s: Stock, c: Command)
    requires Sound(s)
    ensures Sound(Run(s, c).0) && Run(s, c).0.sku == s.sku
  {
    var t := Run(s, c).0;
    match c {
      case Reserve(id, q) => TotalUpdate(s.reservations, id, Entry(s.reservations, id) + q);
      case Release(id, q) =>
        TotalUpdate(s.reservations, id, Entry(s.reservations, id) - q);
        if id in s.reservations {
          TotalDelete(s.reservations, id);
        }
      case _ =>
    }
    assert forall k :: k in t.reservations ==> t.reservations[k] > 0;
    SumOfPositives(t.reservations, t.reservations.Keys);
  }

  // ----- serial replay and its books

  /** A command that ran, for one caller, with the result it gave. */
  datatype LogEntry = LogEntry(caller: nat, command: Command, result: CommandResult)

  /** The stock after replaying the log from the start. */
  ghost function Replay(s: Stock, log: seq<LogEntry>): Stock {
    if log == [] then s else Run(Replay(s, log[..|log| - 1]), log[|log| - 1].command).0
  }

  /** Every result in the log is the one serial replay gives at that point. */
  ghost predicate Serial(s: Stock, log: seq<LogEntry>) {
    forall k :: 0 <= k < |log| ==> log[k].result == Run(Replay(s, log[..k]), log[k].command).1
  }

  function Took(id: string): LogEntry -> nat {
    (e: LogEntry) =>
      if e.command.Reserve? && e.command.orderId == id && e.result.err.None? && e.command.quantity > 0
      then e.command.quantity else 0
  }

  function Gave(id: string): LogEntry -> nat {
    (e: LogEntry) =>
      if e.command.Release? && e.command.orderId == id && e.result.err.None? && e.command.quantity > 0
      then e.command.quantity else 0
  }

  function Added(e: LogEntry): nat {
    if e.command.Restock? && e.result.err.None? && e.command.quantity > 0 then e.command.quantity else 0
  }

  /** What one command does to the books. */
  lemma RunBooks(s: Stock, e: LogEntry, id: string)
    requires e.result == Run(s, e.command).1
    ensures var t := Run(s, e.command).0;
            && t.onHand == s.onHand + Added(e)
            && Entry(t.reservations, id) == Entry(s.reservations, id) + Took(id)(e) - Gave(id)(e)
  {
  }

  lemma SerialPrefix(s: Stock, log: seq<LogEntry>, n: nat)
    requires Serial(s, log) && n <= |log|
    ensures Serial(s, log[..n])
  {
    forall k | 0 <= k < n ensures log[..n][k].result == Run(Replay(s, log[..n][..k]), log[..n][k].command).1 {
      assert log[..n][..k] == log[..k];
    }
  }

  /**
    The books after any serial log: what is on hand is the initial stock plus the
    accepted restocks, and an order holds exactly its accepted reserves less its
    accepted releases.
  */
  lemma {:induction false} Books(s: Stock, log: seq<LogEntry>, id: string)
    requires Sound(s) && s.reservations == map[] && Serial(s, log)
    ensures var t := Replay(s, log);
            && Sound(t) && t.sku == s.sku
            && t.onHand == s.onHand + Sum(log, Added)
            && Entry(t.reservations, id) == Sum(log, Took(id)) - Sum(log, Gave(id))
    decreases |log|
  {
    if log != [] {
      var n := |log| - 1;
      SerialPrefix(s, log, n);
      Books(s, log[..n], id);
      RunSound(Replay(s, log[..n]), log[n].command);
      RunBooks(Replay(s, log[..n]), log[n], id);
      assert log == log[..n] + [log[n]];
      SumConcat(log[..n], [log[n]], Added);
      SumConcat(log[..n], [log[n]], Took(id));
      SumConcat(log[..n], [log[n]], Gave(id));
    }
  }

  /** The snapshot shows what is on hand, what all orders hold together, and the rest. */
  ghost predicate Shows(snapshot: StockSnapshot, s: Stock) {
    && snapshot.sku == s.sku && snapshot.onHand == s.onHand
    && snapshot.reserved == Total(s.reservations)
    && snapshot.available == s.onHand - Total(s.reservations)
  }

  /** A reserve or release without an order, and else a change by nothing or less. */
  predicate NoOrder(c: Command) { (c.Reserve? || c.Release?) && c.orderId == "" }

  predicate NoQuantity(c: Command) { !NoOrder(c) && !c.Snapshot? && c.quantity <= 0 }

  /** More than is free, or more than the order holds. */
  ghost predicate TooMuch(s: Stock, c: Command) {
    !NoOrder(c) && !NoQuantity(c) &&
    ((c.Reserve? && c.quantity > s.onHand - Total(s.reservations)) ||
     (c.Release? && c.quantity > Entry(s.reservations, c.orderId)))
  }

  /**
    What a command is answered: it is accepted exactly with an order, a positive
    quantity, and enough of it; each refusal has its own reason and changes
    nothing; and unless the command makes no sense at all, the answer shows the
    stock as it is then.
  */
  ghost predicate RightAnswer(before: Stock, c: Command, r: CommandResult, after: Stock) {
    && (r.err.None? <==> !NoOrder(c) && !NoQuantity(c) && !TooMuch(before, c))
    && (r.err == Some(EmptyOrder) <==> NoOrder(c))
    && (r.err == Some(BadQuantity) <==> NoQuantity(c))
    && (r.err == Some(InsufficientStock) <==> c.Reserve? && TooMuch(before, c))
    && (r.err == Some(ExceedsReservation) <==> c.Release? && TooMuch(before, c))
    && (r.err.Some? ==> after == before)
    && (if NoOrder(c) || NoQuantity(c) then r.snapshot == NO_SNAPSHOT else Shows(r.snapshot, after))
  }

  lemma RunAnswersRight(s: Stock, c: Command)
    ensures RightAnswer(s, c, Run(s, c).1, Run(s, c).0)
  {
  }

  /** Every entry of a serial log is answered from the stock it finds and shows the stock it leaves. */
  lemma LogAnswersRight(s: Stock, log: seq<LogEntry>, k: nat)
    requires Serial(s, log) && k < |log|
    ensures RightAnswer(Replay(s, log[..k]), log[k].command, log[k].result, Replay(s, log[..k + 1]))
  {
    assert log[..k + 1][..k] == log[..k];
    RunAnswersRight(Replay(s, log[..k]), log[k].command);
  }

  lemma RunSnapshot(s: Stock, c: Command)
    ensures Run(s, c).1.snapshot == NO_SNAPSHOT || Run(s, c).1.snapshot == SnapshotOf(Run(s, c).0)
    ensures Run(s, c).1.snapshot == NO_SNAPSHOT && s.sku != "" ==> Run(s, c).1.err.Some? && Run(s, c).0 == s
  {
  }

  /** Every snapshot handed out adds up: available is on hand less reserved, and not negative. */
  lemma SnapshotsAddUp(s: Stock, log: seq<LogEntry>, k: nat)
    requires Sound(s) && s.reservations == map[] && Serial(s, log) && k < |log|
    requires log[k].result.snapshot != NO_SNAPSHOT
    ensures var snap := log[k].result.snapshot;
            && snap.sku == s.sku
            && snap.available == snap.onHand - snap.reserved >= 0 && snap.reserved >= 0
            && snap.onHand == s.onHand + Sum(log[..k + 1], Added)
            && Shows(snap, Replay(s, log[..k + 1]))
  {
    LogAnswersRight(s, log, k);
    SerialPrefix(s, log, k + 1);
    Books(s, log[..k + 1], "");
    assert log[..k + 1][..k] == log[..k];
    RunSnapshot(Replay(s, log[..k]), log[k].command);
  }

  // ----- the state the actor owns

  class InventoryState {
    const sku: string
    var onHand: int
    var reservations: map<string, int>

    ghost function Abs(): Stock
      reads this
    {
      Stock(sku, onHand, reservations)
    }

    constructor (sku: string, initialStock: int)
      ensures Abs() == Stock(sku, initialStock, map[])
    {
      this.sku, onHand, reservations := sku, initialStock, map[];
    }

    /** Ranges over the table in whatever order it likes. */
    method Reserved() returns (total: int)
      ensures total == Total(reservations)
    {
      total := 0;
      var keys := reservations.Keys;
      while keys != {}
        invariant keys <= reservations.Keys
        invariant total + SumOver(reservations, keys) == Total(reservations)
        decreases keys
      {
        var k :| k in keys;
        TakeKey(reservations, keys, k);
        total := total + reservations[k];
        keys := keys - {k};
      }
    }

    method Available() returns (n: int)
      ensures n == onHand - Total(reservations)
    {
      var reserved := Reserved();
      n := onHand - reserved;
    }

    method TakeSnapshot() returns (snapshot: StockSnapshot)
      ensures snapshot == SnapshotOf(Abs())
    {
      var reserved := Reserved();
      snapshot := StockSnapshot(sku, onHand, reserved, onHand - reserved);
    }

    method RunReserve(id: string, q: int) returns (r: CommandResult)
      modifies this
      ensures (Abs(), r) == Run(old(Abs()), Reserve(id, q))
    {
      if id == "" {
        return CommandResult(NO_SNAPSHOT, Some(EmptyOrder));
      }
      if q <= 0 {
        return CommandResult(NO_SNAPSHOT, Some(BadQuantity));
      }
      var available := Available();
      if available < q {
        var refused := TakeSnapshot();
        return CommandResult(refused, Some(InsufficientStock));
      }
      reservations := reservations[id := Entry(reservations, id) + q];
      var snapshot := TakeSnapshot();
      r := CommandResult(snapshot, None);
    }

    method RunRelease(id: string, q: int) returns (r: CommandResult)
      modifies this
      ensures (Abs(), r) == Run(old(Abs()), Release(id, q))
    {
      if id == "" {
        return CommandResult(NO_SNAPSHOT, Some(EmptyOrder));
      }
      if q <= 0 {
        return CommandResult(NO_SNAPSHOT, Some(BadQuantity));
      }
      var current := Entry(reservations, id);
      if current < q {
        var refused := TakeSnapshot();
        return CommandResult(refused, Some(ExceedsReservation));
      }
      if current == q {
        reservations := reservations - {id};
      } else {
        reservations := reservations[id := current - q];
      }
      var snapshot := TakeSnapshot();
      r := CommandResult(snapshot, None);
    }

    method RunRestock(q: int) returns (r: CommandResult)
      modifies this
      ensures (Abs(), r) == Run(old(Abs()), Restock(q))
    {
      if q <= 0 {
        return CommandResult(NO_SNAPSHOT, Some(BadQuantity));
      }
      onHand := onHand + q;
      var snapshot := TakeSnapshot();
      r := CommandResult(snapshot, None);
    }

    method RunCommand(c: Command) returns (r: CommandResult)
      modifies this
      ensures (Abs(), r) == Run(old(Abs()), c)
    {
      match c
      case Reserve(id, q) => r := RunReserve(id, q);
      case Release(id, q) => r := RunRelease(id, q);
      case Restock(q) => r := RunRestock(q);
      case Snapshot =>
        var snapshot := TakeSnapshot();
        r := CommandResult(snapshot, None);
    }
  }
}
