/**
 Booking venue fills into the three ledgers: what one pass over the fills persists in the
 shared log, as functions of the memories it reads.
 */
module Accounting {
  import opened Wrappers
  import opened EventLog
  import opened Records
  import opened Sums
  import PS = PositionStates
  import O = Orders
  import P = Positions
  import L = Portfolio

  /** A price relation, never zero: margin is notional divided by it. */
  type Leverage = l: real | l != 0.0 witness 1.0

  datatype Levels = Levels(entry: real, stop: real)
  datatype Mapping = Mapping(cid: string, pid: string)

  /**
   Positions, portfolio ledger and the accounting maps.  `mapped` keeps insertion order;
   `closed` and `counted` live in memory only.
   */
  datatype Desk = Desk(
    pm: string, leverage: Leverage, log: Log,
    positions: P.Memory, ledger: L.Memory,
    levels: map<string, Levels>, mapped: seq<Mapping>,
    closed: map<string, real>, counted: set<string>)

  datatype Engine = Engine(om: string, orders: O.Memory, desk: Desk)

  datatype Kind = OrderUnknown | NoLevels | DegenerateStop | DeadPosition | MarginFailed | NoMatch | PartialClose | Raised
  datatype Note = Note(fillId: string, kind: Kind) | FetchFailed

  // ---- the durable maps ----

  function Lookup(mapped: seq<Mapping>, cid: string): Option<string> {
    if mapped == [] then None
    else if mapped[|mapped| - 1].cid == cid then Some(mapped[|mapped| - 1].pid)
    else Lookup(mapped[..|mapped| - 1], cid)
  }

  /** Assignment to an insertion-ordered map: a known key keeps its place. */
  function Assigned(mapped: seq<Mapping>, m: Mapping): seq<Mapping> {
    if mapped == [] then [m]
    else if mapped[|mapped| - 1].cid == m.cid then mapped[..|mapped| - 1] + [m]
    else if Lookup(mapped, m.cid).None? then mapped + [m]
    else Assigned(mapped[..|mapped| - 1], m) + [mapped[|mapped| - 1]]
  }

  function LevelsOn(log: Log): map<string, Levels> {
    if log == [] then map[]
    else
      var before, p := LevelsOn(log[..|log| - 1]), log[|log| - 1].payload;
      if p.Accounting? && p.accounting.LevelsRecorded?
      then before[p.accounting.cid := Levels(p.accounting.entry, p.accounting.stop)] else before
  }

  function MappedOn(log: Log): seq<Mapping> {
    if log == [] then []
    else
      var before, p := MappedOn(log[..|log| - 1]), log[|log| - 1].payload;
      if p.Accounting? && p.accounting.OrderMapped?
      then Assigned(before, Mapping(p.accounting.cid, p.accounting.pid)) else before
  }

  function Own(d: Desk, key: AccountingKey, r: AccountingRecord): Desk {
    d.(log := Appended(d.log, Some(ForAccounting(key)), Accounting(r)))
  }

  function MapOrder(d: Desk, cid: string, pid: string): Desk {
    Own(d, MappedKey(cid), OrderMapped(cid, pid)).(mapped := Assigned(d.mapped, Mapping(cid, pid)))
  }

  // ---- levels, recorded at execution time ----

  /** An executed order, with its levels when it came from a trade request. */
  datatype Execution = Execution(cid: string, levels: Option<Levels>)

  function RecordLevels(d: Desk, x: Execution): Desk {
    if x.levels.None? || x.cid in d.levels then d
    else Own(d, LevelsKey(x.cid), LevelsRecorded(x.cid, x.levels.value.entry, x.levels.value.stop)).(
      levels := d.levels[x.cid := x.levels.value])
  }

  function RecordAllLevels(d: Desk, xs: seq<Execution>): Desk {
    if xs == [] then d else RecordLevels(RecordAllLevels(d, xs[..|xs| - 1]), xs[|xs| - 1])
  }

  // ---- the managers, seen from the desk ----

  function PositionWorld(d: Desk): P.World {
    P.World(d.pm, d.positions, d.log)
  }

  function WithPositions(d: Desk, w: P.World): Desk {
    d.(positions := w.mem, log := w.log)
  }

  function Ask(d: Desk, q: L.Request): (Desk, L.Outcome) {
    var (w, out) := L.Handle(L.World(d.ledger, d.log), q);
    (d.(ledger := w.mem, log := w.log), out)
  }

  predicate Dead(s: PS.State) {
    s == PS.Closed || s == PS.Archived
  }

  // ---- entry fills ----

  function Margin(d: Desk, f: Fill): real {
    f.quantity * f.price / d.leverage
  }

  function BookFee(d: Desk, pid: string, f: Fill): Desk {
    if f.fee > 0.0 then Ask(d, L.BookFee(pid, f.id, f.fee)).0 else d
  }

  /** Margin for one fill: reserved, then allocated; a lack of funds is noted, not raised. */
  function TakeMargin(d: Desk, pid: string, f: Fill): (Desk, L.Outcome) {
    var (d1, out) := Ask(d, L.Reserve(pid, Margin(d, f), f.id));
    if out.Done? then Ask(d1, L.Allocate(pid, Margin(d, f), f.id)) else (d1, out)
  }

  function BookMargin(d: Desk, pid: string, f: Fill): (Desk, seq<Note>) {
    var (d1, out) := TakeMargin(d, pid, f);
    if out == L.Refused(L.BadAmount) then (d1, [Note(f.id, Raised)])
    else (BookFee(d1, pid, f), if out.Done? then [] else [Note(f.id, MarginFailed)])
  }

  function BookInto(d: Desk, pid: string, f: Fill): (Desk, seq<Note>) {
    if pid !in d.positions.snapshots then (d, [Note(f.id, Raised)])
    else
      var (w, out) := P.RecordEntryFill(PositionWorld(d), pid, f);
      var d1 := WithPositions(d, w);
      match out
      case Raised(_) => (d1, [Note(f.id, Raised)])
      case Snap(s) =>
        if Dead(s.state) then
          (d1, if s.filled != d.positions.snapshots[pid].filled then [Note(f.id, DeadPosition)] else [])
        else BookMargin(d1, pid, f)
  }

  function Distance(l: Levels): real {
    if l.entry >= l.stop then l.entry - l.stop else l.stop - l.entry
  }

  function TermsFor(f: Fill, intended: real, l: Levels): PositionTerms {
    var step := if f.side == Buy then Distance(l) else -Distance(l);
    PositionTerms(f.symbol, f.side, intended, l.stop, Distance(l), l.entry + step, l.entry + 2.0 * step, None)
  }

  function BookEntry(d: Desk, f: Fill, intended: real): (Desk, seq<Note>) {
    match Lookup(d.mapped, f.cid)
    case Some(pid) => BookInto(d, pid, f)
    case None =>
      if f.cid !in d.levels then (d, [Note(f.id, NoLevels)])
      else if Distance(d.levels[f.cid]) <= 0.0 then (d, [Note(f.id, DegenerateStop)])
      else
        var pid := P.MakeId(d.pm, d.positions.nextSeq);
        var (w, out) := P.CreatePosition(PositionWorld(d), TermsFor(f, intended, d.levels[f.cid]));
        if out.Raised? then (WithPositions(d, w), [Note(f.id, Raised)])
        else BookInto(MapOrder(WithPositions(d, w), f.cid, pid), pid, f)
  }

  // ---- exit fills ----

  function Opposite(s: Side): Side {
    if s == Buy then Sell else Buy
  }

  predicate Matches(m: P.Memory, pid: string, symbol: string, closing: Side) {
    pid in m.snapshots &&
    var s := m.snapshots[pid];
    s.terms.symbol == symbol && s.terms.side == Opposite(closing) && !Dead(s.state) && s.remaining > 0.0
  }

  /** The first mapped position, in insertion order, that the fill could be closing. */
  function FindOpen(m: P.Memory, mapped: seq<Mapping>, symbol: string, closing: Side): Option<string> {
    if mapped == [] then None
    else
      var earlier, last := FindOpen(m, mapped[..|mapped| - 1], symbol, closing), mapped[|mapped| - 1].pid;
      if earlier.Some? then earlier
      else if Matches(m, last, symbol, closing) then Some(last) else None
  }

  function Direction(side: Side): real {
    if side == Buy then 1.0 else -1.0
  }

  /** Realised profit of one closing tranche at its own price, for longs and shorts alike. */
  function Realized(side: Side, avg: real, f: Fill): real {
    Direction(side) * (f.price - avg) * f.quantity - f.fee
  }

  function BookPnl(d: Desk, pid: string, s: P.Snapshot, f: Fill): Desk {
    if s.avg.None? then d
    else Ask(d, L.BookPnl(pid, f.id, Realized(s.terms.side, s.avg.value, f))).0
  }

  function Count(d: Desk, pid: string, f: Fill): Desk {
    if f.id in d.counted then d
    else d.(counted := d.counted + {f.id}, closed := d.closed[pid := At(d.closed, pid) + f.quantity])
  }

  /** The whole position closes with the fill that completes it; then its margin is released. */
  function Finish(d: Desk, pid: string, f: Fill): (Desk, seq<Note>) {
    var (w, out) := P.RecordExit(PositionWorld(d), pid, f, PS.Close, Some("reduce_only_fill"));
    var d1 := WithPositions(d, w);
    if out.Raised? then (d1, [Note(f.id, Raised)])
    else (Ask(d1, L.Release(pid, "close:" + pid)).0, [])
  }

  function CloseInto(d: Desk, pid: string, f: Fill): (Desk, seq<Note>) {
    if pid !in d.positions.snapshots then (d, [Note(f.id, Raised)])
    else
      var s := d.positions.snapshots[pid];
      var d1 := Count(BookPnl(d, pid, s, f), pid, f);
      if Dead(s.state) then (d1, [])
      else if At(d1.closed, pid) < s.filled then (d1, [Note(f.id, PartialClose)])
      else Finish(d1, pid, f)
  }

  function BookExit(d: Desk, f: Fill): (Desk, seq<Note>) {
    match Lookup(d.mapped, f.cid)
    case Some(pid) => CloseInto(d, pid, f)
    case None =>
      match FindOpen(d.positions, d.mapped, f.symbol, f.side)
      case None => (d, [Note(f.id, NoMatch)])
      case Some(pid) => CloseInto(MapOrder(d, f.cid, pid), pid, f)
  }

  // ---- one pass ----

  function Book(d: Desk, f: Fill, terms: Terms): (Desk, seq<Note>) {
    if terms.reduceOnly then BookExit(d, f) else BookEntry(d, f, terms.quantity)
  }

  function OrderWorld(e: Engine): O.World {
    O.World(e.om, e.orders, e.desk.log, [])
  }

  function BookOne(e: Engine, f: Fill): (Engine, seq<Note>) {
    var (w, out) := O.ReportFill(OrderWorld(e), f.cid, f);
    var d := e.desk.(log := w.log);
    match out
    case Snap(order) =>
      var (d', notes) := Book(d, f, order.terms);
      (Engine(e.om, w.mem, d'), notes)
    case Raised(error) =>
      (Engine(e.om, w.mem, d), [Note(f.id, if error == O.NotFound then OrderUnknown else Raised)])
    case Snaps(_) => (Engine(e.om, w.mem, d), [])
  }

  function BookAll(e: Engine, fills: seq<Fill>): (Engine, seq<Note>) {
    if fills == [] then (e, [])
    else
      var (e1, before) := BookAll(e, fills[..|fills| - 1]);
      var (e2, more) := BookOne(e1, fills[|fills| - 1]);
      (e2, before + more)
  }

  function Sync(e: Engine, fetched: O.Reply<seq<Fill>>): (Engine, seq<Note>) {
    match fetched
    case VenueDown => (e, [FetchFailed])
    case Answer(fills) => BookAll(e, fills)
  }

  // ---- restart ----

  /** The desk a new process builds from a log; `closed` and `counted` are whatever it has re-counted. */
  function Rebuilt(d: Desk, log: Log): Desk {
    Desk(d.pm, d.leverage, log, P.Replay(log).GetOr(P.Initial), L.Replay(log), LevelsOn(log), MappedOn(log),
         d.closed, d.counted)
  }

  function Restarted(e: Engine, log: Log): Engine {
    Engine(e.om, O.Replay(log).GetOr(O.Initial), Rebuilt(e.desk, log))
  }
}
