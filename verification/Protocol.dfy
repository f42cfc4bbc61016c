/** Booking's write path as one state machine.

    Every request carries a program counter that says which statement or RPC it runs
    next, with the local variables the handler keeps at that point. Requests interleave
    freely, one statement at a time, with each other, the clock and the reapers.

    Faults: a call takes effect and is answered (`Ok`), fails without effect (`Failed`),
    or takes effect while the caller sees an error (`Lost`). A request may crash between
    any two statements. Ids are fresh and the databases share one monotone clock. */
module Protocol {
  import opened Wrappers
  import opened Allocator
  import opened Stores
  import Fingerprint

  const SWEEP_LIMIT := 50

  datatype Body = Body(who: Who, startText: string, start: int)

  datatype Kind =
    | HoldReq(body: Body)                  // POST /holds
    | DirectReq(key: string, body: Body)   // POST /appointments, no holdId
    | PromoteReq(key: string, row: Id)     // POST /appointments with holdId
    | CancelReq(row: Id)                   // DELETE /appointments/{id}
    | SweepReq                             // one sweepOnce

  datatype Result =
    | Created(row: Id) | Booked(row: Id) | Replayed(row: Id)
    | Unavailable | Conflict | NotFound | Internal
    | CancelDone(row: Id, bayOk: bool, techOk: bool)
    | Swept

  /** A successful Reserve's answer. */
  datatype Claimed = Claimed(id: OccId, resource: Id, start: int, end: int)

  /** A row in the sweeper's work list, as it was read. */
  datatype Item = Item(row: Id, tech: Option<OccId>, bay: Option<OccId>)

  datatype Pc =
    // technician Reserve (`prior` is None), then bay Reserve (`prior` is the technician's answer)
    | Lookup
    | Pick(prior: Option<Claimed>, n: nat)
    | Put(prior: Option<Claimed>, n: nat, resource: Id, end: int, seen: set<OccId>)
    | Reaping(prior: Option<Claimed>, n: nat)
    | Insert(t: Claimed, b: Claimed)
    // promoteConfirmed
    | ConfirmTech(row: Id, tech: OccId, bay: OccId)
    | ConfirmBay(row: Id, tech: OccId, bay: OccId)
    | Flip(row: Id, tech: OccId, bay: OccId)
    | Reread(row: Id, tech: OccId, bay: OccId, unique: bool)
    | FinalGet(row: Id)
    // compensation, in reverse saga order
    | RelBay(tech: OccId, bay: OccId, res: Result)
    | RelTech(tech: OccId, res: Result)
    // confirmHold's reads
    | Load
    | KeyCheck
    // Cancel
    | CancelLoad
    | CancelCas(techId: Option<OccId>, bayId: Option<OccId>)
    | CancelBay(techId: Option<OccId>, bayId: Option<OccId>)
    | CancelTech(techId: Option<OccId>, bayOk: bool)
    // sweepOnce: `more` while the first of the two lists is being worked off
    | SweepBatch
    | SweepList
    | SweepBay(todo: seq<Item>, more: bool)
    | SweepTech(todo: seq<Item>, bayOk: bool, more: bool)
    | SweepClear(todo: seq<Item>, more: bool)
    | Done(res: Result)
    | Crashed

  datatype Reply = Ok | Failed | Lost

  /** Everything outside Booking's control in one call: the reply, a fresh id, what the
      claim query picked (if anything), and the rows a batch statement returned. */
  datatype Choice = Choice(reply: Reply, key: Id, found: bool, resource: Id, end: int, rows: seq<Id>)

  datatype Req = Req(kind: Kind, pc: Pc)
  datatype State = State(st: Stores, reqs: map<Id, Req>)

  datatype Step =
    | Tick(to: int)
    | ReapTick(side: Side)
    | Begin(q: Id, kind: Kind)
    | Crash(q: Id)
    | Call(q: Id, ch: Choice)

  datatype Move = Move(st: Stores, pc: Pc)

  const INIT := State(EMPTY, map[])

  function StartPc(kind: Kind): Pc {
    match kind
    case HoldReq(_) => Pick(None, 1)
    case DirectReq(key, _) => if key == "" then Pick(None, 1) else Lookup
    case PromoteReq(_, _) => Load
    case CancelReq(_) => CancelLoad
    case SweepReq => SweepBatch
  }

  predicate Active(pc: Pc) {
    !pc.Done? && !pc.Crashed?
  }

  // ---- Reads -------------------------------------------------------------------------

  function Holders(st: Stores, key: string): set<Id> {
    set r | r in st.rows && st.rows[r].status.Confirmed? && st.rows[r].key == Some(key)
  }

  /** GetConfirmedByIdempotencyKey; the partial unique index makes the answer unique. */
  ghost function ByKey(st: Stores, key: string): (r: Option<Id>)
    ensures r.None? <==> Holders(st, key) == {}
    ensures r.Some? ==> r.value in Holders(st, key)
  {
    if Holders(st, key) == {} then None else
      var r :| r in Holders(st, key);
      Some(r)
  }

  function DirectPrint(body: Body): string {
    Fingerprint.Print("", body.who.dealership, body.who.customer, body.who.vehicle, body.who.service, body.startText)
  }

  function HoldPrint(r: Id, who: Who): string {
    Fingerprint.Print(r, who.dealership, who.customer, who.vehicle, who.service, "")
  }

  // ---- Reserve, inside the allocators --------------------------------------------------

  predicate Books(kind: Kind) {
    kind.HoldReq? || kind.DirectReq?
  }

  function SideOf(prior: Option<Claimed>): Side {
    if prior.None? then Tech else Bay
  }

  /** Reserve failed: nothing to undo before the technician's claim, else release it. */
  function ReserveFailed(prior: Option<Claimed>): Pc {
    if prior.None? then Done(Unavailable) else RelTech(prior.value.id, Unavailable)
  }

  function ReserveDone(prior: Option<Claimed>, c: Claimed): Pc {
    if prior.None? then Pick(Some(c), 1) else Insert(prior.value, c)
  }

  ghost function MoveReserve(st: Stores, q: Id, kind: Kind, pc: Pc, ch: Choice): Move
    requires Books(kind) && (pc.Pick? || pc.Put? || pc.Reaping?)
  {
    match pc
    case Pick(prior, n) =>
      if ch.reply != Ok then Move(st, ReserveFailed(prior))
      else if ch.found then Move(st, Put(prior, n, ch.resource, if prior.None? then ch.end else prior.value.end,
          st.claims.Keys))
      else Move(st, Reaping(prior, n))
    case Put(prior, n, resource, end, seen) =>
      var id := OccId(SideOf(prior), ch.key);
      if ch.reply == Failed then Move(st, ReserveFailed(prior))
      else if !Free(st.occs, id.side, resource, kind.body.start, end) then Move(st, Reaping(prior, n)) // 23P01
      else if ch.reply == Ok then
        Move(InsertOcc(st, id, resource, kind.body.start, end, q, false),
             ReserveDone(prior, Claimed(id, resource, kind.body.start, end)))
      else
        Move(InsertOcc(st, id, resource, kind.body.start, end, q, true), ReserveFailed(prior))
    case Reaping(prior, n) =>
      var st' := if ch.reply == Failed then st else ReapOccs(st, SideOf(prior));
      Move(st', if ch.reply == Ok && n < MAX_ATTEMPTS then Pick(prior, n + 1) else ReserveFailed(prior))
  }

  // ---- Booking -------------------------------------------------------------------------

  ghost function MoveBook(st: Stores, q: Id, kind: Kind, pc: Pc, ch: Choice): Move
    requires (pc.Lookup? && kind.DirectReq?) || (pc.Insert? && Books(kind))
  {
    match pc
    case Lookup =>
      if ch.reply != Ok then Move(st, Done(Internal)) else
      var hit := ByKey(st, kind.key);
      if hit.None? then Move(st, Pick(None, 1))
      else if st.rows[hit.value].finger == Some(DirectPrint(kind.body)) then Move(st, Done(Replayed(hit.value)))
      else Move(st, Done(Conflict))
    case Insert(t, b) =>
      if ch.reply == Failed then Move(st, RelBay(t.id, b.id, Unavailable)) else
      var st' := InsertRow(st, ch.key, kind.body.who, t.id, t.resource, b.id, b.resource, kind.body.start, t.end);
      if ch.reply == Lost then Move(st', RelBay(t.id, b.id, Unavailable))
      else if kind.HoldReq? then Move(st', Done(Created(ch.key)))
      else Move(st', ConfirmTech(ch.key, t.id, b.id))
  }

  function PrintOf(st: Stores, kind: Kind, r: Id): string
    requires kind.DirectReq? || (kind.PromoteReq? && r in st.rows)
  {
    if kind.DirectReq? then DirectPrint(kind.body) else HoldPrint(r, st.rows[r].who)
  }

  predicate Promotes(pc: Pc) {
    pc.ConfirmTech? || pc.ConfirmBay? || pc.Flip? || pc.Reread? || pc.FinalGet?
  }

  predicate Confirms(kind: Kind) {
    kind.DirectReq? || kind.PromoteReq?
  }

  ghost function MovePromote(st: Stores, kind: Kind, pc: Pc, ch: Choice): Move
    requires Confirms(kind) && Promotes(pc)
  {
    match pc
    case ConfirmTech(r, t, b) =>
      if ch.reply == Ok && Confirmable(st.occs, st.now, t) then Move(ConfirmOcc(st, t), ConfirmBay(r, t, b))
      else Move(if ch.reply == Lost then ConfirmOcc(st, t) else st, RelBay(t, b, Unavailable))
    case ConfirmBay(r, t, b) =>
      if ch.reply == Ok && Confirmable(st.occs, st.now, b) then Move(ConfirmOcc(st, b), Flip(r, t, b))
      else Move(if ch.reply == Lost then ConfirmOcc(st, b) else st, RelBay(t, b, Unavailable))
    case Flip(r, t, b) =>
      if ch.reply == Failed || r !in st.rows then Move(st, Reread(r, t, b, false)) else
      var st' := PromoteRow(st, r, kind.key, PrintOf(st, kind, r));
      if ch.reply == Lost then Move(st', Reread(r, t, b, false))
      else if CanPromote(st, r, kind.key) then Move(st', FinalGet(r))
      else Move(st', Reread(r, t, b, st.rows[r].status.Held?))
    case Reread(r, t, b, unique) =>
      if ch.reply != Ok || r !in st.rows then Move(st, RelBay(t, b, Unavailable)) else
      match st.rows[r].status {
        case Confirmed => Move(st, FinalGet(r))
        case Cancelled => Move(st, RelBay(t, b, Unavailable))
        case Held => Move(st, RelBay(t, b, if unique then Conflict else Unavailable))
      }
    case FinalGet(r) =>
      Move(st, if ch.reply == Ok && r in st.rows then Done(Booked(r)) else Done(NotFound))
  }

  function MoveRelease(st: Stores, pc: Pc, ch: Choice): Move
    requires pc.RelBay? || pc.RelTech?
  {
    match pc
    case RelBay(t, b, res) => Move(if ch.reply == Failed then st else ReleaseOcc(st, b), RelTech(t, res))
    case RelTech(t, res) => Move(if ch.reply == Failed then st else ReleaseOcc(st, t), Done(res))
  }

  ghost function MoveHold(st: Stores, kind: Kind, pc: Pc, ch: Choice): Move
    requires kind.PromoteReq? && (pc.Load? || pc.KeyCheck?)
  {
    match pc
    case Load =>
      if ch.reply != Ok || kind.row !in st.rows then Move(st, Done(NotFound)) else
      var row := st.rows[kind.row];
      (match row.status
       case Confirmed => Move(st, if kind.key == "" then Done(Replayed(kind.row)) else KeyCheck)
       case Cancelled => Move(st, Done(Unavailable))
       case Held =>
         if row.techOcc.None? || row.bayOcc.None? then Move(st, Done(Unavailable))
         else Move(st, ConfirmTech(kind.row, row.techOcc.value, row.bayOcc.value)))
    case KeyCheck =>
      if ch.reply != Ok then Move(st, Done(Internal)) else
      var hit := ByKey(st, kind.key);
      Move(st, if hit.Some? && hit.value != kind.row then Done(Conflict) else Done(Replayed(kind.row)))
  }

  predicate Cancels(pc: Pc) {
    pc.CancelLoad? || pc.CancelCas? || pc.CancelBay? || pc.CancelTech?
  }

  function ReleaseOpt(st: Stores, id: Option<OccId>, reply: Reply): Stores {
    if id.None? || reply == Failed then st else ReleaseOcc(st, id.value)
  }

  function MoveCancel(st: Stores, kind: Kind, pc: Pc, ch: Choice): Move
    requires kind.CancelReq? && Cancels(pc)
  {
    match pc
    case CancelLoad =>
      if ch.reply != Ok || kind.row !in st.rows then Move(st, Done(NotFound))
      else Move(st, CancelCas(st.rows[kind.row].techOcc, st.rows[kind.row].bayOcc))
    case CancelCas(t, b) =>
      var st' := if ch.reply == Failed then st else CancelRows(st, {kind.row});
      Move(st', if ch.reply == Ok then CancelBay(t, b) else Done(Unavailable))
    case CancelBay(t, b) =>
      Move(ReleaseOpt(st, b, ch.reply), CancelTech(t, b.None? || ch.reply == Ok))
    case CancelTech(t, bayOk) =>
      Move(ReleaseOpt(st, t, ch.reply), Done(CancelDone(kind.row, bayOk, t.None? || ch.reply == Ok)))
  }

  // ---- Recovery ------------------------------------------------------------------------

  predicate Sweeps(pc: Pc) {
    pc.SweepBatch? || pc.SweepList? || pc.SweepBay? || pc.SweepTech? || pc.SweepClear?
  }

  function ItemOf(st: Stores, r: Id): Item
    requires r in st.rows
  {
    Item(r, st.rows[r].techOcc, st.rows[r].bayOcc)
  }

  function Items(st: Stores, rows: seq<Id>): (items: seq<Item>)
    requires forall r | r in rows :: r in st.rows
    ensures |items| == |rows| && forall i | 0 <= i < |rows| :: items[i] == ItemOf(st, rows[i])
  {
    seq(|rows|, i requires 0 <= i < |rows| => ItemOf(st, rows[i]))
  }

  /** Head of the loop in releaseCancelled: rows without ids are skipped. */
  function NextItem(todo: seq<Item>, more: bool): Pc {
    if todo == [] then (if more then SweepList else Done(Swept))
    else if todo[0].tech.None? && todo[0].bay.None? then NextItem(todo[1..], more)
    else SweepBay(todo, more)
  }

  predicate Sweepable(st: Stores, r: Id) {
    r in st.rows && st.rows[r].status.Held? && st.rows[r].expires.Some? && st.rows[r].expires.value <= st.now
  }

  predicate NeedsRelease(st: Stores, r: Id) {
    r in st.rows && st.rows[r].status.Cancelled? && (st.rows[r].techOcc.Some? || st.rows[r].bayOcc.Some?)
  }

  function MoveSweep(st: Stores, pc: Pc, ch: Choice): Move
    requires Sweeps(pc) && MoveOkSweep(st, pc, ch)
  {
    match pc
    case SweepBatch =>
      if ch.reply == Failed then Move(st, Done(Swept)) else
      var st' := CancelRows(st, set r | r in ch.rows);
      Move(st', if ch.reply == Lost then Done(Swept) else NextItem(Items(st', ch.rows), true))
    case SweepList =>
      Move(st, if ch.reply != Ok then Done(Swept) else NextItem(Items(st, ch.rows), false))
    case SweepBay(todo, more) =>
      var b := todo[0].bay;
      Move(ReleaseOpt(st, b, ch.reply), SweepTech(todo, b.None? || ch.reply == Ok, more))
    case SweepTech(todo, bayOk, more) =>
      var t := todo[0].tech;
      var techOk := t.None? || ch.reply == Ok;
      Move(ReleaseOpt(st, t, ch.reply),
           if bayOk && techOk then SweepClear(todo, more) else NextItem(todo[1..], more))
    case SweepClear(todo, more) =>
      Move(if ch.reply == Failed then st else ClearRow(st, todo[0].row), NextItem(todo[1..], more))
  }

  /** What a batch statement may return. */
  predicate MoveOkSweep(st: Stores, pc: Pc, ch: Choice) {
    && (pc.SweepBatch? && ch.reply != Failed ==> |ch.rows| <= SWEEP_LIMIT && forall r | r in ch.rows ::
        Sweepable(st, r))
    && (pc.SweepList? && ch.reply == Ok ==> |ch.rows| <= SWEEP_LIMIT && forall r | r in ch.rows :: NeedsRelease(st, r))
    && (pc.SweepBay? || pc.SweepTech? || pc.SweepClear? ==> pc.todo != [])
  }

  // ---- The machine ---------------------------------------------------------------------

  /** Which program counters a request of each kind can be at. */
  predicate Fits(kind: Kind, pc: Pc) {
    match kind
    case HoldReq(_) => pc.Pick? || pc.Put? || pc.Reaping? || pc.Insert? || pc.RelBay? || pc.RelTech?
    case DirectReq(_, _) => pc.Lookup? || pc.Pick? || pc.Put? || pc.Reaping? || pc.Insert? || Promotes(pc)
        || pc.RelBay? || pc.RelTech?
    case PromoteReq(_, _) => pc.Load? || pc.KeyCheck? || Promotes(pc) || pc.RelBay? || pc.RelTech?
    case CancelReq(_) => Cancels(pc)
    case SweepReq => Sweeps(pc)
  }

  /** The choices the databases can actually make. */
  predicate ChoiceOk(st: Stores, kind: Kind, pc: Pc, ch: Choice) {
    match pc
    case Pick(prior, _) =>
      ch.reply == Ok && ch.found && Books(kind) ==>
        var end := if prior.None? then ch.end else prior.value.end;
        kind.body.start < end && Free(st.occs, SideOf(prior), ch.resource, kind.body.start, end)
    case Put(prior, _, _, _, _) => ch.reply != Failed ==> OccId(SideOf(prior), ch.key) !in st.claims
    case Insert(_, _) => ch.reply != Failed ==> ch.key !in st.rows
    case _ => MoveOkSweep(st, pc, ch)
  }

  ghost function MoveAny(st: Stores, q: Id, kind: Kind, pc: Pc, ch: Choice): Move
    requires Fits(kind, pc) && ChoiceOk(st, kind, pc, ch)
  {
    if pc.Pick? || pc.Put? || pc.Reaping? then MoveReserve(st, q, kind, pc, ch)
    else if pc.Lookup? || pc.Insert? then MoveBook(st, q, kind, pc, ch)
    else if Promotes(pc) then MovePromote(st, kind, pc, ch)
    else if pc.RelBay? || pc.RelTech? then MoveRelease(st, pc, ch)
    else if pc.Load? || pc.KeyCheck? then MoveHold(st, kind, pc, ch)
    else if Cancels(pc) then MoveCancel(st, kind, pc, ch)
    else MoveSweep(st, pc, ch)
  }

  ghost predicate Enabled(s: State, step: Step) {
    match step
    case Tick(to) => s.st.now <= to
    case ReapTick(_) => true
    case Begin(q, kind) => q !in s.reqs
    case Crash(q) => q in s.reqs && Active(s.reqs[q].pc)
    case Call(q, ch) =>
      && q in s.reqs && Active(s.reqs[q].pc)
      && Fits(s.reqs[q].kind, s.reqs[q].pc) && ChoiceOk(s.st, s.reqs[q].kind, s.reqs[q].pc, ch)
  }

  ghost function Apply(s: State, step: Step): State
    requires Enabled(s, step)
  {
    match step
    case Tick(to) => s.(st := Advance(s.st, to))
    case ReapTick(side) => s.(st := ReapOccs(s.st, side))
    case Begin(q, kind) => s.(reqs := s.reqs[q := Req(kind, StartPc(kind))])
    case Crash(q) => s.(reqs := s.reqs[q := s.reqs[q].(pc := Crashed)])
    case Call(q, ch) =>
      var m := MoveAny(s.st, q, s.reqs[q].kind, s.reqs[q].pc, ch);
      State(m.st, s.reqs[q := s.reqs[q].(pc := m.pc)])
  }

  // ---- Runs ----------------------------------------------------------------------------

  ghost predicate Run(s: State, tr: seq<Step>)
    decreases |tr|
  {
    tr == [] || (Enabled(s, tr[0]) && Run(Apply(s, tr[0]), tr[1..]))
  }

  ghost function Exec(s: State, tr: seq<Step>): State
    requires Run(s, tr)
    decreases |tr|
  {
    if tr == [] then s else Exec(Apply(s, tr[0]), tr[1..])
  }

  ghost predicate Reachable(s: State) {
    exists tr :: Run(INIT, tr) && Exec(INIT, tr) == s
  }

  lemma {:induction false} RunAppend(s: State, a: seq<Step>, b: seq<Step>)
    requires Run(s, a) && Run(Exec(s, a), b)
    ensures Run(s, a + b) && Exec(s, a + b) == Exec(Exec(s, a), b)
    decreases |a|
  {
    if a == [] {
      assert a + b == b;
    } else {
      assert (a + b)[1..] == a[1..] + b;
      RunAppend(Apply(s, a[0]), a[1..], b);
    }
  }

  lemma {:induction false} RunPrefix(s: State, a: seq<Step>, b: seq<Step>)
    requires Run(s, a + b)
    ensures Run(s, a) && Run(Exec(s, a), b) && Exec(s, a + b) == Exec(Exec(s, a), b)
    decreases |a|
  {
    if a == [] {
      assert a + b == b;
    } else {
      assert (a + b)[1..] == a[1..] + b;
      RunPrefix(Apply(s, a[0]), a[1..], b);
    }
  }

  lemma One(s: State, step: Step)
    requires Enabled(s, step)
    ensures Run(s, [step]) && Exec(s, [step]) == Apply(s, step)
  {
    assert [step][1..] == [];
    hide Enabled, Apply;
    assert Run(Apply(s, step), []);
  }

  /** Not a step of request q. */
  predicate ByOthers(step: Step, q: Id) {
    match step
    case Begin(p, _) => p != q
    case Crash(p) => p != q
    case Call(p, _) => p != q
    case _ => true
  }

  /** Others' steps leave request q where it is. */
  lemma {:induction false} Untouched(s: State, tr: seq<Step>, q: Id)
    requires Run(s, tr) && (forall step | step in tr :: ByOthers(step, q)) && q in s.reqs
    ensures q in Exec(s, tr).reqs && Exec(s, tr).reqs[q] == s.reqs[q]
    decreases |tr|
  {
    hide MoveAny, ChoiceOk, Fits;
    if tr != [] {
      assert tr[0] in tr && forall step | step in tr[1..] :: step in tr;
      Untouched(Apply(s, tr[0]), tr[1..], q);
    }
  }
}
