/** The inductive invariant that holds under any faults, proved step by step.

    `Local` is what a request may assert at each program counter. Rely and guarantee:
    a step keeps the stores in order, establishes its own next assertion, and changes
    the stores only in ways (`Evolve`) under which everybody else's assertion survives. */
module Invariant {
  import opened Wrappers
  import opened Allocator
  import opened Stores
  import opened Protocol

  // ---- Assertions ----------------------------------------------------------------------

  /** `c` is a claim of q's own that no row names yet and nobody has released. */
  ghost predicate Mine(st: Stores, q: Id, c: Claimed, side: Side, start: int) {
    && Unnamed(st, c.id, side, q, c.resource, c.start, c.end)
    && c.start == start
    && (c.id in st.occs ==> !st.occs[c.id].status.OccReleased?)
  }

  ghost predicate PriorOk(st: Stores, q: Id, prior: Option<Claimed>, start: int) {
    prior.Some? ==> Mine(st, q, prior.value, Tech, start)
  }

  predicate Named(st: Stores, r: Id, t: OccId, b: OccId) {
    r in st.rows && r in st.birth && st.birth[r].techOcc == Some(t) && st.birth[r].bayOcc == Some(b)
  }

  ghost predicate WasConfirmed(st: Stores, id: OccId) {
    id in st.claims && st.claims[id].confirmedAt.Some?
  }

  /** q may release `id`: it is q's own claim, or some row names it. */
  ghost predicate Releasable(st: Stores, q: Id, id: OccId, side: Side) {
    id.side == side && id in st.claims && (st.claims[id].owner == q || st.claims[id].row.Some?)
  }

  /** A direct booking only ever confirms what it reserved itself. */
  ghost predicate OwnPair(st: Stores, q: Id, kind: Kind, t: OccId, b: OccId) {
    kind.DirectReq? ==> t in st.claims && st.claims[t].owner == q && b in st.claims && st.claims[b].owner == q
  }

  /** (t, b) were read from row r, perhaps after the sweeper had cleared it. */
  ghost predicate CopyOf(st: Stores, r: Id, t: Option<OccId>, b: Option<OccId>) {
    && r in st.rows && r in st.birth
    && (|| (t == st.birth[r].techOcc && b == st.birth[r].bayOcc)
        || (t.None? && b.None? && Cleared(st.rows[r])))
  }

  predicate IsCancelled(st: Stores, r: Id) {
    r in st.rows && st.rows[r].status.Cancelled?
  }

  ghost predicate DeadHalf(st: Stores, r: Id, side: Side) {
    r in st.birth &&
    var half := if side == Tech then st.birth[r].techOcc else st.birth[r].bayOcc;
    half.Some? && half.value in st.claims && Dead(st, half.value)
  }

  ghost predicate ItemOk(st: Stores, it: Item) {
    IsCancelled(st, it.row) && CopyOf(st, it.row, it.tech, it.bay)
  }

  ghost predicate ItemsOk(st: Stores, todo: seq<Item>) {
    forall it | it in todo :: ItemOk(st, it)
  }

  ghost predicate ResultOk(st: Stores, kind: Kind, res: Result) {
    match res
    case Created(r) => kind.HoldReq? && r in st.rows
    case Booked(r) => Confirms(kind) && r in st.rows && r in st.birth && BirthConfirmed(st, r)
    case Replayed(r) => Confirms(kind) && r in st.rows
    case CancelDone(r, bayOk, techOk) =>
      && kind.CancelReq? && IsCancelled(st, r) && r in st.birth
      && (bayOk ==> DeadHalf(st, r, Bay)) && (techOk ==> DeadHalf(st, r, Tech))
    case _ => true
  }

  ghost predicate BirthConfirmed(st: Stores, r: Id)
    requires r in st.birth
  {
    && st.birth[r].techOcc.Some? && WasConfirmed(st, st.birth[r].techOcc.value)
    && st.birth[r].bayOcc.Some? && WasConfirmed(st, st.birth[r].bayOcc.value)
  }

  predicate IsError(res: Result) {
    res.Unavailable? || res.Conflict?
  }

  ghost predicate LocalReserve(st: Stores, q: Id, kind: Kind, pc: Pc)
    requires Books(kind) && (pc.Pick? || pc.Put? || pc.Reaping? || pc.Insert?)
  {
    match pc
    case Pick(prior, n) => 1 <= n <= MAX_ATTEMPTS && PriorOk(st, q, prior, kind.body.start)
    case Put(prior, n, resource, end, seen) =>
      && 1 <= n <= MAX_ATTEMPTS && PriorOk(st, q, prior, kind.body.start)
      && (prior.Some? ==> end == prior.value.end)
      && kind.body.start < end && seen <= st.claims.Keys
      && forall id | id in seen :: !Blocks(st.occs, id, SideOf(prior), resource, kind.body.start, end)
    case Reaping(prior, n) => 1 <= n <= MAX_ATTEMPTS && PriorOk(st, q, prior, kind.body.start)
    case Insert(t, b) =>
      && Mine(st, q, t, Tech, kind.body.start) && Mine(st, q, b, Bay, kind.body.start)
      && t.end == b.end && st.claims[t.id].at <= st.claims[b.id].at
  }

  ghost predicate LocalPromote(st: Stores, q: Id, kind: Kind, pc: Pc)
    requires Promotes(pc)
  {
    match pc
    case ConfirmTech(r, t, b) => Named(st, r, t, b) && OwnPair(st, q, kind, t, b)
    case ConfirmBay(r, t, b) => Named(st, r, t, b) && OwnPair(st, q, kind, t, b) && WasConfirmed(st, t)
    case Flip(r, t, b) => Named(st, r, t, b) && OwnPair(st, q, kind, t, b) && WasConfirmed(st, t) && WasConfirmed(st, b)
    case Reread(r, t, b, _) => Named(st, r, t, b) && OwnPair(st, q, kind, t, b) && WasConfirmed(st, t)
        && WasConfirmed(st, b)
    case FinalGet(r) => r in st.rows && r in st.birth && BirthConfirmed(st, r)
  }

  ghost predicate LocalRelease(st: Stores, q: Id, kind: Kind, pc: Pc)
    requires pc.RelBay? || pc.RelTech?
  {
    match pc
    case RelBay(t, b, res) =>
      IsError(res) && Releasable(st, q, t, Tech) && Releasable(st, q, b, Bay)
          && (Books(kind) ==> OwnPair(st, q, DirectReq("", kind.body), t, b))
    case RelTech(t, res) =>
      IsError(res) && Releasable(st, q, t, Tech) && (Books(kind) ==> st.claims[t].owner == q)
  }

  ghost predicate LocalCancel(st: Stores, kind: Kind, pc: Pc)
    requires kind.CancelReq? && Cancels(pc)
  {
    match pc
    case CancelLoad => true
    case CancelCas(t, b) => CopyOf(st, kind.row, t, b)
    case CancelBay(t, b) => CopyOf(st, kind.row, t, b) && IsCancelled(st, kind.row)
    case CancelTech(t, bayOk) =>
      && IsCancelled(st, kind.row)
      && (exists b :: CopyOf(st, kind.row, t, b))
      && (bayOk ==> DeadHalf(st, kind.row, Bay))
  }

  ghost predicate LocalSweep(st: Stores, pc: Pc)
    requires Sweeps(pc)
  {
    match pc
    case SweepBatch => true
    case SweepList => true
    case SweepBay(todo, _) => todo != [] && ItemsOk(st, todo)
    case SweepTech(todo, bayOk, _) => todo != [] && ItemsOk(st, todo) && (bayOk ==> DeadHalf(st, todo[0].row, Bay))
    case SweepClear(todo, _) =>
      todo != [] && ItemsOk(st, todo) && DeadHalf(st, todo[0].row, Bay) && DeadHalf(st, todo[0].row, Tech)
  }

  ghost predicate Local(st: Stores, q: Id, kind: Kind, pc: Pc) {
    if pc.Done? then ResultOk(st, kind, pc.res)
    else if pc.Crashed? then true
    else
      Fits(kind, pc) &&
      if pc.Pick? || pc.Put? || pc.Reaping? || pc.Insert? then LocalReserve(st, q, kind, pc)
      else if Promotes(pc) then LocalPromote(st, q, kind, pc)
      else if pc.RelBay? || pc.RelTech? then LocalRelease(st, q, kind, pc)
      else if pc.Load? then true
      else if pc.KeyCheck? then kind.row in st.rows
      else if Cancels(pc) then LocalCancel(st, kind, pc)
      else if Sweeps(pc) then LocalSweep(st, pc)
      else true
  }

  ghost predicate Inv(s: State) {
    StoreInv(s.st) && forall q | q in s.reqs :: Local(s.st, q, s.reqs[q].kind, s.reqs[q].pc)
  }

  // ---- Stability: nobody else's step breaks an assertion -------------------------------

  lemma DeadHalfStable(st: Stores, st': Stores, r: Id, side: Side, actor: Option<Id>)
    requires Evolve(st, st', actor) && r in st.rows && r in st.birth && DeadHalf(st, r, side)
    ensures r in st'.birth && DeadHalf(st', r, side)
  {
    assert RowEvolves(st, st', r);
    var half := if side == Tech then st.birth[r].techOcc else st.birth[r].bayOcc;
    assert ClaimEvolves(st, st', half.value, actor);
  }

  lemma CopyStable(st: Stores, st': Stores, r: Id, t: Option<OccId>, b: Option<OccId>, actor: Option<Id>)
    requires Evolve(st, st', actor) && CopyOf(st, r, t, b)
    ensures CopyOf(st', r, t, b)
    ensures IsCancelled(st, r) ==> IsCancelled(st', r)
  {
    assert RowEvolves(st, st', r);
  }

  lemma ItemsStable(st: Stores, st': Stores, todo: seq<Item>, actor: Option<Id>)
    requires Evolve(st, st', actor) && ItemsOk(st, todo)
    ensures ItemsOk(st', todo)
  {
    forall it | it in todo
      ensures ItemOk(st', it)
    {
      assert ItemOk(st, it);
      CopyStable(st, st', it.row, it.tech, it.bay, actor);
    }
  }

  lemma MineStable(st: Stores, st': Stores, q: Id, c: Claimed, side: Side, start: int, actor: Option<Id>)
    requires Evolve(st, st', actor) && actor != Some(q) && Mine(st, q, c, side, start)
    requires ClaimsOk(st) && ClaimsOk(st')
    ensures Mine(st', q, c, side, start) && st'.claims[c.id].at == st.claims[c.id].at
  {
    assert ClaimEvolves(st, st', c.id, actor);
  }

  lemma ReserveStable(st: Stores, st': Stores, q: Id, kind: Kind, pc: Pc, actor: Option<Id>)
    requires Evolve(st, st', actor) && actor != Some(q) && ClaimsOk(st) && ClaimsOk(st')
    requires Books(kind) && (pc.Pick? || pc.Put? || pc.Reaping? || pc.Insert?) && LocalReserve(st, q, kind, pc)
    ensures LocalReserve(st', q, kind, pc)
  {
    hide ClaimEvolves, RowEvolves, ClaimOk;
    if pc.Insert? {
      MineStable(st, st', q, pc.t, Tech, kind.body.start, actor);
      MineStable(st, st', q, pc.b, Bay, kind.body.start, actor);
    } else {
      if pc.prior.Some? { MineStable(st, st', q, pc.prior.value, Tech, kind.body.start, actor); }
      if pc.Put? {
        forall id | id in pc.seen
          ensures id in st'.claims && !Blocks(st'.occs, id, SideOf(pc.prior), pc.resource, kind.body.start, pc.end)
        {
          BlockStable(st, st', id, SideOf(pc.prior), pc.resource, kind.body.start, pc.end, actor);
        }
      }
    }
  }

  /** What did not block when it was looked at never blocks later. */
  lemma BlockStable(st: Stores, st': Stores, id: OccId, side: Side, resource: Id, start: int, end: int,
      actor: Option<Id>)
    requires Evolve(st, st', actor) && ClaimsOk(st) && ClaimsOk(st') && id in st.claims
    requires !Blocks(st.occs, id, side, resource, start, end)
    ensures id in st'.claims && !Blocks(st'.occs, id, side, resource, start, end)
  {
    assert ClaimEvolves(st, st', id, actor);
    assert ClaimOk(st, id) && ClaimOk(st', id);
  }

  lemma WasConfirmedStable(st: Stores, st': Stores, id: OccId, actor: Option<Id>)
    requires Evolve(st, st', actor) && id in st.claims
    ensures id in st'.claims && st'.claims[id].owner == st.claims[id].owner
    ensures st.claims[id].row.Some? ==> st'.claims[id].row == st.claims[id].row
    ensures WasConfirmed(st, id) ==> WasConfirmed(st', id)
  {
    assert ClaimEvolves(st, st', id, actor);
  }

  lemma NamedStable(st: Stores, st': Stores, r: Id, t: OccId, b: OccId, actor: Option<Id>)
    requires StoreInv(st) && Evolve(st, st', actor) && Named(st, r, t, b)
    ensures Named(st', r, t, b)
    ensures t in st.claims && b in st.claims && st.claims[t].row == Some(r) && st.claims[b].row == Some(r)
  {
    assert RowOk(st, r);
    assert RowEvolves(st, st', r);
  }

  lemma PromoteStable(st: Stores, st': Stores, q: Id, kind: Kind, pc: Pc, actor: Option<Id>)
    requires StoreInv(st) && Evolve(st, st', actor)
    requires Promotes(pc) && LocalPromote(st, q, kind, pc)
    ensures LocalPromote(st', q, kind, pc)
  {
    hide ClaimEvolves, RowOk, ClaimOk, Exclusive, UniqueKeys;
    if pc.FinalGet? {
      assert RowEvolves(st, st', pc.row);
      WasConfirmedStable(st, st', st.birth[pc.row].techOcc.value, actor);
      WasConfirmedStable(st, st', st.birth[pc.row].bayOcc.value, actor);
    } else {
      NamedStable(st, st', pc.row, pc.tech, pc.bay, actor);
      WasConfirmedStable(st, st', pc.tech, actor);
      WasConfirmedStable(st, st', pc.bay, actor);
    }
  }

  lemma ReleaseStable(st: Stores, st': Stores, q: Id, kind: Kind, pc: Pc, actor: Option<Id>)
    requires Evolve(st, st', actor)
    requires (pc.RelBay? || pc.RelTech?) && LocalRelease(st, q, kind, pc)
    ensures LocalRelease(st', q, kind, pc)
  {
    hide ClaimEvolves, RowEvolves;
    WasConfirmedStable(st, st', pc.tech, actor);
    if pc.RelBay? { WasConfirmedStable(st, st', pc.bay, actor); }
  }

  lemma CancelStable(st: Stores, st': Stores, kind: Kind, pc: Pc, actor: Option<Id>)
    requires RowsOk(st) && Evolve(st, st', actor)
    requires kind.CancelReq? && Cancels(pc) && LocalCancel(st, kind, pc)
    ensures LocalCancel(st', kind, pc)
  {
    hide ClaimEvolves, RowEvolves, RowOk;
    match pc
    case CancelLoad =>
    case CancelCas(t, b) => CopyStable(st, st', kind.row, t, b, actor);
    case CancelBay(t, b) => CopyStable(st, st', kind.row, t, b, actor);
    case CancelTech(t, bayOk) =>
      var b :| CopyOf(st, kind.row, t, b);
      CopyStable(st, st', kind.row, t, b, actor);
      if bayOk { DeadHalfStable(st, st', kind.row, Bay, actor); }
  }

  lemma SweepStable(st: Stores, st': Stores, pc: Pc, actor: Option<Id>)
    requires RowsOk(st) && Evolve(st, st', actor) && Sweeps(pc) && LocalSweep(st, pc)
    ensures LocalSweep(st', pc)
  {
    hide ClaimEvolves, RowEvolves, RowOk;
    if pc.SweepBay? || pc.SweepTech? || pc.SweepClear? {
      ItemsStable(st, st', pc.todo, actor);
      assert ItemOk(st, pc.todo[0]);
      if pc.SweepClear? || (pc.SweepTech? && pc.bayOk) { DeadHalfStable(st, st', pc.todo[0].row, Bay, actor); }
      if pc.SweepClear? { DeadHalfStable(st, st', pc.todo[0].row, Tech, actor); }
    }
  }

  lemma BookedStable(st: Stores, st': Stores, r: Id, actor: Option<Id>)
    requires Evolve(st, st', actor) && r in st.rows && r in st.birth && BirthConfirmed(st, r)
    ensures r in st'.rows && r in st'.birth && BirthConfirmed(st', r)
  {
    hide ClaimEvolves;
    assert RowEvolves(st, st', r);
    WasConfirmedStable(st, st', st.birth[r].techOcc.value, actor);
    WasConfirmedStable(st, st', st.birth[r].bayOcc.value, actor);
  }

  lemma RowStays(st: Stores, st': Stores, r: Id, actor: Option<Id>)
    requires Evolve(st, st', actor) && r in st.rows
    ensures r in st'.rows && r in st'.birth && (IsCancelled(st, r) ==> IsCancelled(st', r))
  {
    assert RowEvolves(st, st', r);
  }

  lemma ResultStable(st: Stores, st': Stores, kind: Kind, res: Result, actor: Option<Id>)
    requires RowsOk(st) && Evolve(st, st', actor) && ResultOk(st, kind, res)
    ensures ResultOk(st', kind, res)
  {
    hide Evolve, RowsOk, DeadHalf, BirthConfirmed, IsCancelled;
    match res {
      case Created(r) => RowStays(st, st', r, actor);
      case Replayed(r) => RowStays(st, st', r, actor);
      case Booked(r) => BookedStable(st, st', r, actor);
      case CancelDone(r, bayOk, techOk) =>
        RowKnown(st, r);
        RowStays(st, st', r, actor);
        if bayOk { DeadHalfStable(st, st', r, Bay, actor); }
        if techOk { DeadHalfStable(st, st', r, Tech, actor); }
      case _ =>
    }
  }

  lemma RowKnown(st: Stores, r: Id)
    requires IsCancelled(st, r)
    ensures r in st.rows
  {
  }

  /** Interference freedom: steps of others keep q's assertion. */
  lemma LocalStable(st: Stores, st': Stores, q: Id, kind: Kind, pc: Pc, actor: Option<Id>)
    requires StoreInv(st) && StoreInv(st') && Evolve(st, st', actor) && actor != Some(q)
    requires Local(st, q, kind, pc)
    ensures Local(st', q, kind, pc)
  {
    hide ClaimOk, RowOk, ClaimEvolves, LocalReserve, LocalPromote, LocalRelease, LocalCancel, LocalSweep, ResultOk;
    if pc.Done? { ResultStable(st, st', kind, pc.res, actor); }
    else if pc.Crashed? {}
    else if pc.Pick? || pc.Put? || pc.Reaping? || pc.Insert? { ReserveStable(st, st', q, kind, pc, actor); }
    else if Promotes(pc) { PromoteStable(st, st', q, kind, pc, actor); }
    else if pc.RelBay? || pc.RelTech? { ReleaseStable(st, st', q, kind, pc, actor); }
    else if pc.KeyCheck? { assert RowEvolves(st, st', kind.row); }
    else if Cancels(pc) { CancelStable(st, st', kind, pc, actor); }
    else if Sweeps(pc) { SweepStable(st, st', pc, actor); }
  }

  // ---- Each request's own step ---------------------------------------------------------

  /** What one call of request q must show. */
  ghost predicate Preserves(st: Stores, q: Id, kind: Kind, m: Move) {
    StoreInv(m.st) && Evolve(st, m.st, Some(q)) && Local(m.st, q, kind, m.pc)
  }

  lemma ReserveFailedOk(st: Stores, q: Id, kind: Kind, prior: Option<Claimed>)
    requires Books(kind) && PriorOk(st, q, prior, kind.body.start)
    ensures Local(st, q, kind, ReserveFailed(prior))
  {
  }

  /** q's own claim survives q's own table statements that do not touch it. */
  lemma MineKept(st: Stores, st': Stores, q: Id, c: Claimed, side: Side, start: int)
    requires Mine(st, q, c, side, start) && c.id in st'.claims && st'.claims[c.id] == st.claims[c.id]
    requires c.id in st'.occs ==> c.id in st.occs && st'.occs[c.id] == st.occs[c.id]
    ensures Mine(st', q, c, side, start)
  {
  }

  lemma PutOk(st: Stores, q: Id, kind: Kind, pc: Pc, ch: Choice, lost: bool)
    requires StoreInv(st) && Books(kind) && pc.Put? && LocalReserve(st, q, kind, pc)
    requires OccId(SideOf(pc.prior), ch.key) !in st.claims
    requires Free(st.occs, SideOf(pc.prior), pc.resource, kind.body.start, pc.end)
    ensures var id := OccId(SideOf(pc.prior), ch.key);
            var st' := InsertOcc(st, id, pc.resource, kind.body.start, pc.end, q, lost);
            && StoreInv(st') && Evolve(st, st', Some(q))
            && Local(st', q, kind, ReserveFailed(pc.prior))
            && (!lost ==> Local(st', q, kind, ReserveDone(pc.prior, Claimed(id, pc.resource, kind.body.start, pc.end))))
  {
    hide ClaimOk, RowOk, ClaimEvolves, RowEvolves, Exclusive, UniqueKeys;
    var id := OccId(SideOf(pc.prior), ch.key);
    var st' := InsertOcc(st, id, pc.resource, kind.body.start, pc.end, q, lost);
    InsertOccOk(st, id, pc.resource, kind.body.start, pc.end, q, lost);
    if pc.prior.Some? {
      MineKept(st, st', q, pc.prior.value, Tech, kind.body.start);
      assert ClaimOk(st, pc.prior.value.id);
      ClaimAt(st, pc.prior.value.id);
    }
    ReserveFailedOk(st', q, kind, pc.prior);
  }

  lemma ClaimAt(st: Stores, id: OccId)
    requires id in st.claims && ClaimOk(st, id)
    ensures st.claims[id].at <= st.now && st.claims[id].start < st.claims[id].end
  {
  }

  lemma ReserveStepOk(st: Stores, q: Id, kind: Kind, pc: Pc, ch: Choice)
    requires StoreInv(st) && Fits(kind, pc) && Books(kind) && (pc.Pick? || pc.Put? || pc.Reaping?)
    requires LocalReserve(st, q, kind, pc) && ChoiceOk(st, kind, pc, ch)
    ensures Preserves(st, q, kind, MoveReserve(st, q, kind, pc, ch))
  {
    hide ClaimOk, RowOk, ClaimEvolves, RowEvolves, Exclusive, UniqueKeys, InsertOcc, ReapOccs;
    EvolveRefl(st, Some(q));
    ReserveFailedOk(st, q, kind, pc.prior);
    match pc {
      case Pick(prior, n) =>
        if ch.reply == Ok && ch.found {
          var end := if prior.None? then ch.end else prior.value.end;
          forall id | id in st.claims.Keys
            ensures !Blocks(st.occs, id, SideOf(prior), ch.resource, kind.body.start, end)
          {
          }
        }
      case Put(prior, n, resource, end, seen) =>
        if ch.reply != Failed && Free(st.occs, SideOf(prior), resource, kind.body.start, end) {
          PutOk(st, q, kind, pc, ch, ch.reply == Lost);
        }
      case Reaping(prior, n) =>
        if ch.reply != Failed {
          ReapOccsOk(st, SideOf(prior), Some(q));
          ReapMine(st, q, prior, kind.body.start, SideOf(prior));
          ReserveFailedOk(ReapOccs(st, SideOf(prior)), q, kind, prior);
        }
    }
  }

  lemma ReapMine(st: Stores, q: Id, prior: Option<Claimed>, start: int, side: Side)
    requires PriorOk(st, q, prior, start)
    ensures PriorOk(ReapOccs(st, side), q, prior, start)
  {
  }

  lemma BookStepOk(st: Stores, q: Id, kind: Kind, pc: Pc, ch: Choice)
    requires StoreInv(st) && Fits(kind, pc) && (pc.Lookup? || pc.Insert?)
    requires Local(st, q, kind, pc) && ChoiceOk(st, kind, pc, ch)
    ensures Preserves(st, q, kind, MoveBook(st, q, kind, pc, ch))
  {
    hide ClaimsEvolve, RowsEvolve, ClaimOk, RowOk, ClaimEvolves, RowEvolves, Exclusive, UniqueKeys;
    EvolveRefl(st, Some(q));
    if pc.Insert? && ch.reply != Failed {
      InsertRowOk(st, ch.key, kind.body.who, pc.t.id, pc.t.resource, pc.b.id, pc.b.resource, kind.body.start,
          pc.t.end, q);
    }
  }

  lemma ConfirmStepOk(st: Stores, q: Id, kind: Kind, r: Id, t: OccId, b: OccId, id: OccId)
    requires StoreInv(st) && Named(st, r, t, b) && OwnPair(st, q, kind, t, b) && (id == t || id == b)
    ensures var st' := ConfirmOcc(st, id);
            && StoreInv(st') && Evolve(st, st', Some(q)) && Named(st', r, t, b) && OwnPair(st', q, kind, t, b)
            && Releasable(st', q, t, Tech) && Releasable(st', q, b, Bay)
            && Releasable(st, q, t, Tech) && Releasable(st, q, b, Bay)
            && (WasConfirmed(st, t) ==> WasConfirmed(st', t))
            && (Confirmable(st.occs, st.now, id) ==> WasConfirmed(st', id))
  {
    hide ClaimOk, ClaimEvolves, RowEvolves, Exclusive, UniqueKeys;
    assert RowOk(st, r);
    ConfirmOccOk(st, id, Some(q));
    WasConfirmedStable(st, ConfirmOcc(st, id), t, Some(q));
    WasConfirmedStable(st, ConfirmOcc(st, id), b, Some(q));
  }

  lemma FlipOk(st: Stores, q: Id, kind: Kind, r: Id, t: OccId, b: OccId)
    requires StoreInv(st) && Confirms(kind) && LocalPromote(st, q, kind, Flip(r, t, b))
    ensures var st' := PromoteRow(st, r, kind.key, PrintOf(st, kind, r));
            && StoreInv(st') && Evolve(st, st', Some(q))
            && LocalPromote(st', q, kind, Reread(r, t, b, false)) && LocalPromote(st', q, kind, FinalGet(r))
  {
    hide ClaimOk, ClaimEvolves, RowEvolves, Exclusive, UniqueKeys, PrintOf;
    assert RowOk(st, r);
    PromoteRowOk(st, r, kind.key, PrintOf(st, kind, r), Some(q));
  }

  lemma ConfirmCallOk(st: Stores, q: Id, kind: Kind, pc: Pc, ch: Choice)
    requires StoreInv(st) && Confirms(kind) && (pc.ConfirmTech? || pc.ConfirmBay?)
    requires Fits(kind, pc) && LocalPromote(st, q, kind, pc)
    ensures Preserves(st, q, kind, MovePromote(st, kind, pc, ch))
  {
    hide StoreInv, Evolve, WasConfirmed, Releasable, OwnPair, ConfirmOcc, Confirmable;
    EvolveRefl(st, Some(q));
    var id := if pc.ConfirmTech? then pc.tech else pc.bay;
    ConfirmStepOk(st, q, kind, pc.row, pc.tech, pc.bay, id);
    assert Books(kind) ==> OwnPair(st, q, DirectReq("", kind.body), pc.tech, pc.bay)
                           && OwnPair(ConfirmOcc(st, id), q, DirectReq("", kind.body), pc.tech, pc.bay) by {
      OwnPairKey(st, q, kind, pc.tech, pc.bay);
      OwnPairKey(ConfirmOcc(st, id), q, kind, pc.tech, pc.bay);
    }
  }

  /** Ownership of the pair depends on the kind of request alone, not on its key. */
  lemma OwnPairKey(st: Stores, q: Id, kind: Kind, t: OccId, b: OccId)
    requires OwnPair(st, q, kind, t, b)
    ensures kind.DirectReq? ==> OwnPair(st, q, DirectReq("", kind.body), t, b)
  {
  }

  lemma FlipCallOk(st: Stores, q: Id, kind: Kind, pc: Pc, ch: Choice)
    requires StoreInv(st) && Confirms(kind) && pc.Flip? && Fits(kind, pc) && LocalPromote(st, q, kind, pc)
    ensures Preserves(st, q, kind, MovePromote(st, kind, pc, ch))
  {
    hide StoreInv, Evolve, WasConfirmed, PromoteRow, PrintOf, CanPromote, OwnPair;
    EvolveRefl(st, Some(q));
    FlipOk(st, q, kind, pc.row, pc.tech, pc.bay);
  }

  lemma RereadCallOk(st: Stores, q: Id, kind: Kind, pc: Pc, ch: Choice)
    requires StoreInv(st) && Confirms(kind) && pc.Reread? && Fits(kind, pc) && LocalPromote(st, q, kind, pc)
    ensures Preserves(st, q, kind, MovePromote(st, kind, pc, ch))
  {
    hide StoreInv, Evolve, WasConfirmed, ConfirmOcc, OwnPair, Releasable;
    EvolveRefl(st, Some(q));
    ConfirmStepOk(st, q, kind, pc.row, pc.tech, pc.bay, pc.bay);
    OwnPairKey(st, q, kind, pc.tech, pc.bay);
  }

  lemma PromoteStepOk(st: Stores, q: Id, kind: Kind, pc: Pc, ch: Choice)
    requires StoreInv(st) && Fits(kind, pc) && Promotes(pc) && Confirms(kind)
    requires LocalPromote(st, q, kind, pc)
    ensures Preserves(st, q, kind, MovePromote(st, kind, pc, ch))
  {
    hide StoreInv, Evolve, Local, LocalPromote, MovePromote, Preserves;
    if pc.FinalGet? { FinalCallOk(st, q, kind, pc, ch); }
    else if pc.Flip? { FlipCallOk(st, q, kind, pc, ch); }
    else if pc.Reread? { RereadCallOk(st, q, kind, pc, ch); }
    else { ConfirmCallOk(st, q, kind, pc, ch); }
  }

  lemma FinalCallOk(st: Stores, q: Id, kind: Kind, pc: Pc, ch: Choice)
    requires StoreInv(st) && pc.FinalGet? && Confirms(kind)
    requires LocalPromote(st, q, kind, pc)
    ensures Preserves(st, q, kind, MovePromote(st, kind, pc, ch))
  {
    hide StoreInv, Evolve;
    EvolveRefl(st, Some(q));
  }

  lemma ReleaseStepOk(st: Stores, q: Id, kind: Kind, pc: Pc, ch: Choice)
    requires StoreInv(st) && Fits(kind, pc) && (pc.RelBay? || pc.RelTech?)
    requires LocalRelease(st, q, kind, pc)
    ensures Preserves(st, q, kind, MoveRelease(st, pc, ch))
  {
    hide ClaimOk, RowOk, ClaimEvolves, RowEvolves, Exclusive, UniqueKeys;
    EvolveRefl(st, Some(q));
    ReleaseOccOk(st, if pc.RelBay? then pc.bay else pc.tech, Some(q));
  }

  lemma HoldStepOk(st: Stores, q: Id, kind: Kind, pc: Pc, ch: Choice)
    requires StoreInv(st) && Fits(kind, pc) && kind.PromoteReq? && (pc.Load? || pc.KeyCheck?)
    requires Local(st, q, kind, pc)
    ensures Preserves(st, q, kind, MoveHold(st, kind, pc, ch))
  {
    hide ClaimsEvolve, RowsEvolve, HalfOk, ClaimOk, ClaimEvolves, RowEvolves, Exclusive, UniqueKeys;
    EvolveRefl(st, Some(q));
    if kind.row in st.rows { assert RowOk(st, kind.row); }
  }

  /** A best-effort Release of an id copied from row r. */
  lemma CopyReleaseOk(st: Stores, q: Id, r: Id, t: Option<OccId>, b: Option<OccId>, side: Side, reply: Reply)
    requires StoreInv(st) && IsCancelled(st, r) && CopyOf(st, r, t, b)
    ensures var id := if side == Tech then t else b;
            var st' := ReleaseOpt(st, id, reply);
            && StoreInv(st') && Evolve(st, st', Some(q)) && r in st'.birth
            && (id.None? || reply != Failed ==> DeadHalf(st', r, side))
  {
    hide ClaimOk, ClaimEvolves, RowEvolves, Exclusive, UniqueKeys;
    EvolveRefl(st, Some(q));
    assert RowOk(st, r);
    var id := if side == Tech then t else b;
    if id.Some? { ReleaseOccOk(st, id.value, Some(q)); }
  }

  lemma CancelOk(st: Stores, batch: set<Id>, actor: Option<Id>)
    requires StoreInv(st)
    ensures var st' := CancelRows(st, batch);
            StoreInv(st') && Evolve(st, st', actor)
  {
    hide StoreInv, Evolve;
    CancelRowsOk(st, batch, actor);
  }

  lemma CancelStepOk(st: Stores, q: Id, kind: Kind, pc: Pc, ch: Choice)
    requires StoreInv(st) && kind.CancelReq? && Cancels(pc)
    requires LocalCancel(st, kind, pc)
    ensures Preserves(st, q, kind, MoveCancel(st, kind, pc, ch))
  {
    hide ClaimOk, RowOk, ClaimEvolves, RowEvolves, Exclusive, UniqueKeys, ReleaseOpt;
    EvolveRefl(st, Some(q));
    match pc {
      case CancelLoad =>
        if kind.row in st.rows { CopyOfRow(st, kind.row); }
      case CancelCas(t, b) =>
        CancelOk(st, {kind.row}, Some(q));
        CopyStable(st, CancelRows(st, {kind.row}), kind.row, t, b, Some(q));
      case CancelBay(t, b) =>
        CopyReleaseOk(st, q, kind.row, t, b, Bay, ch.reply);
        CopyStable(st, ReleaseOpt(st, b, ch.reply), kind.row, t, b, Some(q));
      case CancelTech(t, bayOk) =>
        var b :| CopyOf(st, kind.row, t, b);
        CopyReleaseOk(st, q, kind.row, t, b, Tech, ch.reply);
        CopyStable(st, ReleaseOpt(st, t, ch.reply), kind.row, t, b, Some(q));
        if bayOk { DeadHalfStable(st, ReleaseOpt(st, t, ch.reply), kind.row, Bay, Some(q)); }
    }
  }

  lemma CopyOfRow(st: Stores, r: Id)
    requires StoreInv(st) && r in st.rows
    ensures CopyOf(st, r, st.rows[r].techOcc, st.rows[r].bayOcc)
  {
    assert RowOk(st, r);
  }

  lemma {:induction false} NextItemOk(st: Stores, q: Id, todo: seq<Item>, more: bool)
    requires ItemsOk(st, todo)
    ensures Local(st, q, SweepReq, NextItem(todo, more))
    decreases |todo|
  {
    if todo != [] && todo[0].tech.None? && todo[0].bay.None? {
      NextItemOk(st, q, todo[1..], more);
    }
  }

  lemma ItemsOfRows(st: Stores, rows: seq<Id>)
    requires StoreInv(st) && forall r | r in rows :: r in st.rows && IsCancelled(st, r)
    ensures ItemsOk(st, Items(st, rows))
  {
    hide RowOk, ClaimOk, CopyOf;
    var items := Items(st, rows);
    forall it | it in items
      ensures ItemOk(st, it)
    {
      var i :| 0 <= i < |items| && items[i] == it;
      assert rows[i] in rows;
      CopyOfRow(st, rows[i]);
    }
  }

  lemma SweepStepOk(st: Stores, q: Id, pc: Pc, ch: Choice)
    requires StoreInv(st) && Sweeps(pc) && MoveOkSweep(st, pc, ch)
    requires LocalSweep(st, pc)
    ensures Preserves(st, q, SweepReq, MoveSweep(st, pc, ch))
  {
    hide ClaimOk, RowOk, ClaimEvolves, RowEvolves, Exclusive, UniqueKeys, ReleaseOpt, ClearRow, Local, Items;
    EvolveRefl(st, Some(q));
    match pc {
      case SweepBatch => SweepBatchOk(st, q, ch);
      case SweepList =>
        assert Local(st, q, SweepReq, Done(Swept)) by { SweptOk(st, q); }
        if ch.reply == Ok {
          ItemsOfRows(st, ch.rows);
          NextItemOk(st, q, Items(st, ch.rows), false);
        }
      case SweepBay(todo, more) => SweepBayOk(st, q, todo, more, ch.reply);
      case SweepTech(todo, bayOk, more) => SweepTechOk(st, q, todo, bayOk, more, ch.reply);
      case SweepClear(todo, more) => SweepClearOk(st, q, todo, more, ch.reply);
    }
  }

  lemma SweptOk(st: Stores, q: Id)
    ensures Local(st, q, SweepReq, Done(Swept))
  {
  }

  lemma SweepBatchOk(st: Stores, q: Id, ch: Choice)
    requires StoreInv(st) && MoveOkSweep(st, SweepBatch, ch)
    ensures Preserves(st, q, SweepReq, MoveSweep(st, SweepBatch, ch))
  {
    hide ClaimOk, RowOk, ClaimEvolves, RowEvolves, Exclusive, UniqueKeys;
    EvolveRefl(st, Some(q));
    if ch.reply != Failed {
      var st' := CancelRows(st, set r | r in ch.rows);
      CancelOk(st, (set r | r in ch.rows), Some(q));
      assert forall r | r in ch.rows :: IsCancelled(st', r);
      ItemsOfRows(st', ch.rows);
      NextItemOk(st', q, Items(st', ch.rows), true);
    }
  }

  lemma SweepBayOk(st: Stores, q: Id, todo: seq<Item>, more: bool, reply: Reply)
    requires StoreInv(st) && todo != [] && ItemsOk(st, todo)
    ensures Preserves(st, q, SweepReq,
              Move(ReleaseOpt(st, todo[0].bay, reply), SweepTech(todo, todo[0].bay.None? || reply == Ok, more)))
  {
    hide ClaimOk, RowOk, ClaimEvolves, RowEvolves, Exclusive, UniqueKeys, ReleaseOpt;
    var it := todo[0];
    assert ItemOk(st, it);
    CopyReleaseOk(st, q, it.row, it.tech, it.bay, Bay, reply);
    ItemsStable(st, ReleaseOpt(st, it.bay, reply), todo, Some(q));
  }

  lemma SweepTechOk(st: Stores, q: Id, todo: seq<Item>, bayOk: bool, more: bool, reply: Reply)
    requires StoreInv(st) && LocalSweep(st, SweepTech(todo, bayOk, more))
    ensures Preserves(st, q, SweepReq,
              Move(ReleaseOpt(st, todo[0].tech, reply),
                   if bayOk && (todo[0].tech.None? || reply == Ok) then SweepClear(todo, more)
                       else NextItem(todo[1..], more)))
  {
    hide ClaimOk, RowOk, ClaimEvolves, RowEvolves, Exclusive, UniqueKeys, ReleaseOpt;
    var it := todo[0];
    assert ItemOk(st, it);
    CopyReleaseOk(st, q, it.row, it.tech, it.bay, Tech, reply);
    var st' := ReleaseOpt(st, it.tech, reply);
    ItemsStable(st, st', todo, Some(q));
    if bayOk { DeadHalfStable(st, st', it.row, Bay, Some(q)); }
    NextItemOk(st', q, todo[1..], more);
  }

  lemma SweepClearOk(st: Stores, q: Id, todo: seq<Item>, more: bool, reply: Reply)
    requires StoreInv(st) && LocalSweep(st, SweepClear(todo, more))
    ensures Preserves(st, q, SweepReq,
              Move(if reply == Failed then st else ClearRow(st, todo[0].row), NextItem(todo[1..], more)))
  {
    hide ClaimOk, ClaimEvolves, RowEvolves, Exclusive, UniqueKeys, ClearRow;
    EvolveRefl(st, Some(q));
    var r := todo[0].row;
    assert ItemOk(st, todo[0]);
    assert RowOk(st, r);
    ClearRowOk(st, r, Some(q));
    var st' := if reply == Failed then st else ClearRow(st, r);
    ItemsStable(st, st', todo, Some(q));
    NextItemOk(st', q, todo[1..], more);
  }

  /** A request's own call keeps the stores in order, stays within its guarantee, and
      establishes its next assertion. */
  lemma CallOk(st: Stores, q: Id, kind: Kind, pc: Pc, ch: Choice)
    requires StoreInv(st) && Active(pc) && Local(st, q, kind, pc) && Fits(kind, pc) && ChoiceOk(st, kind, pc, ch)
    ensures Preserves(st, q, kind, MoveAny(st, q, kind, pc, ch))
  {
    hide ClaimOk, RowOk, ClaimEvolves, RowEvolves, StoreInv, Preserves;
    hide LocalReserve, LocalPromote, LocalRelease, LocalCancel, LocalSweep;
    hide MoveReserve, MoveBook, MovePromote, MoveRelease, MoveHold, MoveCancel, MoveSweep;
    if pc.Pick? || pc.Put? || pc.Reaping? { ReserveStepOk(st, q, kind, pc, ch); }
    else if pc.Lookup? || pc.Insert? { BookStepOk(st, q, kind, pc, ch); }
    else if Promotes(pc) { PromoteStepOk(st, q, kind, pc, ch); }
    else if pc.RelBay? || pc.RelTech? { ReleaseStepOk(st, q, kind, pc, ch); }
    else if pc.Load? || pc.KeyCheck? { HoldStepOk(st, q, kind, pc, ch); }
    else if Cancels(pc) { CancelStepOk(st, q, kind, pc, ch); }
    else { SweepStepOk(st, q, pc, ch); }
  }

  // ---- The whole machine ---------------------------------------------------------------

  function ActorOf(step: Step): Option<Id> {
    if step.Call? then Some(step.q) else None
  }

  /** Every step, whatever fails, keeps the invariant. */
  lemma StepInv(s: State, step: Step)
    requires Inv(s) && Enabled(s, step)
    ensures Inv(Apply(s, step)) && Evolve(s.st, Apply(s, step).st, ActorOf(step))
  {
    hide StoreInv, Evolve, Local, MoveAny, ChoiceOk;
    var s' := Apply(s, step);
    match step {
      case Tick(to) => AdvanceOk(s.st, to);
      case ReapTick(side) => ReapOccsOk(s.st, side, None);
      case Begin(q, kind) => EvolveRefl(s.st, None); StartOk(s.st, q, kind);
      case Crash(q) => EvolveRefl(s.st, None); CrashOk(s.st, q, s.reqs[q].kind);
      case Call(q, ch) =>
        CallOk(s.st, q, s.reqs[q].kind, s.reqs[q].pc, ch);
    }
    forall q | q in s'.reqs
      ensures Local(s'.st, q, s'.reqs[q].kind, s'.reqs[q].pc)
    {
      if q in s.reqs && s'.reqs[q] == s.reqs[q] && ActorOf(step) != Some(q) {
        LocalStable(s.st, s'.st, q, s.reqs[q].kind, s.reqs[q].pc, ActorOf(step));
      }
    }
  }

  lemma StartOk(st: Stores, q: Id, kind: Kind)
    ensures Local(st, q, kind, StartPc(kind))
  {
  }

  lemma CrashOk(st: Stores, q: Id, kind: Kind)
    ensures Local(st, q, kind, Crashed)
  {
  }

  lemma {:induction false} RunInv(s: State, tr: seq<Step>)
    requires Inv(s) && Run(s, tr)
    ensures Inv(Exec(s, tr))
    decreases |tr|
  {
    hide Inv, Enabled, Apply;
    if tr != [] {
      StepInv(s, tr[0]);
      RunInv(Apply(s, tr[0]), tr[1..]);
    }
  }

  /** The invariant holds in every reachable state, under any faults. */
  lemma ReachableInv(s: State)
    requires Reachable(s)
    ensures Inv(s)
  {
    var tr :| Run(INIT, tr) && Exec(INIT, tr) == s;
    RunInv(INIT, tr);
  }
}
