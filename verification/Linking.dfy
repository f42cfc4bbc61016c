/** A CONFIRMED appointment really holds its technician and its bay.

    Each allocator keeps its own table free of overlaps, but nothing in one store refers
    to another, so this needs an invariant across all three. Two hypotheses make it
    inductive, each about one row r only: `Genuine` (any number of confirmers, honest
    errors) and, in SoleConfirmer, one confirmer at a time under harsher faults. */
module Linking {
  import opened Wrappers
  import opened Allocator
  import opened Stores
  import opened Protocol
  import opened Invariant

  /** Both occupations of a CONFIRMED row are CONFIRMED, on its resources and interval. */
  ghost predicate Linked(st: Stores, r: Id) {
    r in st.rows && st.rows[r].status.Confirmed? ==>
      && HoldsHalf(st, r, st.rows[r].techOcc, Tech, st.rows[r].tech)
      && HoldsHalf(st, r, st.rows[r].bayOcc, Bay, st.rows[r].bay)
  }

  ghost predicate HoldsHalf(st: Stores, r: Id, half: Option<OccId>, side: Side, resource: Id)
    requires r in st.rows
  {
    && half.Some? && half.value.side == side && half.value in st.occs
    && var o := st.occs[half.value];
       o.status.OccConfirmed? && o.resource == resource && o.start == st.rows[r].start && o.end == st.rows[r].end
  }

  /** Linked rows cannot be double-booked. */
  lemma LinkedDisjoint(st: Stores, x: Id, y: Id)
    requires StoreInv(st) && Linked(st, x) && Linked(st, y) && x != y
    requires x in st.rows && y in st.rows && st.rows[x].status.Confirmed? && st.rows[y].status.Confirmed?
    requires st.rows[x].tech == st.rows[y].tech || st.rows[x].bay == st.rows[y].bay
    ensures st.rows[x].end <= st.rows[y].start || st.rows[y].end <= st.rows[x].start
  {
    assert RowOk(st, x) && RowOk(st, y);
    var side := if st.rows[x].tech == st.rows[y].tech then Tech else Bay;
    var i := if side == Tech then st.rows[x].techOcc.value else st.rows[x].bayOcc.value;
    var j := if side == Tech then st.rows[y].techOcc.value else st.rows[y].bayOcc.value;
    assert st.claims[i].row == Some(x) && st.claims[j].row == Some(y);
    assert !Blocks(st.occs, j, i.side, st.occs[i].resource, st.occs[i].start, st.occs[i].end);
  }

  // ---- Many confirmers -----------------------------------------------------------------

  /** Errors that tell the truth, as far as row r is concerned: its confirmers see a Confirm
      fail only when the allocator refuses, the row's promotion fail without effect only when
      the row is no longer HELD (no other CONFIRMED row carries the same key, in particular),
      and their re-read of it succeed; and the insert that creates r is not reported as failed. */
  ghost predicate Genuine(s: State, step: Step, r: Id) {
    step.Call? && step.q in s.reqs ==>
      var pc, kind, ch := s.reqs[step.q].pc, s.reqs[step.q].kind, step.ch;
      && ((pc.ConfirmTech? || pc.ConfirmBay?) && pc.row == r ==> ch.reply == Ok)
      && (pc.Flip? && pc.row == r && Confirms(kind) && r in s.st.rows && s.st.rows[r].status.Held? ==>
            ch.reply != Failed && !KeyTaken(s.st, r, kind.key))
      && (pc.Reread? && pc.row == r ==> ch.reply == Ok)
      && (pc.Insert? && ch.key == r ==> ch.reply != Lost)
  }

  ghost predicate Half(st: Stores, r: Id, id: OccId) {
    r in st.birth && Names(st.birth[r], id)
  }

  /** Some half of r was never confirmed and never can be: r will not be promoted. */
  ghost predicate Doomed(st: Stores, r: Id) {
    exists id :: Half(st, r, id) && Hopeless(st, id)
  }

  predicate Open(st: Stores, r: Id) {
    r in st.rows && !st.rows[r].status.Cancelled?
  }

  predicate Released(st: Stores, id: OccId) {
    id in st.occs && st.occs[id].status.OccReleased?
  }

  /** The occupation a request is about to compensate. */
  predicate Threatens(pc: Pc, id: OccId) {
    (pc.RelBay? && (pc.tech == id || pc.bay == id)) || (pc.RelTech? && pc.tech == id)
  }

  ghost predicate ThreatOk(st: Stores, r: Id, pc: Pc) {
    Open(st, r) ==>
      && (forall id | Half(st, r, id) && Threatens(pc, id) :: Doomed(st, r))
      && (pc.Reread? && pc.row == r ==> !st.rows[r].status.Held?)
  }

  ghost predicate ReleasedOk(st: Stores, r: Id) {
    Open(st, r) ==> forall id | Half(st, r, id) && Released(st, id) :: Doomed(st, r)
  }

  /** While r is not cancelled, its occupations are released, or about to be, only if r can
      never be promoted any more. */
  ghost predicate LinkInv(s: State, r: Id) {
    ReleasedOk(s.st, r) && forall q | q in s.reqs :: ThreatOk(s.st, r, s.reqs[q].pc)
  }

  /** The linking invariant gives the link. */
  lemma LinkInvLinks(s: State, r: Id)
    requires Inv(s) && LinkInv(s, r)
    ensures Linked(s.st, r)
  {
    if r in s.st.rows && s.st.rows[r].status.Confirmed? {
      var st := s.st;
      var t, b := st.birth[r].techOcc.value, st.birth[r].bayOcc.value;
      assert RowOk(st, r);
      assert ClaimOk(st, t) && ClaimOk(st, b);
      assert Half(st, r, t) && Half(st, r, b);
      assert !Doomed(st, r);
    }
  }

  lemma DoomedStable(st: Stores, st': Stores, r: Id, actor: Option<Id>)
    requires Evolve(st, st', actor) && r in st.rows && Doomed(st, r)
    ensures Doomed(st', r)
  {
    var id :| Half(st, r, id) && Hopeless(st, id);
    assert RowEvolves(st, st', r) && ClaimEvolves(st, st', id, actor);
    assert Half(st', r, id) && Hopeless(st', id);
  }

  lemma OpenBack(st: Stores, st': Stores, r: Id, actor: Option<Id>)
    requires Evolve(st, st', actor) && r in st.rows && Open(st', r)
    ensures Open(st, r) && r in st.birth && r in st'.birth && st'.birth[r] == st.birth[r]
    ensures st'.rows[r].status.Held? ==> st.rows[r].status.Held?
  {
    assert RowEvolves(st, st', r);
  }

  /** What a request is about to release is its own or some row's. */
  lemma ThreatKnown(st: Stores, q: Id, kind: Kind, pc: Pc, id: OccId)
    requires Local(st, q, kind, pc) && Threatens(pc, id)
    ensures id in st.claims && (st.claims[id].owner == q || st.claims[id].row.Some?)
  {
  }

  lemma HalfRow(st: Stores, r: Id, id: OccId)
    requires StoreInv(st) && Half(st, r, id)
    ensures id in st.claims && st.claims[id].row == Some(r)
  {
    assert RowOk(st, r);
  }

  /** A row that has just appeared is threatened by nobody but the request that wrote it. */
  lemma FreshHalf(st: Stores, st': Stores, r: Id, id: OccId, actor: Option<Id>)
    requires StoreInv(st) && StoreInv(st') && Evolve(st, st', actor)
    requires r !in st.rows && Half(st', r, id) && id in st.claims
    ensures st.claims[id].row.None? && Some(st.claims[id].owner) == actor
  {
    HalfRow(st', r, id);
    assert ClaimOk(st, id) && ClaimEvolves(st, st', id, actor);
  }

  lemma RereadNamed(st: Stores, q: Id, kind: Kind, pc: Pc)
    requires Local(st, q, kind, pc) && pc.Reread?
    ensures pc.row in st.rows
  {
  }

  /** Others' threats stay accounted for. */
  lemma ThreatStable(st: Stores, st': Stores, r: Id, q: Id, kind: Kind, pc: Pc, actor: Option<Id>)
    requires StoreInv(st) && StoreInv(st') && Evolve(st, st', actor) && actor != Some(q)
    requires Local(st, q, kind, pc) && ThreatOk(st, r, pc)
    ensures ThreatOk(st', r, pc)
  {
    hide StoreInv, Evolve, Local, Doomed, Threatens;
    if Open(st', r) {
      if pc.Reread? { RereadNamed(st, q, kind, pc); }
      if r in st.rows {
        OpenBack(st, st', r, actor);
        if Doomed(st, r) { DoomedStable(st, st', r, actor); }
      } else {
        forall id | Half(st', r, id)
          ensures !Threatens(pc, id)
        {
          if Threatens(pc, id) {
            ThreatKnown(st, q, kind, pc, id);
            FreshHalf(st, st', r, id, actor);
          }
        }
      }
    }
  }

  // ---- The acting request --------------------------------------------------------------

  /** A genuine refusal dooms the row. */
  lemma RefusalDooms(st: Stores, r: Id, id: OccId)
    requires StoreInv(st) && r in st.rows && Half(st, r, id) && Open(st, r) && ReleasedOk(st, r)
    requires !Confirmable(st.occs, st.now, id)
    ensures Doomed(st, r)
  {
    assert RowOk(st, r);
    assert ClaimOk(st, id);
    if !Released(st, id) { assert Hopeless(st, id); }
  }

  /** The step of a request that is confirming some row: r's threat is accounted for. */
  lemma PromoteLink(st: Stores, r: Id, q: Id, kind: Kind, pc: Pc, ch: Choice)
    requires StoreInv(st) && Confirms(kind) && Promotes(pc) && LocalPromote(st, q, kind, pc)
    requires ReleasedOk(st, r) && ThreatOk(st, r, pc) && r in st.rows
    requires (pc.ConfirmTech? || pc.ConfirmBay?) && pc.row == r ==> ch.reply == Ok
    requires pc.Flip? && pc.row == r && st.rows[r].status.Held? ==> ch.reply != Failed && !KeyTaken(st, r, kind.key)
    requires pc.Reread? && pc.row == r ==> ch.reply == Ok
    ensures var m := MovePromote(st, kind, pc, ch);
            Evolve(st, m.st, Some(q)) ==> ThreatOk(m.st, r, m.pc)
  {
    hide StoreInv, Evolve, Doomed, PrintOf, KeyTaken, ConfirmOcc;
    var m := MovePromote(st, kind, pc, ch);
    if Open(m.st, r) && Evolve(st, m.st, Some(q)) {
      OpenBack(st, m.st, r, Some(q));
      if Doomed(st, r) { DoomedStable(st, m.st, r, Some(q)); }
      if pc.row != r {
        if !pc.FinalGet? { PairOfOther(st, r, pc); }
      } else if !pc.FinalGet? {
        PairOfRow(st, r, pc.tech, pc.bay);
        if pc.ConfirmTech? && !Confirmable(st.occs, st.now, pc.tech) {
          RefusalDooms(st, r, pc.tech);
        } else if pc.ConfirmBay? && !Confirmable(st.occs, st.now, pc.bay) {
          RefusalDooms(st, r, pc.bay);
        }
      }
    }
  }

  lemma PairOfRow(st: Stores, r: Id, t: OccId, b: OccId)
    requires Named(st, r, t, b)
    ensures Half(st, r, t) && Half(st, r, b)
  {
  }

  /** Confirmers of another row have nothing of r's in hand. */
  lemma PairOfOther(st: Stores, r: Id, pc: Pc)
    requires StoreInv(st) && r in st.rows && Promotes(pc) && !pc.FinalGet? && pc.row != r
    requires Named(st, pc.row, pc.tech, pc.bay)
    ensures !Half(st, r, pc.tech) && !Half(st, r, pc.bay)
  {
    HalfRow(st, pc.row, pc.tech);
    HalfRow(st, pc.row, pc.bay);
    if Half(st, r, pc.tech) { HalfRow(st, r, pc.tech); }
    if Half(st, r, pc.bay) { HalfRow(st, r, pc.bay); }
  }

  /** A claim of the request's own that no row names cannot be a half of r. */
  lemma UnnamedNoHalf(st: Stores, r: Id, id: OccId)
    requires StoreInv(st) && id in st.claims && st.claims[id].row != Some(r)
    ensures !Half(st, r, id)
  {
    if Half(st, r, id) { HalfRow(st, r, id); }
  }

  lemma ReserveLink(st: Stores, r: Id, q: Id, kind: Kind, pc: Pc, ch: Choice)
    requires StoreInv(st) && Books(kind) && (pc.Pick? || pc.Put? || pc.Reaping?) && LocalReserve(st, q, kind, pc)
    requires ChoiceOk(st, kind, pc, ch)
    ensures var m := MoveReserve(st, q, kind, pc, ch);
            StoreInv(m.st) ==> ThreatOk(m.st, r, m.pc)
  {
    hide StoreInv, Half, Doomed;
    var m := MoveReserve(st, q, kind, pc, ch);
    if StoreInv(m.st) && m.pc.RelTech? {
      UnnamedNoHalf(m.st, r, m.pc.tech);
    }
  }

  lemma BookLink(st: Stores, r: Id, q: Id, kind: Kind, pc: Pc, ch: Choice)
    requires StoreInv(st) && Fits(kind, pc) && (pc.Lookup? || pc.Insert?) && Local(st, q, kind, pc)
    requires ChoiceOk(st, kind, pc, ch) && (pc.Insert? && ch.key == r ==> ch.reply != Lost)
    ensures var m := MoveBook(st, q, kind, pc, ch);
            StoreInv(m.st) ==> ThreatOk(m.st, r, m.pc)
  {
    hide StoreInv, Half, Doomed;
    var m := MoveBook(st, q, kind, pc, ch);
    if StoreInv(m.st) && m.pc.RelBay? {
      UnnamedNoHalf(m.st, r, m.pc.tech);
      UnnamedNoHalf(m.st, r, m.pc.bay);
    }
  }

  lemma ReleaseLink(st: Stores, r: Id, q: Id, pc: Pc, ch: Choice)
    requires (pc.RelBay? || pc.RelTech?) && r in st.rows && ThreatOk(st, r, pc)
    ensures var m := MoveRelease(st, pc, ch);
            Evolve(st, m.st, Some(q)) ==> ThreatOk(m.st, r, m.pc)
  {
    hide Evolve, Doomed;
    var m := MoveRelease(st, pc, ch);
    if Evolve(st, m.st, Some(q)) && Open(m.st, r) {
      OpenBack(st, m.st, r, Some(q));
      if Doomed(st, r) { DoomedStable(st, m.st, r, Some(q)); }
      assert forall id | Half(m.st, r, id) && Threatens(m.pc, id) :: Half(st, r, id) && Threatens(pc, id);
    }
  }

  /** Every other step ends at a program counter that threatens nothing. */
  lemma QuietCall(st: Stores, q: Id, kind: Kind, pc: Pc, ch: Choice, r: Id)
    requires Fits(kind, pc) && ChoiceOk(st, kind, pc, ch) && (pc.Load? || pc.KeyCheck? || Cancels(pc) || Sweeps(pc))
    ensures ThreatOk(MoveAny(st, q, kind, pc, ch).st, r, MoveAny(st, q, kind, pc, ch).pc)
  {
    hide MoveAny, Doomed, MoveOkSweep;
    QuietMove(st, q, kind, pc, ch);
  }

  lemma QuietMove(st: Stores, q: Id, kind: Kind, pc: Pc, ch: Choice)
    requires Fits(kind, pc) && ChoiceOk(st, kind, pc, ch) && (pc.Load? || pc.KeyCheck? || Cancels(pc) || Sweeps(pc))
    ensures var pc' := MoveAny(st, q, kind, pc, ch).pc; !pc'.RelBay? && !pc'.RelTech? && !pc'.Reread?
  {
    hide ItemOf, Items, MoveReserve, MoveBook, MovePromote, MoveRelease;
    if Sweeps(pc) { QuietSweep(st, pc, ch); }
  }

  lemma QuietSweep(st: Stores, pc: Pc, ch: Choice)
    requires Sweeps(pc) && MoveOkSweep(st, pc, ch)
    ensures var m := MoveSweep(st, pc, ch); Sweeps(m.pc) || m.pc.Done?
  {
    hide Items;
    NextItemSweeps(if pc.SweepBatch? && ch.reply != Failed then Items(MoveSweep(st, pc, ch).st, ch.rows) else [], true);
    NextItemSweeps(if pc.SweepList? && ch.reply == Ok then Items(st, ch.rows) else [], false);
    if pc.SweepTech? || pc.SweepClear? { NextItemSweeps(pc.todo[1..], pc.more); }
  }

  lemma {:induction false} NextItemSweeps(todo: seq<Item>, more: bool)
    ensures Sweeps(NextItem(todo, more)) || NextItem(todo, more).Done?
    decreases |todo|
  {
    if todo != [] { NextItemSweeps(todo[1..], more); }
  }

  /** The occupation a call releases, if it releases one. */
  function Target(pc: Pc): Option<OccId> {
    match pc
    case RelBay(_, b, _) => Some(b)
    case RelTech(t, _) => Some(t)
    case CancelBay(_, b) => b
    case CancelTech(t, _) => t
    case SweepBay(todo, _) => if todo == [] then None else todo[0].bay
    case SweepTech(todo, _, _) => if todo == [] then None else todo[0].tech
    case _ => None
  }

  lemma OnlyTargetReleased(st: Stores, q: Id, kind: Kind, pc: Pc, ch: Choice, id: OccId)
    requires Fits(kind, pc) && ChoiceOk(st, kind, pc, ch)
    requires Released(MoveAny(st, q, kind, pc, ch).st, id) && !Released(st, id)
    ensures Target(pc) == Some(id)
  {
    if Sweeps(pc) {
      SweepReleases(st, pc, ch, id);
    } else if pc.RelBay? || pc.RelTech? || Cancels(pc) {
      hide MoveReserve, MoveBook, MovePromote, MoveHold, MoveSweep;
    } else {
      hide MoveRelease, MoveCancel, MoveSweep;
      ForwardReleasesNothing(st, q, kind, pc, ch, id);
    }
  }

  lemma ForwardReleasesNothing(st: Stores, q: Id, kind: Kind, pc: Pc, ch: Choice, id: OccId)
    requires Fits(kind, pc) && ChoiceOk(st, kind, pc, ch)
    requires !Sweeps(pc) && !Cancels(pc) && !pc.RelBay? && !pc.RelTech?
    requires Released(MoveAny(st, q, kind, pc, ch).st, id)
    ensures Released(st, id)
  {
    hide ByKey, PrintOf, MoveRelease, MoveCancel, MoveSweep, KeyTaken;
  }

  lemma SweepReleases(st: Stores, pc: Pc, ch: Choice, id: OccId)
    requires Sweeps(pc) && MoveOkSweep(st, pc, ch)
    requires Released(MoveSweep(st, pc, ch).st, id) && !Released(st, id)
    ensures Target(pc) == Some(id)
  {
    hide Items, NextItem;
  }

  /** A canceller or sweeper releases only halves of rows already cancelled. */
  lemma TargetKnown(st: Stores, q: Id, kind: Kind, pc: Pc, id: OccId)
    requires StoreInv(st) && Local(st, q, kind, pc) && Target(pc) == Some(id)
    ensures Threatens(pc, id) || exists x :: IsCancelled(st, x) && Half(st, x, id)
  {
    hide StoreInv;
    if pc.CancelBay? || pc.CancelTech? {
      assert IsCancelled(st, kind.row) && Half(st, kind.row, id);
    } else if pc.SweepBay? || pc.SweepTech? {
      assert ItemOk(st, pc.todo[0]);
      assert IsCancelled(st, pc.todo[0].row) && Half(st, pc.todo[0].row, id);
    }
  }

  /** An occupation is released by the request that threatens it, or after its row was cancelled. */
  lemma NewlyReleased(st: Stores, q: Id, kind: Kind, pc: Pc, ch: Choice, r: Id, id: OccId)
    requires StoreInv(st) && Local(st, q, kind, pc) && Fits(kind, pc) && ChoiceOk(st, kind, pc, ch)
    requires r in st.rows && Half(st, r, id)
    requires Released(MoveAny(st, q, kind, pc, ch).st, id) && !Released(st, id)
    ensures Threatens(pc, id) || IsCancelled(st, r)
  {
    hide StoreInv, Local, Threatens, MoveAny, ChoiceOk, Target, Half, Fits;
    OnlyTargetReleased(st, q, kind, pc, ch, id);
    TargetKnown(st, q, kind, pc, id);
    if !Threatens(pc, id) {
      var x :| IsCancelled(st, x) && Half(st, x, id);
      HalfRow(st, x, id);
      HalfRow(st, r, id);
    }
  }

  /** Rows appear by Insert alone, naming two claims nobody has released. */
  lemma FreshRow(st: Stores, q: Id, kind: Kind, pc: Pc, ch: Choice, r: Id, id: OccId)
    requires Local(st, q, kind, pc) && Fits(kind, pc) && ChoiceOk(st, kind, pc, ch)
    requires var st' := MoveAny(st, q, kind, pc, ch).st; r !in st.rows && r in st'.rows && Half(st', r, id)
    requires st.rows.Keys == st.birth.Keys
    ensures !Released(MoveAny(st, q, kind, pc, ch).st, id)
  {
    NewRowInserted(st, q, kind, pc, ch, r);
    hide MoveReserve, MovePromote, MoveRelease, MoveHold, MoveCancel, MoveSweep, ByKey, PrintOf;
    var st' := MoveAny(st, q, kind, pc, ch).st;
  }

  lemma NewRowInserted(st: Stores, q: Id, kind: Kind, pc: Pc, ch: Choice, r: Id)
    requires Fits(kind, pc) && ChoiceOk(st, kind, pc, ch)
    requires r !in st.rows && r in MoveAny(st, q, kind, pc, ch).st.rows
    ensures pc.Insert?
  {
    hide Items, NextItem, ByKey, PrintOf;
  }

  lemma CallReleasedOk(st: Stores, q: Id, kind: Kind, pc: Pc, ch: Choice, r: Id)
    requires StoreInv(st) && Local(st, q, kind, pc) && Fits(kind, pc) && ChoiceOk(st, kind, pc, ch)
    requires ReleasedOk(st, r) && ThreatOk(st, r, pc)
    requires Evolve(st, MoveAny(st, q, kind, pc, ch).st, Some(q))
    ensures ReleasedOk(MoveAny(st, q, kind, pc, ch).st, r)
  {
    var st' := MoveAny(st, q, kind, pc, ch).st;
    assert st.rows.Keys == st.birth.Keys;
    hide StoreInv, Evolve, Local, MoveAny, ChoiceOk, Fits, Doomed, Released;
    if Open(st', r) {
      if r in st.rows {
        OpenBack(st, st', r, Some(q));
        if Doomed(st, r) { DoomedStable(st, st', r, Some(q)); }
      }
      forall id | Half(st', r, id) && Released(st', id)
        ensures Doomed(st', r)
      {
        if r !in st.rows {
          FreshRow(st, q, kind, pc, ch, r, id);
        } else if !Released(st, id) {
          assert Half(st, r, id);
          NewlyReleased(st, q, kind, pc, ch, r, id);
        }
      }
    }
  }

  /** The acting request's own next step threatens r only if r is doomed. */
  lemma CallThreatOk(st: Stores, q: Id, kind: Kind, pc: Pc, ch: Choice, r: Id)
    requires StoreInv(st) && Active(pc) && Local(st, q, kind, pc) && Fits(kind, pc) && ChoiceOk(st, kind, pc, ch)
    requires ReleasedOk(st, r) && ThreatOk(st, r, pc) && Genuine(State(st, map[q := Req(kind, pc)]), Call(q, ch), r)
    requires var st' := MoveAny(st, q, kind, pc, ch).st; StoreInv(st') && Evolve(st, st', Some(q))
    ensures ThreatOk(MoveAny(st, q, kind, pc, ch).st, r, MoveAny(st, q, kind, pc, ch).pc)
  {
    hide StoreInv, Evolve, ThreatOk, ReleasedOk, ChoiceOk;
    hide LocalReserve, LocalPromote, LocalRelease, LocalCancel, LocalSweep;
    hide MoveReserve, MoveBook, MovePromote, MoveRelease, MoveHold, MoveCancel, MoveSweep;
    var st' := MoveAny(st, q, kind, pc, ch).st;
    if pc.Pick? || pc.Put? || pc.Reaping? { ReserveLink(st, r, q, kind, pc, ch); }
    else if pc.Lookup? || pc.Insert? { BookLink(st, r, q, kind, pc, ch); }
    else if Promotes(pc) {
      if r in st.rows { PromoteLink(st, r, q, kind, pc, ch); } else { PromoteNoRow(st, r, q, kind, pc, ch); }
    } else if pc.RelBay? || pc.RelTech? {
      if r in st.rows { ReleaseLink(st, r, q, pc, ch); } else { ReleaseNoRow(st, r, q, kind, pc, ch); }
    } else { QuietCall(st, q, kind, pc, ch, r); }
  }

  lemma PromoteNoRow(st: Stores, r: Id, q: Id, kind: Kind, pc: Pc, ch: Choice)
    requires Confirms(kind) && Promotes(pc) && r !in st.rows
    ensures ThreatOk(MovePromote(st, kind, pc, ch).st, r, MovePromote(st, kind, pc, ch).pc)
  {
    hide PrintOf;
  }

  lemma ReleaseNoRow(st: Stores, r: Id, q: Id, kind: Kind, pc: Pc, ch: Choice)
    requires (pc.RelBay? || pc.RelTech?) && r !in st.rows
    ensures ThreatOk(MoveRelease(st, pc, ch).st, r, MoveRelease(st, pc, ch).pc)
  {
  }

  /** The clock and the reapers release nothing. */
  lemma IdleReleasedOk(st: Stores, st': Stores, r: Id)
    requires Evolve(st, st', None) && ReleasedOk(st, r) && st'.rows == st.rows && st'.birth == st.birth
    requires forall id | id in st'.occs :: id in st.occs && st'.occs[id] == st.occs[id]
    ensures ReleasedOk(st', r)
  {
    hide Evolve, Doomed;
    if Open(st', r) && Doomed(st, r) { DoomedStable(st, st', r, None); }
    assert forall id | Half(st', r, id) && Released(st', id) :: Half(st, r, id) && Released(st, id);
  }

  /** Every genuine step keeps the linking invariant of r. */
  lemma LinkStep(s: State, step: Step, r: Id)
    requires Inv(s) && LinkInv(s, r) && Enabled(s, step) && Genuine(s, step, r)
    ensures LinkInv(Apply(s, step), r)
  {
    hide StoreInv, Evolve, Local, MoveAny, ChoiceOk, Fits, ThreatOk, ReleasedOk;
    var s' := Apply(s, step);
    StepInv(s, step);
    if step.Call? {
      var q, ch := step.q, step.ch;
      var kind, pc := s.reqs[q].kind, s.reqs[q].pc;
      CallReleasedOk(s.st, q, kind, pc, ch, r);
      GenuineLocal(s, q, ch, r);
      CallThreatOk(s.st, q, kind, pc, ch, r);
    } else {
      IdleReleasedOk(s.st, s'.st, r);
    }
    forall q | q in s'.reqs
      ensures ThreatOk(s'.st, r, s'.reqs[q].pc)
    {
      if q in s.reqs && s'.reqs[q] == s.reqs[q] && ActorOf(step) != Some(q) {
        ThreatStable(s.st, s'.st, r, q, s.reqs[q].kind, s.reqs[q].pc, ActorOf(step));
      } else if !step.Call? {
        NoThreat(s'.st, r, s'.reqs[q].kind, s'.reqs[q].pc);
      }
    }
  }

  lemma GenuineLocal(s: State, q: Id, ch: Choice, r: Id)
    requires q in s.reqs && Genuine(s, Call(q, ch), r)
    ensures Genuine(State(s.st, map[q := Req(s.reqs[q].kind, s.reqs[q].pc)]), Call(q, ch), r)
  {
  }

  lemma NoThreat(st: Stores, r: Id, kind: Kind, pc: Pc)
    requires pc == StartPc(kind) || pc == Crashed
    ensures ThreatOk(st, r, pc)
  {
  }

  ghost predicate GenuineRun(s: State, tr: seq<Step>, r: Id)
    requires Run(s, tr)
    decreases |tr|
  {
    tr == [] || (Genuine(s, tr[0], r) && GenuineRun(Apply(s, tr[0]), tr[1..], r))
  }

  lemma {:induction false} LinkRun(s: State, tr: seq<Step>, r: Id)
    requires Inv(s) && LinkInv(s, r) && Run(s, tr) && GenuineRun(s, tr, r)
    ensures Inv(Exec(s, tr)) && LinkInv(Exec(s, tr), r)
    decreases |tr|
  {
    hide Inv, Enabled, Apply, LinkInv, Genuine;
    if tr != [] {
      StepInv(s, tr[0]);
      LinkStep(s, tr[0], r);
      LinkRun(Apply(s, tr[0]), tr[1..], r);
    }
  }

  /** Any number of holds, confirms, cancels, sweeps, reaps and crashes: if r's errors were
      genuine, a CONFIRMED r holds both its occupations. */
  lemma GenuineRunLinks(tr: seq<Step>, r: Id)
    requires Run(INIT, tr) && GenuineRun(INIT, tr, r)
    ensures Inv(Exec(INIT, tr)) && LinkInv(Exec(INIT, tr), r) && Linked(Exec(INIT, tr).st, r)
  {
    LinkRun(INIT, tr, r);
    LinkInvLinks(Exec(INIT, tr), r);
  }
}
