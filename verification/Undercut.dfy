/** Exactly when a CONFIRMED appointment really holds its technician and its bay: under any
    faults and any number of confirmers, unless some request's compensation released one of
    its occupations. */
module Undercut {
  import opened Wrappers
  import opened Allocator
  import opened Stores
  import opened Protocol
  import opened Invariant
  import opened Linking
  import opened SoleConfirmer

  /** The occupation a request is about to give back. */
  predicate Compensates(pc: Pc, id: OccId) {
    (pc.RelBay? && pc.bay == id) || (pc.RelTech? && pc.tech == id)
  }

  /** A compensation that reaches the allocator and names a half of r. */
  ghost predicate Cuts(s: State, step: Step, r: Id) {
    && step.Call? && step.q in s.reqs && step.ch.reply != Failed
    && exists id :: Half(s.st, r, id) && Compensates(s.reqs[step.q].pc, id)
  }

  ghost predicate Undercut(s: State, tr: seq<Step>, r: Id)
    requires Run(s, tr)
    decreases |tr|
  {
    tr != [] && (Cuts(s, tr[0], r) || Undercut(Apply(s, tr[0]), tr[1..], r))
  }

  /** While r is not cancelled nobody has released a half of it. */
  ghost predicate Intact(st: Stores, r: Id) {
    Open(st, r) ==> forall id | Half(st, r, id) :: !Released(st, id)
  }

  lemma IntactLinks(st: Stores, r: Id)
    requires StoreInv(st) && Intact(st, r)
    ensures Linked(st, r)
  {
    if r in st.rows && st.rows[r].status.Confirmed? {
      var t, b := st.birth[r].techOcc.value, st.birth[r].bayOcc.value;
      assert RowOk(st, r);
      assert ClaimOk(st, t) && ClaimOk(st, b);
      assert Half(st, r, t) && Half(st, r, b);
    }
  }

  lemma LinkedIntact(st: Stores, r: Id)
    requires StoreInv(st) && Linked(st, r) && r in st.rows && st.rows[r].status.Confirmed?
    ensures Intact(st, r)
  {
    assert RowOk(st, r);
  }

  // ---- What is not cut stays intact ------------------------------------------------------

  /** Outside compensation nothing of an open row is released. */
  lemma ReleasedByCut(st: Stores, q: Id, kind: Kind, pc: Pc, ch: Choice, r: Id, id: OccId)
    requires StoreInv(st) && Local(st, q, kind, pc) && Fits(kind, pc) && ChoiceOk(st, kind, pc, ch)
    requires Open(st, r) && Half(st, r, id)
    requires Released(MoveAny(st, q, kind, pc, ch).st, id) && !Released(st, id)
    ensures Compensates(pc, id) && ch.reply != Failed
  {
    hide StoreInv, Local, ChoiceOk, Half, Fits, MoveReserve, MoveBook, MovePromote, MoveHold, MoveCancel, MoveSweep;
    NewlyReleased(st, q, kind, pc, ch, r, id);
    OnlyTargetReleased(st, q, kind, pc, ch, id);
  }

  lemma CallIntact(st: Stores, q: Id, kind: Kind, pc: Pc, ch: Choice, r: Id)
    requires Local(st, q, kind, pc) && Fits(kind, pc) && ChoiceOk(st, kind, pc, ch)
    requires Intact(st, r) && (ch.reply == Failed || forall id | Half(st, r, id) :: !Compensates(pc, id))
    requires StoreInv(st) && Evolve(st, MoveAny(st, q, kind, pc, ch).st, Some(q))
    ensures Intact(MoveAny(st, q, kind, pc, ch).st, r)
  {
    var st' := MoveAny(st, q, kind, pc, ch).st;
    assert st.rows.Keys == st.birth.Keys;
    hide StoreInv, Evolve, Local, MoveAny, ChoiceOk, Fits, Released, Compensates;
    if Open(st', r) {
      if r in st.rows { OpenBack(st, st', r, Some(q)); }
      forall id | Half(st', r, id)
        ensures !Released(st', id)
      {
        if Released(st', id) {
          if r !in st.rows {
            FreshRow(st, q, kind, pc, ch, r, id);
          } else {
            assert Half(st, r, id);
            ReleasedByCut(st, q, kind, pc, ch, r, id);
          }
        }
      }
    }
  }

  lemma IdleIntact(st: Stores, st': Stores, r: Id)
    requires Intact(st, r) && st'.rows == st.rows && st'.birth == st.birth
    requires forall id | id in st'.occs :: id in st.occs && st'.occs[id] == st.occs[id]
    ensures Intact(st', r)
  {
    assert forall id | Half(st', r, id) && Released(st', id) :: Half(st, r, id) && Released(st, id);
  }

  lemma StepIntact(s: State, step: Step, r: Id)
    requires Enabled(s, step) && Inv(s) && Intact(s.st, r) && !Cuts(s, step, r)
    ensures Intact(Apply(s, step).st, r)
  {
    hide StoreInv, Evolve, Local, MoveAny, ChoiceOk, Fits, Intact, Compensates, Half;
    StepInv(s, step);
    if step.Call? {
      CallIntact(s.st, step.q, s.reqs[step.q].kind, s.reqs[step.q].pc, step.ch, r);
    } else {
      IdleIntact(s.st, Apply(s, step).st, r);
    }
  }

  lemma {:induction false} RunIntact(s: State, tr: seq<Step>, r: Id)
    requires Run(s, tr) && !Undercut(s, tr, r) && Inv(s) && Intact(s.st, r)
    ensures Inv(Exec(s, tr)) && Intact(Exec(s, tr).st, r)
    decreases |tr|
  {
    hide Inv, Enabled, Apply, Intact, Cuts;
    if tr != [] {
      StepInv(s, tr[0]);
      StepIntact(s, tr[0], r);
      RunIntact(Apply(s, tr[0]), tr[1..], r);
    }
  }

  // ---- What is cut stays broken ----------------------------------------------------------

  /** A half of r is gone for good. */
  ghost predicate Broken(st: Stores, r: Id) {
    exists id :: Half(st, r, id) && id in st.claims && Dead(st, id)
  }

  lemma BrokenUnlinks(st: Stores, r: Id)
    requires StoreInv(st) && Broken(st, r) && r in st.rows && st.rows[r].status.Confirmed?
    ensures !Linked(st, r)
  {
    assert RowOk(st, r);
  }

  lemma BrokenStays(st: Stores, st': Stores, r: Id, actor: Option<Id>)
    requires Evolve(st, st', actor) && Broken(st, r) && r in st.rows
    ensures Broken(st', r)
  {
    var id :| Half(st, r, id) && id in st.claims && Dead(st, id);
    assert RowEvolves(st, st', r) && ClaimEvolves(st, st', id, actor);
    assert Half(st', r, id);
  }

  lemma CutBreaks(s: State, step: Step, r: Id)
    requires Enabled(s, step) && Cuts(s, step, r) && Inv(s)
    ensures Broken(Apply(s, step).st, r)
  {
    hide StoreInv, Local, ChoiceOk, Half, Released, MoveRelease;
    hide MoveReserve, MoveBook, MovePromote, MoveHold, MoveCancel, MoveSweep;
    var pc := s.reqs[step.q].pc;
    var id :| Half(s.st, r, id) && Compensates(pc, id);
    HalfRow(s.st, r, id);
    CompensationKills(s.st, pc, step.ch, r, id);
  }

  lemma CompensationKills(st: Stores, pc: Pc, ch: Choice, r: Id, id: OccId)
    requires Compensates(pc, id) && ch.reply != Failed && id in st.claims && Half(st, r, id)
    ensures Broken(MoveRelease(st, pc, ch).st, r)
  {
    var st' := MoveRelease(st, pc, ch).st;
    assert Half(st', r, id) && id in st'.claims && Dead(st', id);
  }

  lemma {:induction false} RunBroken(s: State, tr: seq<Step>, r: Id)
    requires Run(s, tr) && Inv(s) && (Broken(s.st, r) || Undercut(s, tr, r))
    ensures Inv(Exec(s, tr)) && Broken(Exec(s, tr).st, r)
    decreases |tr|
  {
    hide Inv, Enabled, Apply, Broken, Cuts, Evolve;
    if tr != [] {
      StepInv(s, tr[0]);
      if Cuts(s, tr[0], r) {
        CutBreaks(s, tr[0], r);
      } else if Broken(s.st, r) {
        BrokenKnown(s, r);
        BrokenStays(s.st, Apply(s, tr[0]).st, r, ActorOf(tr[0]));
      }
      RunBroken(Apply(s, tr[0]), tr[1..], r);
    }
  }

  lemma BrokenKnown(s: State, r: Id)
    requires Inv(s) && Broken(s.st, r)
    ensures r in s.st.rows
  {
  }

  // ---- The exact condition -----------------------------------------------------------------

  /** Under any faults: a CONFIRMED row holds both its occupations if and only if no
      compensation in the run reached one of them. */
  lemma LinkedIffNotUndercut(tr: seq<Step>, r: Id)
    requires Run(INIT, tr)
    requires var rows := Exec(INIT, tr).st.rows; r in rows && rows[r].status.Confirmed?
    ensures Linked(Exec(INIT, tr).st, r) <==> !Undercut(INIT, tr, r)
  {
    hide Linked, Broken, Intact;
    var s := Exec(INIT, tr);
    RunInv(INIT, tr);
    if Undercut(INIT, tr, r) {
      RunBroken(INIT, tr, r);
      BrokenUnlinks(s.st, r);
    } else {
      InitIntact(r);
      RunIntact(INIT, tr, r);
      IntactLinks(s.st, r);
    }
  }

  lemma InitIntact(r: Id)
    ensures Intact(INIT.st, r)
  {
  }

  /** Every double booking has a culprit: two CONFIRMED rows that overlap on a technician or a
      bay are not both free of compensations that reached their occupations. */
  lemma DoubleBookingHasUndercut(tr: seq<Step>, x: Id, y: Id)
    requires Run(INIT, tr) && x != y
    requires var rows := Exec(INIT, tr).st.rows;
             && x in rows && y in rows && rows[x].status.Confirmed? && rows[y].status.Confirmed?
             && (rows[x].tech == rows[y].tech || rows[x].bay == rows[y].bay)
             && Overlap(rows[x].start, rows[x].end, rows[y].start, rows[y].end)
    ensures Undercut(INIT, tr, x) || Undercut(INIT, tr, y)
  {
    hide Undercut, Linked;
    RunInv(INIT, tr);
    LinkedIffNotUndercut(tr, x);
    LinkedIffNotUndercut(tr, y);
    if Linked(Exec(INIT, tr).st, x) && Linked(Exec(INIT, tr).st, y) {
      LinkedDisjoint(Exec(INIT, tr).st, x, y);
    }
  }

  /** Either linking hypothesis keeps every compensation away from a row that is CONFIRMED. */
  lemma HypothesesPreventUndercut(tr: seq<Step>, r: Id)
    requires Run(INIT, tr) && (GenuineRun(INIT, tr, r) || AloneRun(INIT, tr, r))
    requires var rows := Exec(INIT, tr).st.rows; r in rows && rows[r].status.Confirmed?
    ensures !Undercut(INIT, tr, r)
  {
    hide Undercut, Linked, GenuineRun, AloneRun;
    LinkedEither(tr, r);
    LinkedIffNotUndercut(tr, r);
  }

  /** The guard at the promotion: a compare-and-set that turns r CONFIRMED leaves it linked if
      and only if neither half has been released when it runs. */
  lemma FlipLinksIff(s: State, q: Id, ch: Choice)
    requires q in s.reqs && s.reqs[q].pc.Flip? && Flips(s.st, s.reqs[q])
    requires ch.reply != Failed && Enabled(s, Call(q, ch))
    requires Inv(s)
    ensures var pc := s.reqs[q].pc;
            Linked(Apply(s, Call(q, ch)).st, pc.row) <==> !Released(s.st, pc.tech) && !Released(s.st, pc.bay)
  {
    hide StoreInv, Local, ChoiceOk, Linked, Released, Flips;
    hide MoveReserve, MoveBook, MovePromote, MoveRelease, MoveHold, MoveCancel, MoveSweep;
    assert Local(s.st, q, s.reqs[q].kind, s.reqs[q].pc);
    FlipLinks(s.st, q, s.reqs[q].kind, s.reqs[q].pc, ch);
  }

  /** A request at its compare-and-set, and the row can be promoted. */
  predicate Flips(st: Stores, req: Req) {
    req.pc.Flip? && Confirms(req.kind) && CanPromote(st, req.pc.row, req.kind.key)
  }

  lemma FlipLinks(st: Stores, q: Id, kind: Kind, pc: Pc, ch: Choice)
    requires ch.reply != Failed && Flips(st, Req(kind, pc)) && Local(st, q, kind, pc) && StoreInv(st)
    ensures Linked(MovePromote(st, kind, pc, ch).st, pc.row) <==> !Released(st, pc.tech) && !Released(st, pc.bay)
  {
    assert RowOk(st, pc.row) && ClaimOk(st, pc.tech) && ClaimOk(st, pc.bay);
    hide StoreInv, RowOk, ClaimOk, KeyTaken, PrintOf;
  }
}
