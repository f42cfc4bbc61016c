/** The linking invariant again, for a row with at most one confirmer in flight at a time.

    The faults are harsher: Confirm and Release may fail before or after their effect,
    keys may collide, any read may fail, the promotion may fail without effect, and any
    request may crash. */
module SoleConfirmer {
  import opened Wrappers
  import opened Allocator
  import opened Stores
  import opened Protocol
  import opened Invariant
  import opened Linking

  /** A request in flight that is confirming row r, or still compensating for it. */
  ghost predicate Confirming(st: Stores, req: Req, r: Id) {
    && Active(req.pc)
    && (|| (req.kind.PromoteReq? && req.kind.row == r)
        || (Promotes(req.pc) && req.pc.row == r)
        || (exists id :: Half(st, r, id) && Threatens(req.pc, id)))
  }

  ghost predicate Sole(s: State, r: Id) {
    forall p, q | p in s.reqs && q in s.reqs && Confirming(s.st, s.reqs[p], r) && Confirming(s.st, s.reqs[q], r) ::
        p == q
  }

  /** The hypotheses: r never gets a second confirmer, and a failed write on r's row means
      that nothing was written. */
  ghost predicate Alone(s: State, step: Step, r: Id)
    requires Enabled(s, step)
  {
    && Sole(Apply(s, step), r)
    && (step.Call? ==>
          var pc, ch := s.reqs[step.q].pc, step.ch;
          && (pc.Flip? && pc.row == r ==> ch.reply != Lost)
          && (pc.Insert? && ch.key == r ==> ch.reply != Lost))
  }

  predicate IsConfirmed(st: Stores, id: OccId) {
    id in st.occs && st.occs[id].status.OccConfirmed?
  }

  /** r is CONFIRMED only with both halves CONFIRMED. */
  ghost predicate RowSole(st: Stores, r: Id) {
    Open(st, r) && st.rows[r].status.Confirmed? ==> forall id | Half(st, r, id) :: IsConfirmed(st, id)
  }

  /** While r's confirmer is at work r is still HELD, and what it has confirmed stays confirmed. */
  ghost predicate PcSole(st: Stores, r: Id, pc: Pc) {
    Open(st, r) ==>
      && (Promotes(pc) && !pc.FinalGet? && pc.row == r ==> st.rows[r].status.Held?)
      && (forall id | Half(st, r, id) && Threatens(pc, id) :: st.rows[r].status.Held?)
      && ((pc.ConfirmBay? || pc.Flip?) && pc.row == r ==> IsConfirmed(st, pc.tech))
      && (pc.Flip? && pc.row == r ==> IsConfirmed(st, pc.bay))
  }

  ghost predicate SoleInv(s: State, r: Id) {
    Sole(s, r) && RowSole(s.st, r) && forall q | q in s.reqs :: PcSole(s.st, r, s.reqs[q].pc)
  }

  lemma SoleInvLinks(s: State, r: Id)
    requires Inv(s) && SoleInv(s, r)
    ensures Linked(s.st, r)
  {
    if r in s.st.rows && s.st.rows[r].status.Confirmed? {
      var t, b := s.st.birth[r].techOcc.value, s.st.birth[r].bayOcc.value;
      assert RowOk(s.st, r);
      assert ClaimOk(s.st, t) && ClaimOk(s.st, b);
      assert Half(s.st, r, t) && Half(s.st, r, b);
    }
  }

  // ---- What a step of somebody else can do to r ---------------------------------------

  /** A confirmed occupation stays confirmed or is released. */
  lemma ConfirmedStays(st: Stores, st': Stores, id: OccId, actor: Option<Id>)
    requires StoreInv(st) && StoreInv(st') && Evolve(st, st', actor) && IsConfirmed(st, id)
    ensures IsConfirmed(st', id) || Released(st', id)
  {
    assert id in st.claims && ClaimOk(st, id) && ClaimEvolves(st, st', id, actor) && ClaimOk(st', id);
  }

  /** The statements that write appointments. */
  predicate WritesRows(pc: Pc) {
    pc.Insert? || pc.Flip? || pc.CancelCas? || pc.SweepBatch? || pc.SweepClear?
  }

  lemma RowsSame(st: Stores, q: Id, kind: Kind, pc: Pc, ch: Choice)
    requires Fits(kind, pc) && ChoiceOk(st, kind, pc, ch) && !WritesRows(pc)
    ensures MoveAny(st, q, kind, pc, ch).st.rows == st.rows
  {
    hide Items, NextItem, ByKey, PrintOf;
  }

  /** Only the row's own promotion makes it CONFIRMED. */
  lemma StatusKept(st: Stores, q: Id, kind: Kind, pc: Pc, ch: Choice, r: Id)
    requires Fits(kind, pc) && ChoiceOk(st, kind, pc, ch) && r in st.rows && !(pc.Flip? && pc.row == r)
    ensures var st' := MoveAny(st, q, kind, pc, ch).st;
            r in st'.rows && (st'.rows[r].status == st.rows[r].status || st'.rows[r].status.Cancelled?)
  {
    hide Items, NextItem, PrintOf, MoveReserve, MoveRelease, MoveHold;
    if !WritesRows(pc) { RowsSame(st, q, kind, pc, ch); }
  }

  /** A call that does not compensate for r leaves r's confirmed halves alone. */
  lemma ForeignHalf(st: Stores, q: Id, kind: Kind, pc: Pc, ch: Choice, r: Id, id: OccId)
    requires StoreInv(st) && Local(st, q, kind, pc) && Fits(kind, pc) && ChoiceOk(st, kind, pc, ch)
    requires var st' := MoveAny(st, q, kind, pc, ch).st; StoreInv(st') && Evolve(st, st', Some(q)) && Open(st', r)
    requires r in st.rows && Half(st, r, id) && !Threatens(pc, id) && IsConfirmed(st, id)
    ensures IsConfirmed(MoveAny(st, q, kind, pc, ch).st, id)
  {
    var st' := MoveAny(st, q, kind, pc, ch).st;
    hide StoreInv, Evolve, Local, MoveAny, ChoiceOk, Fits, Threatens;
    OpenBack(st, st', r, Some(q));
    ConfirmedStays(st, st', id, Some(q));
    if Released(st', id) { NewlyReleased(st, q, kind, pc, ch, r, id); }
  }

  /** Others' assertions about r survive a step that leaves r's status and halves alone. */
  lemma PcSoleStable(st: Stores, st': Stores, r: Id, q: Id, kind: Kind, pc: Pc, actor: Option<Id>)
    requires StoreInv(st) && Evolve(st, st', actor) && Local(st, q, kind, pc) && PcSole(st, r, pc)
    requires r in st.rows && Open(st', r)
    requires st'.rows[r].status == st.rows[r].status
    requires forall id | Half(st, r, id) && IsConfirmed(st, id) :: IsConfirmed(st', id)
    ensures PcSole(st', r, pc)
  {
    hide StoreInv, Evolve, Threatens;
    OpenBack(st, st', r, actor);
    assert forall id | Half(st', r, id) :: Half(st, r, id);
    if Promotes(pc) && !pc.FinalGet? && pc.row == r {
      PairOfRow(st, r, pc.tech, pc.bay);
    }
  }

  /** Nobody was confirming a row before it existed. */
  lemma PcSoleFresh(st: Stores, st': Stores, r: Id, q: Id, kind: Kind, pc: Pc)
    requires Local(st, q, kind, pc) && r !in st.rows
    requires r in st'.rows ==> st'.rows[r].status.Held?
    ensures PcSole(st', r, pc)
  {
  }

  // ---- The acting request --------------------------------------------------------------

  lemma ConfirmOccConfirms(st: Stores, id: OccId, x: OccId)
    requires id in st.claims
    ensures Confirmable(st.occs, st.now, id) ==> IsConfirmed(ConfirmOcc(st, id), id)
    ensures IsConfirmed(st, x) ==> IsConfirmed(ConfirmOcc(st, id), x)
  {
  }

  /** A confirmer's own step on its own row. */
  lemma PromoteSole(st: Stores, q: Id, kind: Kind, pc: Pc, ch: Choice)
    requires StoreInv(st) && Confirms(kind) && Promotes(pc) && LocalPromote(st, q, kind, pc)
    requires RowSole(st, pc.row) && PcSole(st, pc.row, pc) && (pc.Flip? ==> ch.reply != Lost)
    ensures var m := MovePromote(st, kind, pc, ch);
            Evolve(st, m.st, Some(q)) ==> RowSole(m.st, pc.row) && PcSole(m.st, pc.row, m.pc)
  {
    hide StoreInv, Evolve, PrintOf, KeyTaken;
    var m := MovePromote(st, kind, pc, ch);
    var r := pc.row;
    if Evolve(st, m.st, Some(q)) && Open(m.st, r) {
      OpenBack(st, m.st, r, Some(q));
      assert forall id | Half(m.st, r, id) :: Half(st, r, id);
      if !pc.FinalGet? {
        HalvesOf(st, r, pc.tech, pc.bay);
      }
      if pc.ConfirmTech? { ConfirmOccConfirms(st, pc.tech, pc.tech); }
      if pc.ConfirmBay? { ConfirmOccConfirms(st, pc.bay, pc.tech); }
    }
  }

  lemma HalvesOf(st: Stores, r: Id, t: OccId, b: OccId)
    requires StoreInv(st) && Named(st, r, t, b)
    ensures Half(st, r, t) && Half(st, r, b) && t in st.claims && b in st.claims
    ensures forall id | Half(st, r, id) :: id == t || id == b
  {
    HalfRow(st, r, t);
    HalfRow(st, r, b);
  }

  /** r is none of this call's business: neither promoted nor compensated for by it. */
  ghost predicate Foreign(st: Stores, pc: Pc, r: Id) {
    && r in st.rows && !(Promotes(pc) && pc.row == r)
    && forall id | Half(st, r, id) :: !Threatens(pc, id)
  }

  /** Then r becomes the request's business only by being read HELD. */
  lemma ForeignNext(st: Stores, q: Id, kind: Kind, pc: Pc, ch: Choice, r: Id)
    requires StoreInv(st) && Active(pc) && Local(st, q, kind, pc) && Fits(kind, pc) && ChoiceOk(st, kind, pc, ch)
    requires Foreign(st, pc, r)
    ensures var m := MoveAny(st, q, kind, pc, ch);
            && (forall id | Half(st, r, id) :: !Threatens(m.pc, id))
            && (Promotes(m.pc) && m.pc.row == r ==> m.pc.ConfirmTech? && st.rows[r].status.Held?)
  {
    hide StoreInv, LocalCancel, LocalSweep;
    hide MoveReserve, MoveBook, MovePromote, MoveRelease, MoveHold, MoveCancel, MoveSweep;
    if pc.Pick? || pc.Put? || pc.Reaping? || pc.Insert? { ForeignReserve(st, q, kind, pc, ch, r); }
    else if Promotes(pc) { ForeignPromote(st, q, kind, pc, ch, r); }
    else if Sweeps(pc) { QuietSweep(st, pc, ch); }
    else { ForeignRest(st, q, kind, pc, ch, r); }
  }

  lemma ForeignReserve(st: Stores, q: Id, kind: Kind, pc: Pc, ch: Choice, r: Id)
    requires StoreInv(st) && Books(kind) && (pc.Pick? || pc.Put? || pc.Reaping? || pc.Insert?) && Fits(kind, pc)
    requires LocalReserve(st, q, kind, pc) && ChoiceOk(st, kind, pc, ch) && r in st.rows
    ensures var m := MoveAny(st, q, kind, pc, ch);
            && (forall id | Half(st, r, id) :: !Threatens(m.pc, id))
            && !(Promotes(m.pc) && m.pc.row == r)
  {
    hide StoreInv, Half;
    var m := MoveAny(st, q, kind, pc, ch);
    if pc.Insert? {
      UnnamedNoHalf(st, r, pc.t.id);
      UnnamedNoHalf(st, r, pc.b.id);
    } else if pc.prior.Some? {
      UnnamedNoHalf(st, r, pc.prior.value.id);
    }
  }

  lemma ForeignPromote(st: Stores, q: Id, kind: Kind, pc: Pc, ch: Choice, r: Id)
    requires StoreInv(st) && Confirms(kind) && Promotes(pc) && LocalPromote(st, q, kind, pc) && Foreign(st, pc, r)
    ensures var m := MovePromote(st, kind, pc, ch);
            && (forall id | Half(st, r, id) :: !Threatens(m.pc, id))
            && !(Promotes(m.pc) && m.pc.row == r)
  {
    hide StoreInv, Half, PrintOf, ConfirmOcc, PromoteRow;
    if !pc.FinalGet? { PairOfOther(st, r, pc); }
  }

  lemma ForeignRest(st: Stores, q: Id, kind: Kind, pc: Pc, ch: Choice, r: Id)
    requires Fits(kind, pc) && ChoiceOk(st, kind, pc, ch) && Foreign(st, pc, r)
    requires pc.Lookup? || pc.RelBay? || pc.RelTech? || pc.Load? || pc.KeyCheck? || Cancels(pc)
    ensures var m := MoveAny(st, q, kind, pc, ch);
            && (forall id | Half(st, r, id) :: !Threatens(m.pc, id))
            && (Promotes(m.pc) && m.pc.row == r ==> m.pc.ConfirmTech? && st.rows[r].status.Held?)
  {
  }

  /** A new row is HELD, and its writer goes on to confirm the technician, or is done. */
  lemma FreshRowSole(st: Stores, q: Id, kind: Kind, pc: Pc, ch: Choice, m: Move, r: Id)
    requires Fits(kind, pc) && ChoiceOk(st, kind, pc, ch) && m == MoveAny(st, q, kind, pc, ch)
    requires Local(st, q, kind, pc) && r !in st.rows && r in m.st.rows
    ensures m.st.rows[r].status.Held? && PcSole(m.st, r, m.pc)
  {
    hide Items, NextItem, ByKey, PrintOf, Threatens, LocalCancel, LocalSweep, LocalRelease, LocalPromote, LocalReserve;
    hide MoveReserve, MovePromote, MoveRelease, MoveHold, MoveCancel, MoveSweep;
    NewRowInserted(st, q, kind, pc, ch, r);
  }

  // ---- The step ------------------------------------------------------------------------

  /** A request that is not confirming r asserts nothing about it. */
  lemma PcSoleVacuous(st: Stores, st': Stores, r: Id, req: Req)
    requires !Confirming(st, req, r) && r in st.birth && r in st'.birth && st'.birth[r] == st.birth[r]
    ensures PcSole(st', r, req.pc)
  {
    assert forall id | Half(st', r, id) :: Half(st, r, id);
  }

  lemma NotOpen(st: Stores, r: Id, pc: Pc)
    requires !Open(st, r)
    ensures PcSole(st, r, pc) && RowSole(st, r)
  {
  }

  lemma HeldRowSole(st: Stores, r: Id)
    requires r in st.rows ==> st.rows[r].status.Held?
    ensures RowSole(st, r)
  {
  }

  /** The compensating call of r's confirmer: r is HELD and stays so. */
  lemma CompensateSole(st: Stores, q: Id, pc: Pc, ch: Choice, r: Id, id: OccId)
    requires Open(st, r) && Half(st, r, id) && Threatens(pc, id) && PcSole(st, r, pc)
    ensures var m := MoveRelease(st, pc, ch);
            RowSole(m.st, r) && PcSole(m.st, r, m.pc)
  {
  }

  /** A call that is none of r's business. */
  lemma ForeignSole(st: Stores, q: Id, kind: Kind, pc: Pc, ch: Choice, m: Move, r: Id)
    requires Active(pc) && Fits(kind, pc) && ChoiceOk(st, kind, pc, ch) && m == MoveAny(st, q, kind, pc, ch)
    requires Foreign(st, pc, r) && RowSole(st, r) && Open(m.st, r)
    requires StoreInv(st) && Local(st, q, kind, pc) && StoreInv(m.st) && Evolve(st, m.st, Some(q))
    ensures RowSole(m.st, r) && PcSole(m.st, r, m.pc) && m.st.rows[r].status == st.rows[r].status
    ensures forall id | Half(st, r, id) && IsConfirmed(st, id) :: IsConfirmed(m.st, id)
  {
    hide StoreInv, Evolve, Local, MoveAny, ChoiceOk, Fits, Threatens;
    OpenBack(st, m.st, r, Some(q));
    StatusKept(st, q, kind, pc, ch, r);
    ForeignNext(st, q, kind, pc, ch, r);
    forall id | Half(st, r, id) && IsConfirmed(st, id)
      ensures IsConfirmed(m.st, id)
    {
      ForeignHalf(st, q, kind, pc, ch, r, id);
    }
    assert forall id | Half(m.st, r, id) :: Half(st, r, id);
  }

  lemma PromoteParts(st: Stores, q: Id, kind: Kind, pc: Pc, ch: Choice)
    requires Promotes(pc) && Fits(kind, pc) && ChoiceOk(st, kind, pc, ch) && Local(st, q, kind, pc)
    ensures Confirms(kind) && LocalPromote(st, q, kind, pc)
    ensures MoveAny(st, q, kind, pc, ch) == MovePromote(st, kind, pc, ch)
  {
  }

  lemma ReleaseParts(st: Stores, q: Id, kind: Kind, pc: Pc, ch: Choice, id: OccId)
    requires Fits(kind, pc) && ChoiceOk(st, kind, pc, ch) && Threatens(pc, id)
    ensures pc.RelBay? || pc.RelTech?
    ensures MoveAny(st, q, kind, pc, ch) == MoveRelease(st, pc, ch)
  {
  }

  /** What the acting request itself, and r's row, look like afterwards. */
  lemma OwnSole(st: Stores, q: Id, kind: Kind, pc: Pc, ch: Choice, m: Move, r: Id)
    requires Active(pc) && Fits(kind, pc) && ChoiceOk(st, kind, pc, ch) && m == MoveAny(st, q, kind, pc, ch)
    requires r in st.rows && Open(m.st, r) && RowSole(st, r) && PcSole(st, r, pc)
    requires pc.Flip? && pc.row == r ==> ch.reply != Lost
    requires StoreInv(st) && Local(st, q, kind, pc) && StoreInv(m.st) && Evolve(st, m.st, Some(q))
    ensures RowSole(m.st, r) && PcSole(m.st, r, m.pc)
  {
    hide StoreInv, Evolve, Local, Fits, MoveAny, ChoiceOk, RowSole, PcSole, Half, Threatens;
    OpenBack(st, m.st, r, Some(q));
    if Promotes(pc) && pc.row == r {
      PromoteParts(st, q, kind, pc, ch);
      PromoteSole(st, q, kind, pc, ch);
    } else if id :| Half(st, r, id) && Threatens(pc, id) {
      ReleaseParts(st, q, kind, pc, ch, id);
      CompensateSole(st, q, pc, ch, r, id);
    } else {
      ForeignSole(st, q, kind, pc, ch, m, r);
    }
  }

  /** Another request's assertion about r: kept by a foreign call, and empty while r's sole
      confirmer is the one that moves. */
  lemma OtherSole(st: Stores, q: Id, kind: Kind, pc: Pc, ch: Choice, m: Move, r: Id, p: Id, req: Req)
    requires Active(pc) && Fits(kind, pc) && ChoiceOk(st, kind, pc, ch) && m == MoveAny(st, q, kind, pc, ch)
    requires r in st.rows && Open(m.st, r) && RowSole(st, r) && PcSole(st, r, req.pc)
    requires Confirming(st, Req(kind, pc), r) ==> !Confirming(st, req, r)
    requires StoreInv(st) && Local(st, q, kind, pc) && Local(st, p, req.kind, req.pc)
    requires StoreInv(m.st) && Evolve(st, m.st, Some(q))
    ensures PcSole(m.st, r, req.pc)
  {
    hide StoreInv, Evolve, Local, MoveAny, ChoiceOk, Fits, RowSole, PcSole, Threatens;
    OpenBack(st, m.st, r, Some(q));
    if Foreign(st, pc, r) {
      ForeignSole(st, q, kind, pc, ch, m, r);
      PcSoleStable(st, m.st, r, p, req.kind, req.pc, Some(q));
    } else {
      PcSoleVacuous(st, m.st, r, req);
    }
  }

  /** r's row and the acting request's assertion about it after one call. */
  lemma OwnCallSole(st: Stores, q: Id, kind: Kind, pc: Pc, ch: Choice, m: Move, r: Id)
    requires Active(pc) && Fits(kind, pc) && ChoiceOk(st, kind, pc, ch) && m == MoveAny(st, q, kind, pc, ch)
    requires RowSole(st, r) && PcSole(st, r, pc)
    requires pc.Flip? && pc.row == r ==> ch.reply != Lost
    requires StoreInv(st) && Local(st, q, kind, pc) && StoreInv(m.st) && Evolve(st, m.st, Some(q))
    ensures RowSole(m.st, r) && PcSole(m.st, r, m.pc)
  {
    hide StoreInv, Evolve, Local, MoveAny, ChoiceOk, Fits, RowSole, PcSole;
    if !Open(m.st, r) {
      NotOpen(m.st, r, m.pc);
    } else if r !in st.rows {
      FreshRowSole(st, q, kind, pc, ch, m, r);
      HeldRowSole(m.st, r);
    } else {
      OwnSole(st, q, kind, pc, ch, m, r);
    }
  }

  /** Another request's assertion about r after one call by q. */
  lemma OtherCallSole(st: Stores, q: Id, kind: Kind, pc: Pc, ch: Choice, m: Move, r: Id, p: Id, req: Req)
    requires Active(pc) && Fits(kind, pc) && ChoiceOk(st, kind, pc, ch) && m == MoveAny(st, q, kind, pc, ch)
    requires RowSole(st, r) && PcSole(st, r, req.pc) && p != q
    requires Confirming(st, Req(kind, pc), r) ==> !Confirming(st, req, r)
    requires StoreInv(st) && Local(st, q, kind, pc) && Local(st, p, req.kind, req.pc)
    requires StoreInv(m.st) && Evolve(st, m.st, Some(q))
    ensures PcSole(m.st, r, req.pc)
  {
    hide StoreInv, Evolve, Local, MoveAny, ChoiceOk, Fits, RowSole, PcSole, Confirming;
    if !Open(m.st, r) {
      NotOpen(m.st, r, req.pc);
    } else if r !in st.rows {
      FreshRowSole(st, q, kind, pc, ch, m, r);
      PcSoleFresh(st, m.st, r, p, req.kind, req.pc);
    } else {
      OtherSole(st, q, kind, pc, ch, m, r, p, req);
    }
  }

  /** The clock and the reapers leave r alone. */
  lemma IdleSole(st: Stores, st': Stores, r: Id, p: Id, req: Req)
    requires StoreInv(st) && StoreInv(st') && Evolve(st, st', None) && st'.rows == st.rows && st'.birth == st.birth
    requires forall id | IsConfirmed(st, id) :: IsConfirmed(st', id)
    requires RowSole(st, r) && PcSole(st, r, req.pc) && Local(st, p, req.kind, req.pc)
    ensures RowSole(st', r) && PcSole(st', r, req.pc)
  {
    hide StoreInv, Evolve, Local;
    assert forall id | Half(st', r, id) :: Half(st, r, id);
    if Open(st', r) {
      PcSoleStable(st, st', r, p, req.kind, req.pc, None);
    }
  }

  lemma ReapKeepsConfirmed(st: Stores, side: Side)
    ensures forall id | IsConfirmed(st, id) :: IsConfirmed(ReapOccs(st, side), id)
  {
  }

  lemma StartSole(st: Stores, r: Id, kind: Kind, pc: Pc)
    requires pc == StartPc(kind) || pc == Crashed
    ensures PcSole(st, r, pc)
  {
  }

  /** The clock and the reapers. */
  lemma IdleStep(s: State, s': State, step: Step, r: Id)
    requires Enabled(s, step) && s' == Apply(s, step) && !step.Call? && SoleInv(s, r) && Inv(s)
    requires StoreInv(s'.st) && Evolve(s.st, s'.st, None)
    ensures RowSole(s'.st, r) && forall p | p in s'.reqs :: PcSole(s'.st, r, s'.reqs[p].pc)
  {
    hide StoreInv, Evolve, Local, RowSole, PcSole, Confirming, StartPc;
    if step.ReapTick? { ReapKeepsConfirmed(s.st, step.side); }
    forall p | p in s'.reqs
      ensures PcSole(s'.st, r, s'.reqs[p].pc)
    {
      if p in s.reqs && s'.reqs[p] == s.reqs[p] {
        IdleSole(s.st, s'.st, r, p, s.reqs[p]);
      } else {
        StartSole(s'.st, r, s'.reqs[p].kind, s'.reqs[p].pc);
      }
    }
    IdleRow(s.st, s'.st, r);
  }

  lemma IdleRow(st: Stores, st': Stores, r: Id)
    requires RowSole(st, r) && st'.rows == st.rows && st'.birth == st.birth
    requires forall id | IsConfirmed(st, id) :: IsConfirmed(st', id)
    ensures RowSole(st', r)
  {
    assert forall id | Half(st', r, id) :: Half(st, r, id);
  }

  /** Every step within the hypotheses keeps the invariant of r. */
  lemma SoleStep(s: State, step: Step, r: Id)
    requires Enabled(s, step) && Alone(s, step, r) && SoleInv(s, r) && Inv(s)
    ensures SoleInv(Apply(s, step), r)
  {
    hide StoreInv, Evolve, Local, MoveAny, ChoiceOk, Fits, RowSole, PcSole, Confirming, StartPc;
    var s' := Apply(s, step);
    StepInv(s, step);
    if step.Call? {
      var q, ch := step.q, step.ch;
      var kind, pc := s.reqs[q].kind, s.reqs[q].pc;
      var m := MoveAny(s.st, q, kind, pc, ch);
      OwnCallSole(s.st, q, kind, pc, ch, m, r);
      forall p | p in s'.reqs
        ensures PcSole(s'.st, r, s'.reqs[p].pc)
      {
        if p != q { OtherCallSole(s.st, q, kind, pc, ch, m, r, p, s.reqs[p]); }
      }
    } else {
      IdleStep(s, s', step, r);
    }
  }

  ghost predicate AloneRun(s: State, tr: seq<Step>, r: Id)
    requires Run(s, tr)
    decreases |tr|
  {
    tr == [] || (Alone(s, tr[0], r) && AloneRun(Apply(s, tr[0]), tr[1..], r))
  }

  lemma {:induction false} SoleRun(s: State, tr: seq<Step>, r: Id)
    requires Run(s, tr) && AloneRun(s, tr, r) && SoleInv(s, r) && Inv(s)
    ensures Inv(Exec(s, tr)) && SoleInv(Exec(s, tr), r)
    decreases |tr|
  {
    hide Inv, Enabled, Apply, SoleInv, Alone;
    if tr != [] {
      StepInv(s, tr[0]);
      SoleStep(s, tr[0], r);
      SoleRun(Apply(s, tr[0]), tr[1..], r);
    }
  }

  /** One confirmer at a time, and otherwise any faults: a CONFIRMED r holds both occupations. */
  lemma AloneRunLinks(tr: seq<Step>, r: Id)
    requires Run(INIT, tr) && AloneRun(INIT, tr, r)
    ensures Inv(Exec(INIT, tr)) && SoleInv(Exec(INIT, tr), r) && Linked(Exec(INIT, tr).st, r)
  {
    SoleRun(INIT, tr, r);
    SoleInvLinks(Exec(INIT, tr), r);
  }

  /** No double booking, end to end. In any run, two appointments each of which meets one of
      the two hypotheses are never both CONFIRMED on a shared technician or bay and
      overlapping in time. */
  lemma NoDoubleBooking(tr: seq<Step>, x: Id, y: Id)
    requires Run(INIT, tr) && x != y
    requires GenuineRun(INIT, tr, x) || AloneRun(INIT, tr, x)
    requires GenuineRun(INIT, tr, y) || AloneRun(INIT, tr, y)
    ensures var rows := Exec(INIT, tr).st.rows;
            && x in rows && y in rows && rows[x].status.Confirmed? && rows[y].status.Confirmed?
            && (rows[x].tech == rows[y].tech || rows[x].bay == rows[y].bay)
            ==> rows[x].end <= rows[y].start || rows[y].end <= rows[x].start
  {
    hide LinkInv, SoleInv;
    var s := Exec(INIT, tr);
    LinkedEither(tr, x);
    LinkedEither(tr, y);
    if x in s.st.rows && y in s.st.rows && s.st.rows[x].status.Confirmed? && s.st.rows[y].status.Confirmed?
       && (s.st.rows[x].tech == s.st.rows[y].tech || s.st.rows[x].bay == s.st.rows[y].bay) {
      LinkedDisjoint(s.st, x, y);
    }
  }

  lemma LinkedEither(tr: seq<Step>, r: Id)
    requires Run(INIT, tr) && (GenuineRun(INIT, tr, r) || AloneRun(INIT, tr, r))
    ensures Inv(Exec(INIT, tr)) && Linked(Exec(INIT, tr).st, r)
  {
    hide Inv, LinkInv, SoleInv, Linked;
    if GenuineRun(INIT, tr, r) { GenuineRunLinks(tr, r); } else { AloneRunLinks(tr, r); }
  }
}
