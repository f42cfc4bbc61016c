/** The write path refines one atomic calendar, and when two keys cannot collide. */
module Calendar {
  import opened Allocator
  import opened Stores
  import opened Protocol
  import opened Invariant
  import opened Linking
  import opened SoleConfirmer
  import opened Undercut

  // ---- The specification: one calendar, two operations ------------------------------------

  datatype Slot = Slot(tech: Id, bay: Id, start: int, end: int)
  type Days = map<Id, Slot>

  datatype Op = Stutter | Book(row: Id, booking: Slot) | Drop(row: Id)

  predicate Clash(a: Slot, b: Slot) {
    (a.tech == b.tech || a.bay == b.bay) && Overlap(a.start, a.end, b.start, b.end)
  }

  /** A booking is accepted only if its technician and its bay are free throughout. */
  predicate Legal(days: Days, op: Op) {
    match op
    case Stutter => true
    case Book(r, b) => r !in days && b.start < b.end && forall x | x in days :: !Clash(days[x], b)
    case Drop(r) => r in days
  }

  function Perform(days: Days, op: Op): Days {
    match op
    case Stutter => days
    case Book(r, b) => days[r := b]
    case Drop(r) => days - {r}
  }

  predicate LegalRun(days: Days, ops: seq<Op>)
    decreases |ops|
  {
    ops == [] || (Legal(days, ops[0]) && LegalRun(Perform(days, ops[0]), ops[1..]))
  }

  function PerformAll(days: Days, ops: seq<Op>): Days
    decreases |ops|
  {
    if ops == [] then days else PerformAll(Perform(days, ops[0]), ops[1..])
  }

  // ---- Abstraction and linearization points ---------------------------------------------

  function BookingOf(row: Row): Slot {
    Slot(row.tech, row.bay, row.start, row.end)
  }

  /** The calendar is the CONFIRMED rows. */
  function View(st: Stores): Days {
    map r | r in st.rows && st.rows[r].status.Confirmed? :: BookingOf(st.rows[r])
  }

  /** The promotion that finds its row HELD books; the cancellation that finds its row
      CONFIRMED drops; nothing else shows. */
  ghost function OpOf(st: Stores, kind: Kind, pc: Pc, ch: Choice): Op
    requires Fits(kind, pc)
  {
    if pc.Flip? && ch.reply != Failed && CanPromote(st, pc.row, kind.key) then Book(pc.row, BookingOf(st.rows[pc.row]))
    else if pc.CancelCas? && ch.reply != Failed && kind.row in st.rows && st.rows[kind.row].status.Confirmed?
        then Drop(kind.row)
    else Stutter
  }

  ghost function StepOp(s: State, step: Step): Op
    requires Enabled(s, step)
  {
    if step.Call? then OpOf(s.st, s.reqs[step.q].kind, s.reqs[step.q].pc, step.ch) else Stutter
  }

  lemma InsertView(st: Stores, q: Id, kind: Kind, pc: Pc, ch: Choice)
    requires pc.Insert? && Books(kind) && (ch.reply != Failed ==> ch.key !in st.rows)
    ensures View(MoveBook(st, q, kind, pc, ch).st) == View(st)
  {
  }

  lemma FlipView(st: Stores, kind: Kind, pc: Pc, ch: Choice)
    requires pc.Flip? && Confirms(kind) && Fits(kind, pc)
    ensures View(MovePromote(st, kind, pc, ch).st) == Perform(View(st), OpOf(st, kind, pc, ch))
  {
    hide PrintOf, View, PromoteRow, KeyTaken;
    if ch.reply != Failed && pc.row in st.rows {
      PromoteView(st, pc.row, kind.key, PrintOf(st, kind, pc.row));
    }
  }

  lemma PromoteView(st: Stores, r: Id, key: string, finger: string)
    requires r in st.rows
    ensures View(PromoteRow(st, r, key, finger)) ==
            if CanPromote(st, r, key) then View(st)[r := BookingOf(st.rows[r])] else View(st)
  {
    hide KeyTaken;
  }

  lemma CancelView(st: Stores, kind: Kind, pc: Pc, ch: Choice)
    requires pc.CancelCas? && kind.CancelReq? && Fits(kind, pc)
    ensures View(MoveCancel(st, kind, pc, ch).st) == Perform(View(st), OpOf(st, kind, pc, ch))
  {
  }

  /** The sweeper only ever cancels HELD rows. */
  lemma SweepView(st: Stores, pc: Pc, ch: Choice)
    requires (pc.SweepBatch? || pc.SweepClear?) && MoveOkSweep(st, pc, ch)
    ensures View(MoveSweep(st, pc, ch).st) == View(st)
  {
    hide Items, NextItem;
  }

  lemma MoveView(st: Stores, q: Id, kind: Kind, pc: Pc, ch: Choice)
    requires Fits(kind, pc) && ChoiceOk(st, kind, pc, ch)
    ensures View(MoveAny(st, q, kind, pc, ch).st) == Perform(View(st), OpOf(st, kind, pc, ch))
  {
    hide View, MoveReserve, MoveBook, MovePromote, MoveRelease, MoveHold, MoveCancel, MoveSweep;
    if pc.Insert? { InsertView(st, q, kind, pc, ch); }
    else if pc.Flip? { FlipView(st, kind, pc, ch); }
    else if pc.CancelCas? { CancelView(st, kind, pc, ch); }
    else if pc.SweepBatch? || pc.SweepClear? { SweepView(st, pc, ch); }
    else { SameView(st, q, kind, pc, ch); }
  }

  lemma SameView(st: Stores, q: Id, kind: Kind, pc: Pc, ch: Choice)
    requires Fits(kind, pc) && ChoiceOk(st, kind, pc, ch) && !WritesRows(pc)
    ensures View(MoveAny(st, q, kind, pc, ch).st) == View(st)
  {
    hide MoveAny;
    RowsSame(st, q, kind, pc, ch);
  }

  /** The row's own promotion is legal, because afterwards everything is linked. */
  lemma BookLegal(st: Stores, st': Stores, r: Id, b: Slot)
    requires StoreInv(st') && View(st') == Perform(View(st), Book(r, b)) && r !in View(st)
    requires r in st'.rows && st'.rows[r].status.Confirmed? && BookingOf(st'.rows[r]) == b
    requires forall x :: Linked(st', x)
    ensures Legal(View(st), Book(r, b))
  {
    assert RowOk(st', r);
    forall x | x in View(st)
      ensures !Clash(View(st)[x], b)
    {
      assert x in View(st') && View(st')[x] == View(st)[x];
      if View(st)[x].tech == b.tech || View(st)[x].bay == b.bay {
        LinkedDisjoint(st', x, r);
      }
    }
  }

  /** One step of the distributed protocol is one legal operation on the calendar. */
  lemma StepRefines(s: State, step: Step)
    requires Enabled(s, step) && Inv(s) && Inv(Apply(s, step)) && forall x :: Linked(Apply(s, step).st, x)
    ensures Legal(View(s.st), StepOp(s, step))
    ensures View(Apply(s, step).st) == Perform(View(s.st), StepOp(s, step))
  {
    hide StoreInv, Local, Linked, ChoiceOk;
    var s' := Apply(s, step);
    if step.Call? {
      var kind, pc := s.reqs[step.q].kind, s.reqs[step.q].pc;
      MoveView(s.st, step.q, kind, pc, step.ch);
      var op := OpOf(s.st, kind, pc, step.ch);
      if op.Book? {
        FlipBooks(s.st, step.q, kind, pc, step.ch);
        BookLegal(s.st, s'.st, op.row, op.booking);
      }
    }
  }

  lemma FlipBooks(st: Stores, q: Id, kind: Kind, pc: Pc, ch: Choice)
    requires Fits(kind, pc) && ChoiceOk(st, kind, pc, ch) && OpOf(st, kind, pc, ch).Book?
    ensures var st', op := MoveAny(st, q, kind, pc, ch).st, OpOf(st, kind, pc, ch);
            && op.row !in View(st) && op.row in st'.rows && st'.rows[op.row].status.Confirmed?
            && BookingOf(st'.rows[op.row]) == op.booking
  {
  }

  ghost function Ops(s: State, tr: seq<Step>): seq<Op>
    requires Run(s, tr)
    decreases |tr|
  {
    if tr == [] then [] else [StepOp(s, tr[0])] + Ops(Apply(s, tr[0]), tr[1..])
  }

  // ---- The guard ---------------------------------------------------------------------------

  ghost predicate AllLinked(st: Stores) {
    forall r :: Linked(st, r)
  }

  /** No promotion after a half of the row has been released, and no compensation that reaches
      a half of a CONFIRMED row. */
  ghost predicate Guarded(s: State, step: Step)
    requires Enabled(s, step)
  {
    step.Call? && step.ch.reply != Failed ==>
      var kind, pc := s.reqs[step.q].kind, s.reqs[step.q].pc;
      && (pc.Flip? && CanPromote(s.st, pc.row, kind.key) ==> !Released(s.st, pc.tech) && !Released(s.st, pc.bay))
      && (forall r, id | Compensates(pc, id) && Half(s.st, r, id) && r in s.st.rows :: !s.st.rows[r].status.Confirmed?)
  }

  /** A row that a step turns CONFIRMED was flipped by it. */
  lemma NewlyConfirmed(s: State, step: Step, r: Id)
    requires Enabled(s, step) && r in View(Apply(s, step).st) && r !in View(s.st)
    ensures step.Call? && step.ch.reply != Failed
    ensures var pc := s.reqs[step.q].pc;
            pc.Flip? && pc.row == r && CanPromote(s.st, r, s.reqs[step.q].kind.key)
  {
    if step.Call? {
      hide MoveAny, View, ChoiceOk, KeyTaken;
      MoveView(s.st, step.q, s.reqs[step.q].kind, s.reqs[step.q].pc, step.ch);
    }
  }

  /** A row that stays CONFIRMED stays linked unless a compensation reaches it. */
  lemma StaysLinked(s: State, step: Step, r: Id)
    requires Enabled(s, step) && Inv(s) && Linked(s.st, r) && r in View(s.st) && !Cuts(s, step, r)
    ensures Linked(Apply(s, step).st, r)
  {
    hide StoreInv, Linked, Intact, Apply, Enabled, Cuts;
    LinkedIntact(s.st, r);
    StepIntact(s, step, r);
    StepInv(s, step);
    IntactLinks(Apply(s, step).st, r);
  }

  /** A compensation that reaches a CONFIRMED row unlinks it. */
  lemma CutUnlinks(s: State, step: Step, r: Id)
    requires Enabled(s, step) && Inv(s) && r in View(s.st) && Cuts(s, step, r)
    ensures !Linked(Apply(s, step).st, r)
  {
    hide StoreInv, Local, ChoiceOk, Fits, Half, Broken, Linked, MoveRelease, Evolve;
    hide MoveReserve, MoveBook, MovePromote, MoveHold, MoveCancel, MoveSweep;
    CutBreaks(s, step, r);
    StepInv(s, step);
    ReleaseRows(s.st, s.reqs[step.q].pc, step.ch);
    BrokenUnlinks(Apply(s, step).st, r);
  }

  lemma ReleaseRows(st: Stores, pc: Pc, ch: Choice)
    requires pc.RelBay? || pc.RelTech?
    ensures MoveRelease(st, pc, ch).st.rows == st.rows
  {
  }

  /** The guard is exact: a step keeps every CONFIRMED row linked if and only if it is guarded. */
  lemma GuardIsExact(s: State, step: Step)
    requires Enabled(s, step) && Inv(s) && AllLinked(s.st)
    ensures AllLinked(Apply(s, step).st) <==> Guarded(s, step)
  {
    hide Inv, Enabled, Apply, AllLinked, Guarded;
    if Guarded(s, step) { GuardKeepsLinks(s, step); }
    if AllLinked(Apply(s, step).st) { GuardNeeded(s, step); }
  }

  lemma NotCut(s: State, step: Step, r: Id)
    requires Enabled(s, step) && Guarded(s, step) && r in View(s.st)
    ensures !Cuts(s, step, r)
  {
    hide ChoiceOk, Half, Compensates, KeyTaken;
  }

  lemma FlippedLinked(s: State, step: Step, r: Id)
    requires Enabled(s, step) && Guarded(s, step) && r in View(Apply(s, step).st) && r !in View(s.st)
    requires Inv(s)
    ensures Linked(Apply(s, step).st, r)
  {
    hide StoreInv, Local, ChoiceOk, MoveAny, View, Linked, Released, Half, KeyTaken;
    NewlyConfirmed(s, step, r);
    FlipLinksIff(s, step.q, step.ch);
  }

  lemma GuardKeepsLinks(s: State, step: Step)
    requires Enabled(s, step) && Inv(s) && AllLinked(s.st) && Guarded(s, step)
    ensures AllLinked(Apply(s, step).st)
  {
    hide Inv, Enabled, Apply, Guarded, Cuts;
    var st' := Apply(s, step).st;
    forall r
      ensures Linked(st', r)
    {
      if r in View(st') {
        if r in View(s.st) {
          NotCut(s, step, r);
          StaysLinked(s, step, r);
        } else {
          FlippedLinked(s, step, r);
        }
      }
    }
  }

  lemma GuardNeeded(s: State, step: Step)
    requires Enabled(s, step) && Inv(s) && AllLinked(Apply(s, step).st)
    ensures Guarded(s, step)
  {
    hide StoreInv, Local, ChoiceOk, Half, Linked, Released, MoveAny, KeyTaken, Evolve;
    if step.Call? && step.ch.reply != Failed {
      var kind, pc := s.reqs[step.q].kind, s.reqs[step.q].pc;
      if pc.Flip? && CanPromote(s.st, pc.row, kind.key) { FlipLinksIff(s, step.q, step.ch); }
      forall r, id | Compensates(pc, id) && Half(s.st, r, id) && r in s.st.rows
        ensures !s.st.rows[r].status.Confirmed?
      {
        if s.st.rows[r].status.Confirmed? {
          assert Cuts(s, step, r);
          CutUnlinks(s, step, r);
        }
      }
    }
  }

  ghost predicate GuardedRun(s: State, tr: seq<Step>)
    requires Run(s, tr)
    decreases |tr|
  {
    tr == [] || (Guarded(s, tr[0]) && GuardedRun(Apply(s, tr[0]), tr[1..]))
  }

  ghost predicate LinkedThroughout(s: State, tr: seq<Step>)
    requires Run(s, tr)
    decreases |tr|
  {
    AllLinked(s.st) && (tr == [] || LinkedThroughout(Apply(s, tr[0]), tr[1..]))
  }

  /** Over any run, under any faults: all CONFIRMED rows are linked at every moment if and only
      if every step is guarded. */
  lemma {:induction false} GuardedRunIsExact(s: State, tr: seq<Step>)
    requires Run(s, tr) && Inv(s) && AllLinked(s.st)
    ensures LinkedThroughout(s, tr) <==> GuardedRun(s, tr)
    decreases |tr|
  {
    hide Inv, Enabled, Apply, AllLinked, Guarded;
    if tr != [] {
      StepInv(s, tr[0]);
      GuardIsExact(s, tr[0]);
      if AllLinked(Apply(s, tr[0]).st) { GuardedRunIsExact(Apply(s, tr[0]), tr[1..]); }
    }
  }

  lemma {:induction false} RefinesFrom(s: State, tr: seq<Step>)
    requires Run(s, tr) && Inv(s) && LinkedThroughout(s, tr)
    ensures LegalRun(View(s.st), Ops(s, tr))
    ensures PerformAll(View(s.st), Ops(s, tr)) == View(Exec(s, tr).st)
    decreases |tr|
  {
    hide Inv, Enabled, Apply, Linked, View, StepOp, Perform, Legal;
    if tr != [] {
      var s' := Apply(s, tr[0]);
      StepInv(s, tr[0]);
      assert AllLinked(s'.st);
      StepRefines(s, tr[0]);
      RefinesFrom(s', tr[1..]);
      assert Ops(s, tr)[1..] == Ops(s', tr[1..]);
    }
  }

  // ---- Runs within the hypotheses are guarded -------------------------------------------------

  /** Each row keeps one of the two linking invariants. */
  ghost predicate Tame(s: State, tr: seq<Step>, r: Id)
    requires Run(s, tr)
  {
    (LinkInv(s, r) && GenuineRun(s, tr, r)) || (SoleInv(s, r) && AloneRun(s, tr, r))
  }

  lemma TameNext(s: State, tr: seq<Step>, r: Id)
    requires Run(s, tr) && tr != [] && Tame(s, tr, r) && Inv(s)
    ensures Tame(Apply(s, tr[0]), tr[1..], r)
  {
    hide Inv, LinkInv, SoleInv, Enabled, Apply, Genuine, Alone;
    if LinkInv(s, r) && GenuineRun(s, tr, r) { LinkStep(s, tr[0], r); } else { SoleStep(s, tr[0], r); }
  }

  lemma TameLinked(s: State, tr: seq<Step>, r: Id)
    requires Run(s, tr) && Tame(s, tr, r) && Inv(s)
    ensures Linked(s.st, r)
  {
    hide Inv, LinkInv, SoleInv, Linked;
    if LinkInv(s, r) { LinkInvLinks(s, r); } else { SoleInvLinks(s, r); }
  }

  lemma {:induction false} TameThroughout(s: State, tr: seq<Step>)
    requires Run(s, tr) && Inv(s) && forall r :: Tame(s, tr, r)
    ensures LinkedThroughout(s, tr)
    decreases |tr|
  {
    hide Inv, Enabled, Apply, Tame, Linked;
    forall r
      ensures Linked(s.st, r)
    {
      TameLinked(s, tr, r);
    }
    if tr != [] {
      StepInv(s, tr[0]);
      forall r
        ensures Tame(Apply(s, tr[0]), tr[1..], r)
      {
        TameNext(s, tr, r);
      }
      TameThroughout(Apply(s, tr[0]), tr[1..]);
    }
  }

  /** Both hypotheses, row by row, make a run guarded. */
  lemma HypothesesGuard(tr: seq<Step>)
    requires Run(INIT, tr)
    requires forall r :: GenuineRun(INIT, tr, r) || AloneRun(INIT, tr, r)
    ensures GuardedRun(INIT, tr)
  {
    forall r
      ensures Tame(INIT, tr, r)
    {
    }
    TameThroughout(INIT, tr);
    GuardedRunIsExact(INIT, tr);
  }
}
