/** What the answers mean, under any faults: to the stores, and to the atomic calendar. */
module Linearization {
  import opened Wrappers
  import opened Allocator
  import opened Stores
  import opened Protocol
  import opened Invariant
  import opened Linking
  import opened SoleConfirmer
  import opened Calendar
  import Safety

  // ---- What an answer says about the stores ---------------------------------------------------

  /** Row r is what booking request q asked for, made of q's own claims. */
  ghost predicate Asked(st: Stores, q: Id, kind: Kind, r: Id) {
    && Books(kind) && r in st.birth
    && var b := st.birth[r];
       && b.who == kind.body.who && b.start == kind.body.start
       && b.techOcc.Some? && b.techOcc.value in st.claims && st.claims[b.techOcc.value].owner == q
       && b.bayOcc.Some? && b.bayOcc.value in st.claims && st.claims[b.bayOcc.value].owner == q
  }

  /** CONFIRMED now or at some time before. */
  predicate Settled(st: Stores, r: Id) {
    r in st.rows && !st.rows[r].status.Held?
  }

  /** The row q confirms: the one it made, or the hold it was given. */
  ghost predicate Its(st: Stores, q: Id, kind: Kind, r: Id) {
    (kind.DirectReq? ==> Asked(st, q, kind, r)) && (kind.PromoteReq? ==> r == kind.row)
  }

  /** Row r carries the key and the fingerprint of direct request `kind`. */
  predicate BoundTo(st: Stores, r: Id, kind: Kind) {
    && kind.DirectReq? && kind.key != "" && r in st.rows
    && st.rows[r].key == Some(kind.key) && st.rows[r].finger == Some(DirectPrint(kind.body))
  }

  ghost predicate Means(st: Stores, q: Id, kind: Kind, res: Result) {
    match res
    case Created(r) => kind.HoldReq? && Asked(st, q, kind, r)
    case Booked(r) => Confirms(kind) && Its(st, q, kind, r) && Settled(st, r)
    case Replayed(r) =>
      Confirms(kind) && Settled(st, r) && if kind.DirectReq? then BoundTo(st, r, kind) else r == kind.row
    case CancelDone(r, _, _) => kind.CancelReq? && r == kind.row && IsCancelled(st, r)
    case _ => true
  }

  ghost predicate PcMeans(st: Stores, q: Id, kind: Kind, pc: Pc) {
    match pc
    case Done(res) => Means(st, q, kind, res)
    case FinalGet(r) => Its(st, q, kind, r) && Settled(st, r)
    case ConfirmTech(r, _, _) => Its(st, q, kind, r)
    case ConfirmBay(r, _, _) => Its(st, q, kind, r)
    case Flip(r, _, _) => Its(st, q, kind, r)
    case Reread(r, _, _, _) => Its(st, q, kind, r)
    case KeyCheck => kind.PromoteReq? ==> kind.key != "" && Settled(st, kind.row)
    case Lookup => kind.DirectReq? ==> kind.key != ""
    case _ => true
  }

  lemma AskedStable(st: Stores, st': Stores, q: Id, kind: Kind, r: Id, actor: Option<Id>)
    requires Evolve(st, st', actor) && r in st.rows && Asked(st, q, kind, r)
    ensures Asked(st', q, kind, r)
  {
    assert RowEvolves(st, st', r);
    assert ClaimEvolves(st, st', st.birth[r].techOcc.value, actor);
    assert ClaimEvolves(st, st', st.birth[r].bayOcc.value, actor);
  }

  /** Settled for good, with key and fingerprint. */
  lemma SettledStable(st: Stores, st': Stores, r: Id, actor: Option<Id>)
    requires Evolve(st, st', actor) && Settled(st, r)
    ensures Settled(st', r) && st'.rows[r].key == st.rows[r].key && st'.rows[r].finger == st.rows[r].finger
    ensures IsCancelled(st, r) ==> IsCancelled(st', r)
  {
    assert RowEvolves(st, st', r);
  }

  lemma ItsStable(st: Stores, st': Stores, q: Id, kind: Kind, r: Id, actor: Option<Id>)
    requires Evolve(st, st', actor) && st.rows.Keys == st.birth.Keys && Its(st, q, kind, r)
    ensures Its(st', q, kind, r)
  {
    hide Evolve, Asked;
    if kind.DirectReq? {
      AskedBorn(st, q, kind, r);
      AskedStable(st, st', q, kind, r, actor);
    }
  }

  lemma AskedBorn(st: Stores, q: Id, kind: Kind, r: Id)
    requires Asked(st, q, kind, r)
    ensures r in st.birth
  {
  }

  /** Others' steps do not change what has been answered. */
  lemma PcMeansStable(st: Stores, st': Stores, q: Id, kind: Kind, pc: Pc, actor: Option<Id>)
    requires PcMeans(st, q, kind, pc) && st.rows.Keys == st.birth.Keys && Evolve(st, st', actor)
    ensures PcMeans(st', q, kind, pc)
  {
    hide Evolve, Asked, Its, Settled;
    match pc {
      case Done(res) =>
        match res {
          case Created(r) =>
            AskedBorn(st, q, kind, r);
            AskedStable(st, st', q, kind, r, actor);
          case Booked(r) =>
            ItsStable(st, st', q, kind, r, actor);
            SettledStable(st, st', r, actor);
          case Replayed(r) => SettledStable(st, st', r, actor);
          case CancelDone(r, _, _) => CancelledStays(st, st', r, actor);
          case _ =>
        }
      case FinalGet(r) =>
        ItsStable(st, st', q, kind, r, actor);
        SettledStable(st, st', r, actor);
      case ConfirmTech(r, _, _) => ItsStable(st, st', q, kind, r, actor);
      case ConfirmBay(r, _, _) => ItsStable(st, st', q, kind, r, actor);
      case Flip(r, _, _) => ItsStable(st, st', q, kind, r, actor);
      case Reread(r, _, _, _) => ItsStable(st, st', q, kind, r, actor);
      case KeyCheck => if kind.PromoteReq? { SettledStable(st, st', kind.row, actor); }
      case _ =>
    }
  }

  lemma CancelledStays(st: Stores, st': Stores, r: Id, actor: Option<Id>)
    requires Evolve(st, st', actor) && IsCancelled(st, r)
    ensures IsCancelled(st', r)
  {
    assert RowEvolves(st, st', r);
  }

  lemma BookMeans(st: Stores, q: Id, kind: Kind, pc: Pc, ch: Choice)
    requires (pc.Lookup? || pc.Insert?) && Fits(kind, pc) && ChoiceOk(st, kind, pc, ch)
    requires Local(st, q, kind, pc) && PcMeans(st, q, kind, pc)
    ensures var m := MoveBook(st, q, kind, pc, ch); PcMeans(m.st, q, kind, m.pc)
  {
    hide DirectPrint;
  }

  lemma PromoteMeans(st: Stores, q: Id, kind: Kind, pc: Pc, ch: Choice)
    requires Promotes(pc) && Confirms(kind) && PcMeans(st, q, kind, pc) && st.rows.Keys == st.birth.Keys
    requires Evolve(st, MovePromote(st, kind, pc, ch).st, Some(q))
    ensures var m := MovePromote(st, kind, pc, ch); PcMeans(m.st, q, kind, m.pc)
  {
    hide PrintOf, Asked, KeyTaken, Evolve, Its, ConfirmOcc;
    var m := MovePromote(st, kind, pc, ch);
    ItsStable(st, m.st, q, kind, pc.row, Some(q));
  }

  lemma HoldMeans(st: Stores, q: Id, kind: Kind, pc: Pc, ch: Choice)
    requires kind.PromoteReq? && (pc.Load? || pc.KeyCheck?) && PcMeans(st, q, kind, pc)
    ensures var m := MoveHold(st, kind, pc, ch); PcMeans(m.st, q, kind, m.pc)
  {
    hide ByKey;
  }

  lemma CancelMeans(st: Stores, q: Id, kind: Kind, pc: Pc, ch: Choice)
    requires kind.CancelReq? && Cancels(pc) && LocalCancel(st, kind, pc)
    ensures var m := MoveCancel(st, kind, pc, ch); PcMeans(m.st, q, kind, m.pc)
  {
  }

  lemma CallMeans(st: Stores, q: Id, kind: Kind, pc: Pc, ch: Choice)
    requires Active(pc) && Fits(kind, pc) && ChoiceOk(st, kind, pc, ch) && st.rows.Keys == st.birth.Keys
    requires PcMeans(st, q, kind, pc) && Local(st, q, kind, pc)
    requires Evolve(st, MoveAny(st, q, kind, pc, ch).st, Some(q))
    ensures var m := MoveAny(st, q, kind, pc, ch); PcMeans(m.st, q, kind, m.pc)
  {
    hide MoveBook, MovePromote, MoveHold, MoveCancel, MoveSweep, PcMeans, Evolve;
    hide LocalReserve, LocalPromote, LocalCancel, LocalSweep;
    if pc.Lookup? || pc.Insert? { BookMeans(st, q, kind, pc, ch); }
    else if Promotes(pc) { PromoteMeans(st, q, kind, pc, ch); }
    else if pc.Load? || pc.KeyCheck? { HoldMeans(st, q, kind, pc, ch); }
    else if Cancels(pc) { CancelMeans(st, q, kind, pc, ch); }
    else { QuietMeans(st, q, kind, pc, ch); }
  }

  /** Elsewhere a request answers with an error, or not yet. */
  lemma QuietMeans(st: Stores, q: Id, kind: Kind, pc: Pc, ch: Choice)
    requires Fits(kind, pc) && ChoiceOk(st, kind, pc, ch) && Local(st, q, kind, pc)
    requires pc.Pick? || pc.Put? || pc.Reaping? || pc.RelBay? || pc.RelTech? || Sweeps(pc)
    ensures var m := MoveAny(st, q, kind, pc, ch); PcMeans(m.st, q, kind, m.pc)
  {
    hide MoveBook, MovePromote, MoveHold, MoveCancel, LocalReserve, LocalPromote, LocalCancel, LocalSweep, ReleaseOpt;
    if Sweeps(pc) {
      QuietSweep(st, pc, ch);
      SweepAnswers(st, pc, ch);
      hide MoveSweep;
    }
  }

  lemma SweepAnswers(st: Stores, pc: Pc, ch: Choice)
    requires Sweeps(pc) && MoveOkSweep(st, pc, ch)
    ensures var pc' := MoveSweep(st, pc, ch).pc; pc'.Done? ==> pc'.res == Swept
  {
    hide Items;
    NextItemAnswers(if pc.SweepBatch? && ch.reply != Failed then Items(MoveSweep(st, pc, ch).st, ch.rows) else [],
        true);
    NextItemAnswers(if pc.SweepList? && ch.reply == Ok then Items(st, ch.rows) else [], false);
    if pc.SweepTech? || pc.SweepClear? { NextItemAnswers(pc.todo[1..], pc.more); }
  }

  lemma {:induction false} NextItemAnswers(todo: seq<Item>, more: bool)
    ensures NextItem(todo, more).Done? ==> NextItem(todo, more).res == Swept
    decreases |todo|
  {
    if todo != [] { NextItemAnswers(todo[1..], more); }
  }

  ghost predicate AllMean(s: State) {
    forall q | q in s.reqs :: PcMeans(s.st, q, s.reqs[q].kind, s.reqs[q].pc)
  }

  lemma BeginMeans(st: Stores, q: Id, kind: Kind)
    ensures PcMeans(st, q, kind, StartPc(kind)) && PcMeans(st, q, kind, Crashed)
  {
  }

  lemma StepMeans(s: State, step: Step)
    requires Enabled(s, step) && AllMean(s) && Inv(s)
    ensures AllMean(Apply(s, step))
  {
    assert s.st.rows.Keys == s.st.birth.Keys;
    hide StoreInv, Evolve, Local, MoveAny, ChoiceOk, Fits, PcMeans;
    var s' := Apply(s, step);
    StepInv(s, step);
    forall q | q in s'.reqs
      ensures PcMeans(s'.st, q, s'.reqs[q].kind, s'.reqs[q].pc)
    {
      if step.Call? && step.q == q {
        CallMeans(s.st, q, s.reqs[q].kind, s.reqs[q].pc, step.ch);
      } else if q in s.reqs && s'.reqs[q] == s.reqs[q] {
        PcMeansStable(s.st, s'.st, q, s.reqs[q].kind, s.reqs[q].pc, ActorOf(step));
      } else {
        BeginMeans(s'.st, q, s'.reqs[q].kind);
      }
    }
  }

  lemma {:induction false} RunMeans(s: State, tr: seq<Step>)
    requires Run(s, tr) && AllMean(s) && Inv(s)
    ensures Inv(Exec(s, tr)) && AllMean(Exec(s, tr))
    decreases |tr|
  {
    hide Inv, Enabled, Apply, AllMean;
    if tr != [] {
      StepInv(s, tr[0]);
      StepMeans(s, tr[0]);
      RunMeans(Apply(s, tr[0]), tr[1..]);
    }
  }

  /** Under any faults: a created row is what the request asked for, made of its own claims; a
      booked row is the request's own, or its hold, and was CONFIRMED; a replayed row was CONFIRMED,
      and carries the request's key and fingerprint, or is its hold; a row of a cancel is CANCELLED. */
  lemma AnswersMean(tr: seq<Step>, q: Id)
    requires Run(INIT, tr) && q in Exec(INIT, tr).reqs && Exec(INIT, tr).reqs[q].pc.Done?
    ensures var s := Exec(INIT, tr); Means(s.st, q, s.reqs[q].kind, s.reqs[q].pc.res)
  {
    hide Means;
    RunMeans(INIT, tr);
  }

  // ---- What an answer says about the calendar ---------------------------------------------------

  ghost predicate Underway(s: State, q: Id) {
    q in s.reqs && Active(s.reqs[q].pc)
  }

  /** The step books row r, while q is underway. */
  ghost predicate BooksNow(s: State, step: Step, q: Id, r: Id)
    requires Enabled(s, step)
  {
    Underway(s, q) && StepOp(s, step).Book? && StepOp(s, step).row == r
  }

  ghost predicate BookedIn(s: State, tr: seq<Step>, q: Id, r: Id)
    requires Run(s, tr)
    decreases |tr|
  {
    tr != [] && (BooksNow(s, tr[0], q, r) || BookedIn(Apply(s, tr[0]), tr[1..], q, r))
  }

  /** Row r is on the calendar at some moment while q is underway. */
  ghost predicate SeenIn(s: State, tr: seq<Step>, q: Id, r: Id)
    requires Run(s, tr)
    decreases |tr|
  {
    || (Underway(s, q) && r in View(s.st))
    || (tr != [] && SeenIn(Apply(s, tr[0]), tr[1..], q, r))
  }

  predicate About(pc: Pc, r: Id) {
    (pc.ConfirmTech? || pc.ConfirmBay? || pc.Flip? || pc.Reread?) && pc.row == r
  }

  /** What q can only know if r has been booked while it was underway. */
  ghost predicate KnowsBooked(s: State, q: Id, r: Id, booked: bool) {
    q in s.reqs ==>
      && (About(s.reqs[q].pc, r) && r in View(s.st) ==> booked)
      && (s.reqs[q].pc == FinalGet(r) || s.reqs[q].pc == Done(Booked(r)) ==> booked)
  }

  /** A request takes a row up while the row is HELD. */
  lemma TakesUp(st: Stores, q: Id, kind: Kind, pc: Pc, ch: Choice, r: Id)
    requires Active(pc) && Fits(kind, pc) && ChoiceOk(st, kind, pc, ch) && !About(pc, r)
    requires About(MoveAny(st, q, kind, pc, ch).pc, r)
    ensures r !in View(MoveAny(st, q, kind, pc, ch).st)
  {
    OnlyTakenUp(st, q, kind, pc, ch, r);
    hide MoveReserve, MovePromote, MoveRelease, MoveCancel, MoveSweep, ByKey, DirectPrint;
  }

  lemma OnlyTakenUp(st: Stores, q: Id, kind: Kind, pc: Pc, ch: Choice, r: Id)
    requires Active(pc) && Fits(kind, pc) && ChoiceOk(st, kind, pc, ch) && !About(pc, r)
    requires About(MoveAny(st, q, kind, pc, ch).pc, r)
    ensures pc.Load? || pc.Insert?
  {
    hide MoveSweep, PrintOf, KeyTaken, ByKey, InsertOcc, InsertRow, ConfirmOcc, ReleaseOcc, CancelRows, ReapOccs, View;
    if Sweeps(pc) { QuietSweep(st, pc, ch); }
  }

  /** The answer rests on a re-read that found the row CONFIRMED, or on the request's own update. */
  lemma ReachesAnswer(st: Stores, q: Id, kind: Kind, pc: Pc, ch: Choice, r: Id)
    requires Active(pc) && Fits(kind, pc) && ChoiceOk(st, kind, pc, ch) && Local(st, q, kind, pc)
    requires var pc' := MoveAny(st, q, kind, pc, ch).pc; pc' == FinalGet(r) || pc' == Done(Booked(r))
    ensures || pc == FinalGet(r)
            || (pc.Reread? && pc.row == r && r in View(st))
            || (pc.Flip? && OpOf(st, kind, pc, ch).Book? && OpOf(st, kind, pc, ch).row == r)
  {
    hide MoveSweep, PrintOf, KeyTaken, ByKey, LocalReserve, LocalPromote, LocalCancel, LocalSweep;
    if Sweeps(pc) {
      QuietSweep(st, pc, ch);
      SweepAnswers(st, pc, ch);
    }
  }

  lemma StepKnows(s: State, step: Step, q: Id, r: Id, booked: bool)
    requires Enabled(s, step) && KnowsBooked(s, q, r, booked) && Inv(s)
    ensures KnowsBooked(Apply(s, step), q, r, booked || BooksNow(s, step, q, r))
  {
    hide StoreInv, Local, MoveAny, ChoiceOk, Fits, View, KeyTaken;
    var s' := Apply(s, step);
    if r in View(s'.st) && r !in View(s.st) { NewlyConfirmed(s, step, r); }
    if step.Call? && step.q == q {
      var kind, pc, ch := s.reqs[q].kind, s.reqs[q].pc, step.ch;
      if About(s'.reqs[q].pc, r) && !About(pc, r) { TakesUp(s.st, q, kind, pc, ch, r); }
      if s'.reqs[q].pc == FinalGet(r) || s'.reqs[q].pc == Done(Booked(r)) { ReachesAnswer(s.st, q, kind, pc, ch, r); }
    }
  }

  lemma {:induction false} RunKnows(s: State, tr: seq<Step>, q: Id, r: Id, booked: bool)
    requires Run(s, tr) && KnowsBooked(s, q, r, booked) && Inv(s)
    ensures KnowsBooked(Exec(s, tr), q, r, booked || BookedIn(s, tr, q, r))
    decreases |tr|
  {
    hide Inv, Enabled, Apply, KnowsBooked, BooksNow;
    if tr != [] {
      StepKnows(s, tr[0], q, r, booked);
      StepInv(s, tr[0]);
      RunKnows(Apply(s, tr[0]), tr[1..], q, r, booked || BooksNow(s, tr[0], q, r));
    }
  }

  /** What q can only know if r was CONFIRMED at some moment while it was underway. */
  ghost predicate KnowsSeen(s: State, q: Id, r: Id, seen: bool) {
    q in s.reqs && Replaying(s.reqs[q].kind, s.reqs[q].pc, r) ==> seen
  }

  predicate Replaying(kind: Kind, pc: Pc, r: Id) {
    (pc.KeyCheck? && kind.PromoteReq? && kind.row == r) || pc == Done(Replayed(r))
  }

  /** A replay rests on a read that found the row CONFIRMED. */
  lemma ReachesReplay(st: Stores, q: Id, kind: Kind, pc: Pc, ch: Choice, r: Id)
    requires Active(pc) && Fits(kind, pc) && ChoiceOk(st, kind, pc, ch) && Local(st, q, kind, pc)
    requires Replaying(kind, MoveAny(st, q, kind, pc, ch).pc, r)
    ensures r in View(st) || Replaying(kind, pc, r)
  {
    hide MoveSweep, PrintOf, KeyTaken, LocalReserve, LocalPromote, LocalCancel, LocalSweep;
    hide InsertOcc, InsertRow, ConfirmOcc, ReleaseOcc, CancelRows, ReapOccs;
    if Sweeps(pc) {
      QuietSweep(st, pc, ch);
      SweepAnswers(st, pc, ch);
    }
  }

  lemma StepSees(s: State, step: Step, q: Id, r: Id, seen: bool)
    requires Enabled(s, step) && KnowsSeen(s, q, r, seen) && Inv(s)
    ensures KnowsSeen(Apply(s, step), q, r, seen || (Underway(s, q) && r in View(s.st)))
  {
    hide StoreInv, Local, MoveAny, ChoiceOk, View;
    var s' := Apply(s, step);
    if step.Call? && step.q == q {
      var kind, pc, ch := s.reqs[q].kind, s.reqs[q].pc, step.ch;
      if Replaying(kind, s'.reqs[q].pc, r) { ReachesReplay(s.st, q, kind, pc, ch, r); }
    }
  }

  lemma {:induction false} RunSees(s: State, tr: seq<Step>, q: Id, r: Id, seen: bool)
    requires Run(s, tr) && KnowsSeen(s, q, r, seen) && Inv(s)
    ensures KnowsSeen(Exec(s, tr), q, r, seen || SeenIn(s, tr, q, r))
    decreases |tr|
  {
    hide Inv, Enabled, Apply, View;
    if tr != [] {
      StepSees(s, tr[0], q, r, seen);
      StepInv(s, tr[0]);
      RunSees(Apply(s, tr[0]), tr[1..], q, r, seen || (Underway(s, q) && r in View(s.st)));
    }
  }

  // ---- Errors after the update took effect --------------------------------------------------------

  /** What has happened to q: its own update booked the row; the update's answer was lost; the
      re-read failed or read CANCELLED; the last read failed. */
  datatype Past = Past(booked: bool, lost: bool, turned: bool, unread: bool)

  const NOTHING := Past(false, false, false, false)

  ghost function Recall(past: Past, s: State, step: Step, q: Id): Past
    requires Enabled(s, step)
  {
    if !step.Call? || step.q != q then past else
      var kind, pc, ch := s.reqs[q].kind, s.reqs[q].pc, step.ch;
      if pc.Flip? && OpOf(s.st, kind, pc, ch).Book? then past.(booked := true, lost := ch.reply == Lost)
      else if pc.Reread? && (ch.reply != Ok || IsCancelled(s.st, pc.row)) then past.(turned := true)
      else if pc.FinalGet? && ch.reply != Ok then past.(unread := true)
      else past
  }

  ghost function RecallAll(past: Past, s: State, tr: seq<Step>, q: Id): Past
    requires Run(s, tr)
    decreases |tr|
  {
    if tr == [] then past else RecallAll(Recall(past, s, tr[0], q), Apply(s, tr[0]), tr[1..], q)
  }

  predicate BeforeUpdate(pc: Pc) {
    Active(pc) && !pc.Reread? && !pc.FinalGet? && !pc.RelBay? && !pc.RelTech?
  }

  predicate Good(res: Result) {
    res.Created? || res.Booked? || res.Replayed?
  }

  /** Where a request whose update took effect can be. */
  predicate Fate(st: Stores, pc: Pc, past: Past) {
    && (BeforeUpdate(pc) ==> past == NOTHING)
    && (past.booked ==>
          || pc.Crashed?
          || (pc.FinalGet? && !past.turned && !past.unread)
          || (pc.Reread? && past.lost && !past.turned && !past.unread && Settled(st, pc.row))
          || ((pc.RelBay? || pc.RelTech?) && IsError(pc.res) && past.lost && past.turned && !past.unread)
          || (pc.Done? && pc.res.Booked? && !past.turned && !past.unread)
          || (pc.Done? && pc.res.NotFound? && past.unread)
          || (pc.Done? && IsError(pc.res) && past.lost && past.turned))
  }

  lemma CallFate(s: State, q: Id, ch: Choice, past: Past)
    requires q in s.reqs && Enabled(s, Call(q, ch)) && Local(s.st, q, s.reqs[q].kind, s.reqs[q].pc)
    requires Fate(s.st, s.reqs[q].pc, past)
    ensures var s' := Apply(s, Call(q, ch)); Fate(s'.st, s'.reqs[q].pc, Recall(past, s, Call(q, ch), q))
  {
    var kind, pc := s.reqs[q].kind, s.reqs[q].pc;
    hide MoveSweep, PrintOf, KeyTaken, ByKey, LocalReserve, LocalCancel, LocalSweep;
    hide InsertOcc, InsertRow, ConfirmOcc, ReleaseOcc, CancelRows, ReapOccs;
    if Sweeps(pc) { QuietSweep(s.st, pc, ch); }
  }

  /** A request of which something has happened has begun. */
  ghost predicate FateOk(s: State, q: Id, past: Past) {
    if q in s.reqs then Fate(s.st, s.reqs[q].pc, past) else past == NOTHING
  }

  lemma FateStable(st: Stores, st': Stores, pc: Pc, past: Past, actor: Option<Id>)
    requires Evolve(st, st', actor) && Fate(st, pc, past)
    ensures Fate(st', pc, past)
  {
    if pc.Reread? && past.booked { SettledStable(st, st', pc.row, actor); }
  }

  lemma StepFate(s: State, step: Step, q: Id, past: Past)
    requires Enabled(s, step) && FateOk(s, q, past) && Inv(s)
    ensures FateOk(Apply(s, step), q, Recall(past, s, step, q))
  {
    hide StoreInv, Evolve, Local, MoveAny, ChoiceOk, Fits, KeyTaken;
    var s' := Apply(s, step);
    StepInv(s, step);
    if step.Call? && step.q == q {
      CallFate(s, q, step.ch, past);
    } else if q in s.reqs && s'.reqs[q] == s.reqs[q] {
      FateStable(s.st, s'.st, s.reqs[q].pc, past, ActorOf(step));
    }
  }

  lemma {:induction false} RunFate(s: State, tr: seq<Step>, q: Id, past: Past)
    requires Run(s, tr) && FateOk(s, q, past) && Inv(s)
    ensures FateOk(Exec(s, tr), q, RecallAll(past, s, tr, q))
    decreases |tr|
  {
    hide Inv, Enabled, Apply, FateOk, Recall;
    if tr != [] {
      StepFate(s, tr[0], q, past);
      StepInv(s, tr[0]);
      RunFate(Apply(s, tr[0]), tr[1..], q, Recall(past, s, tr[0], q));
    }
  }

  // ---- What an error means ------------------------------------------------------------------------

  /** What a call of the request that found the stores as st, and was answered as it was, shows: a
      CONFIRMED row, not the hold of the request, carries its key; a call failed, or there is no such
      row; a call failed. */
  ghost predicate Reason(st: Stores, kind: Kind, ch: Choice, res: Result) {
    match res
    case Conflict =>
      && Confirms(kind) && kind.key != ""
      && exists x :: x in st.rows && st.rows[x].status.Confirmed? && st.rows[x].key == Some(kind.key)
                     && (kind.PromoteReq? ==> x != kind.row)
    case NotFound => ch.reply != Ok || ((kind.PromoteReq? || kind.CancelReq?) && kind.row !in st.rows)
    case Internal => ch.reply != Ok
    case _ => true
  }

  ghost predicate ShowsNow(s: State, step: Step, q: Id, res: Result) {
    step.Call? && step.q == q && q in s.reqs && Reason(s.st, s.reqs[q].kind, step.ch, res)
  }

  /** Some call of q in the run shows the reason. */
  ghost predicate ShownIn(s: State, tr: seq<Step>, q: Id, res: Result)
    requires Run(s, tr)
    decreases |tr|
  {
    tr != [] && (ShowsNow(s, tr[0], q, res) || ShownIn(Apply(s, tr[0]), tr[1..], q, res))
  }

  /** The request is bound to answer res, or will if its re-read finds the row HELD. */
  predicate HeadsFor(pc: Pc, res: Result) {
    match pc
    case Done(r) => r == res
    case RelBay(_, _, r) => r == res
    case RelTech(_, r) => r == res
    case Reread(_, _, _, unique) => unique && res == Conflict
    case _ => false
  }

  lemma HeadsOff(st: Stores, q: Id, kind: Kind, pc: Pc, ch: Choice, res: Result)
    requires Active(pc) && Fits(kind, pc) && ChoiceOk(st, kind, pc, ch)
    requires res.Conflict? || res.NotFound? || res.Internal?
    requires !HeadsFor(pc, res) && HeadsFor(MoveAny(st, q, kind, pc, ch).pc, res) && PcMeans(st, q, kind, pc)
    ensures Reason(st, kind, ch, res)
  {
    hide MoveReserve, MovePromote, MoveRelease, MoveHold, MoveCancel, MoveBook, MoveSweep;
    hide PcMeans, Reason, ChoiceOk;
    if pc.Lookup? || pc.Insert? { BookHeads(st, q, kind, pc, ch, res); }
    else if Promotes(pc) { PromoteHeads(st, q, kind, pc, ch, res); }
    else if pc.Load? || pc.KeyCheck? { HoldHeads(st, q, kind, pc, ch, res); }
    else { OtherHeads(st, q, kind, pc, ch, res); }
  }

  lemma BookHeads(st: Stores, q: Id, kind: Kind, pc: Pc, ch: Choice, res: Result)
    requires (pc.Lookup? || pc.Insert?) && Fits(kind, pc) && PcMeans(st, q, kind, pc)
    requires !HeadsFor(pc, res) && HeadsFor(MoveBook(st, q, kind, pc, ch).pc, res) && !res.Replayed? && !res.Created?
    ensures Reason(st, kind, ch, res)
  {
    hide InsertRow, DirectPrint;
  }

  lemma PromoteHeads(st: Stores, q: Id, kind: Kind, pc: Pc, ch: Choice, res: Result)
    requires Promotes(pc) && Confirms(kind) && PcMeans(st, q, kind, pc)
    requires !HeadsFor(pc, res) && HeadsFor(MovePromote(st, kind, pc, ch).pc, res)
    ensures Reason(st, kind, ch, res)
  {
    hide ConfirmOcc, PrintOf, Asked;
  }

  lemma HoldHeads(st: Stores, q: Id, kind: Kind, pc: Pc, ch: Choice, res: Result)
    requires kind.PromoteReq? && (pc.Load? || pc.KeyCheck?) && PcMeans(st, q, kind, pc)
    requires res.Conflict? || res.NotFound? || res.Internal?
    requires HeadsFor(MoveHold(st, kind, pc, ch).pc, res)
    ensures Reason(st, kind, ch, res)
  {
  }

  lemma OtherHeads(st: Stores, q: Id, kind: Kind, pc: Pc, ch: Choice, res: Result)
    requires Fits(kind, pc) && ChoiceOk(st, kind, pc, ch)
    requires pc.Pick? || pc.Put? || pc.Reaping? || pc.RelBay? || pc.RelTech? || Cancels(pc) || Sweeps(pc)
    requires res.Conflict? || res.NotFound? || res.Internal?
    requires !HeadsFor(pc, res) && HeadsFor(MoveAny(st, q, kind, pc, ch).pc, res)
    ensures Reason(st, kind, ch, res)
  {
    hide MoveSweep, MoveBook, MovePromote, MoveHold, ReleaseOpt;
    hide InsertOcc, ReleaseOcc, CancelRows, ReapOccs;
    if Sweeps(pc) {
      QuietSweep(st, pc, ch);
      SweepAnswers(st, pc, ch);
    }
  }

  ghost predicate Bound(s: State, q: Id, res: Result, shown: bool) {
    q in s.reqs && HeadsFor(s.reqs[q].pc, res) ==> shown
  }

  lemma StepShows(s: State, step: Step, q: Id, res: Result, shown: bool)
    requires Enabled(s, step) && Bound(s, q, res, shown) && Inv(s) && AllMean(s)
    requires res.Conflict? || res.NotFound? || res.Internal?
    ensures Bound(Apply(s, step), q, res, shown || ShowsNow(s, step, q, res))
  {
    hide StoreInv, Local, MoveAny, ChoiceOk, Fits, Reason, PcMeans;
    if step.Call? && step.q == q && HeadsFor(Apply(s, step).reqs[q].pc, res) && !HeadsFor(s.reqs[q].pc, res) {
      HeadsOff(s.st, q, s.reqs[q].kind, s.reqs[q].pc, step.ch, res);
    }
  }

  lemma {:induction false} RunShows(s: State, tr: seq<Step>, q: Id, res: Result, shown: bool)
    requires Run(s, tr) && Bound(s, q, res, shown) && Inv(s) && AllMean(s)
    requires res.Conflict? || res.NotFound? || res.Internal?
    ensures Bound(Exec(s, tr), q, res, shown || ShownIn(s, tr, q, res))
    decreases |tr|
  {
    hide Inv, Enabled, Apply, Bound, ShowsNow, AllMean;
    if tr != [] {
      StepShows(s, tr[0], q, res, shown);
      StepInv(s, tr[0]);
      StepMeans(s, tr[0]);
      RunShows(Apply(s, tr[0]), tr[1..], q, res, shown || ShowsNow(s, tr[0], q, res));
    }
  }

  // ---- Every answer explained ---------------------------------------------------------------------

  /** Operation number k of the run books row r, and q was underway. */
  ghost predicate BookedAt(tr: seq<Step>, k: int, q: Id, r: Id)
    requires Run(INIT, tr)
  {
    && 0 <= k < |tr| && k < |Ops(INIT, tr)| && Ops(INIT, tr)[k].Book? && Ops(INIT, tr)[k].row == r
    && Run(INIT, tr[..k]) && Underway(Exec(INIT, tr[..k]), q)
  }

  /** Row r is off the calendar, now and in every later state. */
  ghost predicate OffForGood(s: State, r: Id) {
    forall more | Run(s, more) :: r !in View(Exec(s, more).st)
  }

  /** An answer and the operations on the calendar. */
  ghost predicate Explained(tr: seq<Step>, q: Id, res: Result)
    requires Run(INIT, tr)
  {
    var past := RecallAll(NOTHING, INIT, tr, q);
    && (res.Booked? ==> exists k :: BookedAt(tr, k, q, res.row))
    && (res.Replayed? ==> SeenIn(INIT, tr, q, res.row))
    && (res.CancelDone? ==> OffForGood(Exec(INIT, tr), res.row))
    && (res.Conflict? || res.NotFound? || res.Internal? ==> ShownIn(INIT, tr, q, res))
    && (past.booked ==> (!Good(res) <==> past.unread || (past.lost && past.turned)))
  }

  lemma {:induction false} OpsLength(s: State, tr: seq<Step>)
    requires Run(s, tr)
    ensures |Ops(s, tr)| == |tr|
    decreases |tr|
  {
    hide Enabled, Apply, StepOp;
    if tr != [] { OpsLength(Apply(s, tr[0]), tr[1..]); }
  }

  /** The booking step has a place in the run. */
  lemma {:induction false} BookedPlace(s: State, tr: seq<Step>, q: Id, r: Id) returns (k: nat)
    requires Run(s, tr) && BookedIn(s, tr, q, r)
    ensures k < |tr| && k < |Ops(s, tr)| && Ops(s, tr)[k].Book? && Ops(s, tr)[k].row == r
    ensures Run(s, tr[..k]) && Underway(Exec(s, tr[..k]), q)
    decreases |tr|
  {
    hide Enabled, Apply, StepOp, Underway;
    OpsLength(s, tr);
    if BooksNow(s, tr[0], q, r) {
      k := 0;
    } else {
      var j := BookedPlace(Apply(s, tr[0]), tr[1..], q, r);
      k := j + 1;
      assert tr[..k][1..] == tr[1..][..j];
    }
  }

  lemma CancelledOffForGood(s: State, r: Id)
    requires Reachable(s) && IsCancelled(s.st, r)
    ensures OffForGood(s, r)
  {
    forall more | Run(s, more)
      ensures r !in View(Exec(s, more).st)
    {
      Safety.FollowsLater(s, Exec(s, more));
      assert RowEvolves(s.st, Exec(s, more).st, r);
    }
  }

  /** Under any faults: a confirm that answers "booked" has the booking of its row among the
      operations of the calendar, at a moment between its beginning and its answer; a replay saw
      its row on the calendar at such a moment; a cancel leaves its row off the calendar for good; a
      conflict had another CONFIRMED row with the key when one of the request's calls looked, a "not
      found" had a call that failed or no such row, an internal error a call that failed; and a
      confirm whose own update took effect answers with an error if and only if its last read failed,
      or the update's answer was lost and the re-read failed or found the row CANCELLED. */
  lemma EveryAnswerExplained(tr: seq<Step>, q: Id)
    requires Run(INIT, tr) && q in Exec(INIT, tr).reqs && Exec(INIT, tr).reqs[q].pc.Done?
    ensures Explained(tr, q, Exec(INIT, tr).reqs[q].pc.res)
  {
    hide Means, SeenIn, ShownIn, BookedIn, BookedAt, OffForGood, Underway, View;
    var s := Exec(INIT, tr);
    var res := s.reqs[q].pc.res;
    Begins(q);
    RunFate(INIT, tr, q, NOTHING);
    if res.Booked? {
      RunKnows(INIT, tr, q, res.row, false);
      var k := BookedPlace(INIT, tr, q, res.row);
      PlaceIs(tr, k, q, res.row);
    } else if res.Replayed? {
      RunSees(INIT, tr, q, res.row, false);
    } else if res.CancelDone? {
      AnswersMean(tr, q);
      MeansCancelled(s.st, q, s.reqs[q].kind, res);
      assert Reachable(s);
      CancelledOffForGood(s, res.row);
    } else if res.Conflict? || res.NotFound? || res.Internal? {
      RunShows(INIT, tr, q, res, false);
    }
  }

  lemma Begins(q: Id)
    ensures Inv(INIT) && AllMean(INIT) && FateOk(INIT, q, NOTHING) && forall res :: Bound(INIT, q, res, false)
    ensures forall r :: KnowsBooked(INIT, q, r, false) && KnowsSeen(INIT, q, r, false)
  {
  }

  lemma PlaceIs(tr: seq<Step>, k: nat, q: Id, r: Id)
    requires Run(INIT, tr) && k < |tr| && k < |Ops(INIT, tr)| && Ops(INIT, tr)[k].Book? && Ops(INIT, tr)[k].row == r
    requires Run(INIT, tr[..k]) && Underway(Exec(INIT, tr[..k]), q)
    ensures BookedAt(tr, k, q, r)
  {
  }

  lemma MeansCancelled(st: Stores, q: Id, kind: Kind, res: Result)
    requires Means(st, q, kind, res) && res.CancelDone?
    ensures IsCancelled(st, res.row)
  {
  }

  // ---- Refinement ---------------------------------------------------------------------------------

  /** Request q has been answered, as the calendar and its row bear out. */
  ghost predicate AnswerHolds(tr: seq<Step>, q: Id)
    requires Run(INIT, tr)
  {
    var s := Exec(INIT, tr);
    q in s.reqs && s.reqs[q].pc.Done? ==>
      && Means(s.st, q, s.reqs[q].kind, s.reqs[q].pc.res)
      && Explained(tr, q, s.reqs[q].pc.res)
  }

  /** Refinement. Over any guarded run, whatever fails, the three stores together behave as one
      calendar on which bookings and cancellations happen atomically, at the promotion and at
      the cancelling update; and every answer is one this calendar could have given. */
  lemma GuardedRefinesCalendar(tr: seq<Step>)
    requires Run(INIT, tr) && GuardedRun(INIT, tr)
    ensures LegalRun(map[], Ops(INIT, tr))
    ensures PerformAll(map[], Ops(INIT, tr)) == View(Exec(INIT, tr).st)
    ensures forall q :: AnswerHolds(tr, q)
  {
    assert View(INIT.st) == map[];
    hide Means, Explained;
    GuardedRunIsExact(INIT, tr);
    RefinesFrom(INIT, tr);
    forall q
      ensures AnswerHolds(tr, q)
    {
      if q in Exec(INIT, tr).reqs && Exec(INIT, tr).reqs[q].pc.Done? {
        AnswersMean(tr, q);
        EveryAnswerExplained(tr, q);
      }
    }
  }

  /** So do runs in which every row meets one of the two linking hypotheses. */
  lemma RefinesCalendar(tr: seq<Step>)
    requires Run(INIT, tr)
    requires forall r :: GenuineRun(INIT, tr, r) || AloneRun(INIT, tr, r)
    ensures GuardedRun(INIT, tr)
    ensures LegalRun(map[], Ops(INIT, tr))
    ensures PerformAll(map[], Ops(INIT, tr)) == View(Exec(INIT, tr).st)
    ensures forall q :: AnswerHolds(tr, q)
  {
    hide AnswerHolds;
    HypothesesGuard(tr);
    GuardedRefinesCalendar(tr);
  }
}
