/** Every complete sweep that no other request disturbs is a pass of Recovery, however the clock
    and the reapers go on around its calls; so every run made of ticks, reaps and enough such
    sweeps ends clean. */
module Convergence {
  import opened Wrappers
  import opened Allocator
  import opened Stores
  import opened Protocol
  import opened Invariant
  import opened Recovery

  /** A call of sweeper q that is answered; its queries return full batches. */
  ghost predicate GoodCall(s: State, step: Step, q: Id) {
    && step.Call? && step.q == q && q in s.reqs && s.reqs[q].kind == SweepReq && step.ch.reply == Ok
    && (s.reqs[q].pc.SweepBatch? ==> FullBatch(s.st, step.ch.rows))
    && (s.reqs[q].pc.SweepList? ==> FullList(s.st, step.ch.rows))
  }

  /** The clock or a reaper. */
  predicate Idle(step: Step) {
    step.Tick? || step.ReapTick?
  }

  ghost predicate GoodCalls(s: State, tr: seq<Step>, q: Id)
    requires Run(s, tr)
    decreases |tr|
  {
    tr == [] || ((Idle(tr[0]) || GoodCall(s, tr[0], q)) && GoodCalls(Apply(s, tr[0]), tr[1..], q))
  }

  /** One sweepOnce from its start to its end, with ticks and reaps anywhere in between. */
  ghost predicate FullSweep(s: State, tr: seq<Step>, q: Id) {
    && Run(s, tr) && tr != [] && tr[0] == Begin(q, SweepReq)
    && GoodCalls(Apply(s, tr[0]), tr[1..], q)
    && q in Exec(s, tr).reqs && Exec(s, tr).reqs[q].pc == Done(Swept)
  }

  // ---- What is left of a list ---------------------------------------------------------------

  predicate HasIds(it: Item) {
    it.tech.Some? || it.bay.Some?
  }

  /** In the middle of a list, with every call so far answered. */
  predicate Listing(pc: Pc) {
    && (pc.SweepBay? || pc.SweepTech? || pc.SweepClear?) && pc.todo != []
    && (pc.SweepBay? ==> HasIds(pc.todo[0])) && (pc.SweepTech? ==> pc.bayOk)
  }

  /** The stores once the list in hand has been worked off. */
  function After(st: Stores, pc: Pc): Stores {
    if !Listing(pc) then st else
      var rest, oks := pc.todo[1..], AllOk(|pc.todo| - 1);
      match pc
      case SweepBay(todo, _) => ReleaseAll(st, todo, AllOk(|todo|))
      case SweepTech(todo, _, _) => ReleaseAll(ClearRow(ReleaseOpt(st, todo[0].tech, Ok), todo[0].row), rest, oks)
      case SweepClear(todo, _) => ReleaseAll(ClearRow(st, todo[0].row), rest, oks)
  }

  /** Where a sweeper at `pc` may be heading: `more` while the first list is in hand. */
  predicate Heading(pc: Pc, more: bool) {
    (Listing(pc) && pc.more == more) || pc == (if more then SweepList else Done(Swept))
  }

  lemma {:induction false} AfterNextItem(st: Stores, todo: seq<Item>, more: bool)
    ensures After(st, NextItem(todo, more)) == ReleaseAll(st, todo, AllOk(|todo|))
    ensures Heading(NextItem(todo, more), more)
    decreases |todo|
  {
    if todo != [] {
      assert AllOk(|todo|)[1..] == AllOk(|todo[1..]|);
      AfterNextItem(st, todo[1..], more);
    }
  }

  /** Inside a list an answered call changes nothing about where the list ends. */
  lemma ListCall(st: Stores, pc: Pc, ch: Choice, more: bool)
    requires Listing(pc) && pc.more == more && ch.reply == Ok
    ensures var m := MoveSweep(st, pc, ch);
            After(m.st, m.pc) == After(st, pc) && Heading(m.pc, more)
  {
    var todo := pc.todo;
    assert AllOk(|todo|)[1..] == AllOk(|todo| - 1);
    hide ClearRow, ReleaseOcc;
    match pc {
      case SweepBay(_, _) => ItemUnfolds(st, todo);
      case SweepTech(_, _, _) =>
      case SweepClear(_, _) => AfterNextItem(ClearRow(st, todo[0].row), todo[1..], more);
    }
  }

  /** An item with ids: bay, technician, clear. */
  lemma ItemUnfolds(st: Stores, todo: seq<Item>)
    requires todo != [] && HasIds(todo[0])
    ensures ReleaseAll(st, todo, AllOk(|todo|)) ==
            ReleaseAll(ClearRow(ReleaseOpt(ReleaseOpt(st, todo[0].bay, Ok), todo[0].tech, Ok), todo[0].row),
                       todo[1..], AllOk(|todo| - 1))
  {
    assert AllOk(|todo|)[1..] == AllOk(|todo| - 1);
  }

  // ---- The clock and the reapers --------------------------------------------------------------

  /** st' is st but for the clock, and for expired holds that reapers have deleted. */
  ghost predicate Ages(st: Stores, st': Stores) {
    && st'.rows == st.rows && st'.birth == st.birth && st'.claims == st.claims && st.now <= st'.now
    && (forall id | Live(st'.occs, id) :: Live(st.occs, id) && st'.occs[id] == st.occs[id])
    && (forall id | Live(st.occs, id) && !Live(st'.occs, id) :: Expired(st.occs[id], st'.now))
  }

  lemma AgesTrans(a: Stores, b: Stores, c: Stores)
    requires Ages(a, b) && Ages(b, c)
    ensures Ages(a, c)
  {
    forall id | Live(a.occs, id) && !Live(c.occs, id)
      ensures Expired(a.occs[id], c.now)
    {
      if Live(b.occs, id) { assert Expired(b.occs[id], c.now); }
    }
  }

  lemma IdleAges(s: State, step: Step)
    requires Idle(step) && Enabled(s, step)
    ensures Ages(s.st, Apply(s, step).st) && Apply(s, step).reqs == s.reqs
  {
  }

  lemma AgesRelease(st: Stores, st': Stores, id: Option<OccId>)
    requires Ages(st, st')
    ensures Ages(ReleaseOpt(st, id, Ok), ReleaseOpt(st', id, Ok))
  {
  }

  lemma AgesClear(st: Stores, st': Stores, r: Id)
    requires Ages(st, st')
    ensures Ages(ClearRow(st, r), ClearRow(st', r))
  {
  }

  lemma AgesCancel(st: Stores, st': Stores, batch: set<Id>)
    requires Ages(st, st')
    ensures Ages(CancelRows(st, batch), CancelRows(st', batch))
  {
  }

  lemma {:induction false} AgesReleaseAll(st: Stores, st': Stores, items: seq<Item>)
    requires Ages(st, st')
    ensures Ages(ReleaseAll(st, items, AllOk(|items|)), ReleaseAll(st', items, AllOk(|items|)))
    decreases |items|
  {
    hide Ages, ReleaseOpt, ClearRow;
    if items != [] {
      var it := items[0];
      AgesRelease(st, st', it.bay);
      AgesRelease(ReleaseOpt(st, it.bay, Ok), ReleaseOpt(st', it.bay, Ok), it.tech);
      AgesClear(ReleaseOpt(ReleaseOpt(st, it.bay, Ok), it.tech, Ok),
          ReleaseOpt(ReleaseOpt(st', it.bay, Ok), it.tech, Ok), it.row);
      assert AllOk(|items|)[0] == Outcome(Ok, Ok, Ok) && AllOk(|items|)[1..] == AllOk(|items[1..]|);
      AgesReleaseAll(ReleaseItem(st, it, Outcome(Ok, Ok, Ok)), ReleaseItem(st', it, Outcome(Ok, Ok, Ok)), items[1..]);
    }
  }

  /** The list in hand ends the same way. */
  lemma AgesAfter(st: Stores, st': Stores, pc: Pc)
    requires Ages(st, st')
    ensures Ages(After(st, pc), After(st', pc))
  {
    hide Ages, ReleaseAll, ReleaseOpt, ClearRow;
    if Listing(pc) {
      var it, rest := pc.todo[0], pc.todo[1..];
      match pc {
        case SweepBay(todo, _) => AgesReleaseAll(st, st', todo);
        case SweepTech(todo, _, _) =>
          AgesRelease(st, st', it.tech);
          AgesClear(ReleaseOpt(st, it.tech, Ok), ReleaseOpt(st', it.tech, Ok), it.row);
          AgesReleaseAll(ClearRow(ReleaseOpt(st, it.tech, Ok), it.row),
              ClearRow(ReleaseOpt(st', it.tech, Ok), it.row), rest);
        case SweepClear(todo, _) =>
          AgesClear(st, st', it.row);
          AgesReleaseAll(ClearRow(st, it.row), ClearRow(st', it.row), rest);
      }
    }
  }

  lemma AgesItems(st: Stores, st': Stores, rows: seq<Id>)
    requires Ages(st, st') && forall r | r in rows :: r in st.rows
    ensures (forall r | r in rows :: r in st'.rows) && Items(st', rows) == Items(st, rows)
  {
    assert forall i | 0 <= i < |rows| :: rows[i] in rows;
  }

  lemma AgesSecondHalf(st: Stores, st': Stores, pending: seq<Id>)
    requires Ages(st, st') && FullList(st, pending)
    ensures FullList(st', pending) && Ages(SecondHalf(st, pending), SecondHalf(st', pending))
  {
    AgesItems(st, st', pending);
    AgesReleaseAll(st, st', Items(st, pending));
    assert ToRelease(st') == ToRelease(st);
  }

  lemma AgesFirstHalf(st: Stores, st': Stores, batch: seq<Id>)
    requires Ages(st, st') && st'.now == st.now && FullBatch(st', batch)
    ensures FullBatch(st, batch) && Ages(FirstHalf(st, batch), FirstHalf(st', batch))
  {
    assert ToSweep(st) == ToSweep(st');
    var c, c' := CancelRows(st, set r | r in batch), CancelRows(st', set r | r in batch);
    AgesCancel(st, st', set r | r in batch);
    AgesItems(c, c', batch);
    hide Ages;
    AgesReleaseAll(c, c', Items(c, batch));
  }

  /** A pass after a while is a pass, but for the clock and the reaped. */
  lemma PassLater(st: Stores, st1: Stores, t1: Stores) returns (t: Stores)
    requires Ages(st, st1) && Pass(st1, t1)
    ensures Pass(st, t) && Ages(t, t1)
  {
    hide FirstHalf, SecondHalf;
    var at, batch, pending, end :| PassWith(st1, at, batch, pending, end, t1);
    AgesFirstHalf(Advance(st, at), Advance(st1, at), batch);
    var mid, mid1 := FirstHalf(Advance(st, at), batch), FirstHalf(Advance(st1, at), batch);
    FullListBack(mid, mid1, pending);
    AgesSecondHalf(mid, mid1, pending);
    t := Advance(SecondHalf(mid, pending), end);
    HalvesKeepNow(Advance(st1, at), batch, pending);
    AgesAdvance(SecondHalf(mid, pending), SecondHalf(mid1, pending), end);
    assert PassWith(st, at, batch, pending, end, t);
  }

  lemma AgesAdvance(st: Stores, st': Stores, to: int)
    requires Ages(st, st') && st'.now <= to
    ensures Ages(Advance(st, to), Advance(st', to))
  {
  }

  lemma HalvesKeepNow(st: Stores, batch: seq<Id>, pending: seq<Id>)
    requires FullBatch(st, batch) && FullList(FirstHalf(st, batch), pending)
    ensures SecondHalf(FirstHalf(st, batch), pending).now == st.now
  {
    var c, mid := CancelRows(st, set r | r in batch), FirstHalf(st, batch);
    NowKept(c, Items(c, batch));
    NowKept(mid, Items(mid, pending));
  }

  lemma FullListBack(st: Stores, st': Stores, pending: seq<Id>)
    requires Ages(st, st') && FullList(st', pending)
    ensures FullList(st, pending)
  {
    assert ToRelease(st') == ToRelease(st);
  }

  // ---- A sweep is a pass --------------------------------------------------------------------

  /** A pass, but for the clock and the reaped. */
  ghost predicate AgedPass(st: Stores, st': Stores) {
    exists t :: Pass(st, t) && Ages(t, st')
  }

  ghost predicate ListLeft(st: Stores, pending: seq<Id>, st': Stores) {
    FullList(st, pending) && Ages(SecondHalf(st, pending), st')
  }

  /** What a sweeper at `pc` still has to do takes st to st'. */
  ghost predicate Completes(st: Stores, pc: Pc, st': Stores) {
    || (pc.SweepBatch? && AgedPass(st, st'))
    || (Heading(pc, true) && exists pending :: ListLeft(After(st, pc), pending, st'))
    || (Heading(pc, false) && Ages(After(st, pc), st'))
  }

  lemma {:induction false} NowKept(st: Stores, items: seq<Item>)
    ensures ReleaseAll(st, items, AllOk(|items|)).now == st.now
    decreases |items|
  {
    if items != [] {
      assert AllOk(|items|)[1..] == AllOk(|items[1..]|);
      NowKept(ReleaseItem(st, items[0], Outcome(Ok, Ok, Ok)), items[1..]);
    }
  }

  lemma BatchCompletes(st: Stores, ch: Choice, st': Stores)
    requires MoveOkSweep(st, SweepBatch, ch) && ch.reply == Ok && FullBatch(st, ch.rows)
    requires var m := MoveSweep(st, SweepBatch, ch); Heading(m.pc, true) && Completes(m.st, m.pc, st')
    ensures Completes(st, SweepBatch, st')
  {
    hide ReleaseAll, NextItem, FullBatch, Ages;
    var m := MoveSweep(st, SweepBatch, ch);
    AfterNextItem(m.st, Items(m.st, ch.rows), true);
    var mid := FirstHalf(st, ch.rows);
    assert After(m.st, m.pc) == mid;
    var pending :| ListLeft(mid, pending, st');
    NowKept(m.st, Items(m.st, ch.rows));
    NowKept(mid, Items(mid, pending));
    assert Advance(st, st.now) == st && Advance(SecondHalf(mid, pending), st.now) == SecondHalf(mid, pending);
    assert PassWith(st, st.now, ch.rows, pending, st.now, SecondHalf(mid, pending));
  }

  lemma ListCompletes(st: Stores, ch: Choice, st': Stores)
    requires MoveOkSweep(st, SweepList, ch) && ch.reply == Ok && FullList(st, ch.rows)
    requires var m := MoveSweep(st, SweepList, ch); Completes(m.st, m.pc, st')
    ensures Completes(st, SweepList, st')
  {
    hide ReleaseAll, NextItem, Ages;
    var m := MoveSweep(st, SweepList, ch);
    AfterNextItem(st, Items(st, ch.rows), false);
    assert After(st, SweepList) == st && m.st == st;
    assert ListLeft(After(st, SweepList), ch.rows, st');
  }

  /** One answered call of a sweeper, seen from the end of the sweep. */
  lemma CallCompletes(st: Stores, pc: Pc, ch: Choice, st': Stores)
    requires Sweeps(pc) && MoveOkSweep(st, pc, ch) && ch.reply == Ok
    requires pc.SweepBatch? ==> FullBatch(st, ch.rows)
    requires pc.SweepList? ==> FullList(st, ch.rows)
    requires pc.SweepBatch? || pc.SweepList? || Listing(pc)
    requires var m := MoveSweep(st, pc, ch); Completes(m.st, m.pc, st')
    ensures Completes(st, pc, st')
  {
    hide MoveSweep, FullBatch, FullList, After, AgedPass, SecondHalf, Ages, ListLeft;
    if pc.SweepBatch? {
      CallHeads(st, pc, ch);
      BatchCompletes(st, ch, st');
    } else if pc.SweepList? {
      ListCompletes(st, ch, st');
    } else {
      ListCall(st, pc, ch, pc.more);
    }
  }

  /** Waiting changes nothing about where a sweep is heading. */
  lemma IdleCompletes(st: Stores, st1: Stores, pc: Pc, st': Stores)
    requires Ages(st, st1) && Completes(st1, pc, st')
    ensures Completes(st, pc, st')
  {
    hide Ages, After, SecondHalf, Pass, Listing;
    AgesAfter(st, st1, pc);
    if pc.SweepBatch? && AgedPass(st1, st') {
      var t1 :| Pass(st1, t1) && Ages(t1, st');
      var t := PassLater(st, st1, t1);
      AgesTrans(t, t1, st');
    } else if Heading(pc, true) && exists pending :: ListLeft(After(st1, pc), pending, st') {
      var pending :| ListLeft(After(st1, pc), pending, st');
      FullListBack(After(st, pc), After(st1, pc), pending);
      AgesSecondHalf(After(st, pc), After(st1, pc), pending);
      AgesTrans(SecondHalf(After(st, pc), pending), SecondHalf(After(st1, pc), pending), st');
      assert ListLeft(After(st, pc), pending, st');
    } else {
      AgesTrans(After(st, pc), After(st1, pc), st');
    }
  }

  /** Answered calls stay on the way. */
  lemma CallHeads(st: Stores, pc: Pc, ch: Choice)
    requires Sweeps(pc) && MoveOkSweep(st, pc, ch) && ch.reply == Ok
    requires pc.SweepBatch? || pc.SweepList? || Listing(pc)
    ensures var pc' := MoveSweep(st, pc, ch).pc;
            Heading(pc', pc.SweepBatch? || (!pc.SweepList? && pc.more))
  {
    hide Items, NextItem, After;
    if pc.SweepBatch? {
      AfterNextItem(st, Items(MoveSweep(st, pc, ch).st, ch.rows), true);
    } else if pc.SweepList? {
      AfterNextItem(st, Items(st, ch.rows), false);
    } else {
      ListCall(st, pc, ch, pc.more);
    }
  }

  lemma {:induction false} GoodCallsComplete(s: State, tr: seq<Step>, q: Id)
    requires Run(s, tr) && GoodCalls(s, tr, q) && q in s.reqs
    requires var pc := s.reqs[q].pc; pc.SweepBatch? || Heading(pc, true) || Heading(pc, false)
    requires q in Exec(s, tr).reqs && Exec(s, tr).reqs[q].pc == Done(Swept)
    ensures Completes(s.st, s.reqs[q].pc, Exec(s, tr).st)
    decreases |tr|
  {
    hide MoveSweep, FullBatch, FullList, After, SecondHalf, Completes, Listing, Ages;
    hide MoveReserve, MoveBook, MovePromote, MoveRelease, MoveHold, MoveCancel;
    if tr == [] {
      AtEnd(s.st);
    } else if Idle(tr[0]) {
      IdleAges(s, tr[0]);
      GoodCallsComplete(Apply(s, tr[0]), tr[1..], q);
      IdleCompletes(s.st, Apply(s, tr[0]).st, s.reqs[q].pc, Exec(s, tr).st);
    } else {
      var pc, ch := s.reqs[q].pc, tr[0].ch;
      assert GoodCall(s, tr[0], q);
      CallHeads(s.st, pc, ch);
      GoodCallsComplete(Apply(s, tr[0]), tr[1..], q);
      CallCompletes(s.st, pc, ch, Exec(s, tr).st);
    }
  }

  lemma AtEnd(st: Stores)
    ensures Completes(st, Done(Swept), st)
  {
  }

  /** A complete, fault-free sweep with full batches is a pass, but for the clock and the reaped. */
  lemma FullSweepIsPass(s: State, tr: seq<Step>, q: Id)
    requires FullSweep(s, tr, q)
    ensures AgedPass(s.st, Exec(s, tr).st)
  {
    hide Completes, AgedPass, GoodCalls;
    GoodCallsComplete(Apply(s, tr[0]), tr[1..], q);
    BeginCompletes(s.st, Exec(s, tr).st);
  }

  lemma BeginCompletes(st: Stores, st': Stores)
    requires Completes(st, SweepBatch, st')
    ensures AgedPass(st, st')
  {
  }

  // ---- Nothing stays HELD ---------------------------------------------------------------------

  ghost predicate HeldExpired(st: Stores) {
    forall id | id in st.occs && st.occs[id].status.OccHeld? :: Expired(st.occs[id], st.now)
  }

  ghost predicate NoHeldOn(st: Stores, side: Side) {
    forall id | id in st.occs && id.side == side :: !st.occs[id].status.OccHeld?
  }

  /** The clock, a reaper or a sweeper. */
  ghost predicate Janitor(s: State, step: Step)
    requires Enabled(s, step)
  {
    || Idle(step) || (step.Begin? && step.kind == SweepReq)
    || (step.Call? && s.reqs[step.q].kind == SweepReq)
  }

  ghost predicate JanitorRun(s: State, tr: seq<Step>)
    requires Run(s, tr)
    decreases |tr|
  {
    tr == [] || (Janitor(s, tr[0]) && JanitorRun(Apply(s, tr[0]), tr[1..]))
  }

  lemma SweepHolds(st: Stores, pc: Pc, ch: Choice)
    requires Sweeps(pc) && MoveOkSweep(st, pc, ch)
    ensures var st' := MoveSweep(st, pc, ch).st;
            && st'.now == st.now
            && forall id | id in st'.occs && st'.occs[id].status.OccHeld? :: id in st.occs
                && st.occs[id] == st'.occs[id]
  {
    hide Items, NextItem;
  }

  lemma JanitorStep(s: State, step: Step, side: Side)
    requires Enabled(s, step) && Janitor(s, step) && HeldExpired(s.st)
    ensures HeldExpired(Apply(s, step).st)
    ensures NoHeldOn(s.st, side) || step == ReapTick(side) ==> NoHeldOn(Apply(s, step).st, side)
  {
    hide MoveSweep, ChoiceOk, MoveReserve, MoveBook, MovePromote, MoveRelease, MoveHold, MoveCancel;
    if step.Call? {
      var pc := s.reqs[step.q].pc;
      assert ChoiceIsOk(s.st, pc, step.ch) by { SweepChoice(s, step.q, step.ch); }
      SweepHolds(s.st, pc, step.ch);
    }
  }

  predicate ChoiceIsOk(st: Stores, pc: Pc, ch: Choice) {
    Sweeps(pc) && MoveOkSweep(st, pc, ch)
  }

  lemma SweepChoice(s: State, q: Id, ch: Choice)
    requires Enabled(s, Call(q, ch)) && s.reqs[q].kind == SweepReq
    ensures ChoiceIsOk(s.st, s.reqs[q].pc, ch)
  {
  }

  lemma {:induction false} NoHeldAfter(s: State, tr: seq<Step>, side: Side)
    requires Run(s, tr) && JanitorRun(s, tr) && HeldExpired(s.st)
    requires NoHeldOn(s.st, side) || ReapTick(side) in tr
    ensures NoHeldOn(Exec(s, tr).st, side)
    decreases |tr|
  {
    hide Enabled, Apply, Janitor, HeldExpired, NoHeldOn;
    if tr != [] {
      JanitorStep(s, tr[0], side);
      NoHeldAfter(Apply(s, tr[0]), tr[1..], side);
    }
  }

  lemma {:induction false} GoodCallsJanitor(s: State, tr: seq<Step>, q: Id)
    requires Run(s, tr) && GoodCalls(s, tr, q)
    ensures JanitorRun(s, tr)
    decreases |tr|
  {
    hide Enabled, Apply, FullBatch, FullList;
    if tr != [] { GoodCallsJanitor(Apply(s, tr[0]), tr[1..], q); }
  }

  lemma {:induction false} JanitorAppend(s: State, a: seq<Step>, b: seq<Step>)
    requires Run(s, a) && JanitorRun(s, a) && Run(Exec(s, a), b) && JanitorRun(Exec(s, a), b)
    ensures Run(s, a + b) && JanitorRun(s, a + b)
    decreases |a|
  {
    hide Enabled, Apply, Janitor;
    if a == [] {
      assert a + b == b;
    } else {
      assert (a + b)[1..] == a[1..] + b;
      JanitorAppend(Apply(s, a[0]), a[1..], b);
    }
  }

  // ---- Convergence of every run -------------------------------------------------------------

  /** `tr` is made of ticks, reaps and n complete sweeps, in any order; ticks and reaps may also
      fall inside the sweeps. */
  ghost predicate CleanUp(s: State, tr: seq<Step>, n: nat)
    requires Run(s, tr)
    decreases |tr|
  {
    || (tr == [] && n == 0)
    || (tr != [] && Idle(tr[0]) && CleanUp(Apply(s, tr[0]), tr[1..], n))
    || (n > 0 && exists k, q :: SweepFirst(s, tr, k, q) && CleanUp(Exec(s, tr[..k]), tr[k..], n - 1))
  }

  ghost predicate SweepFirst(s: State, tr: seq<Step>, k: int, q: Id) {
    0 < k <= |tr| && Run(s, tr[..k]) && Run(Exec(s, tr[..k]), tr[k..]) && FullSweep(s, tr[..k], q)
  }

  lemma RunSplit(s: State, tr: seq<Step>, k: nat)
    requires k <= |tr| && Run(s, tr[..k]) && Run(Exec(s, tr[..k]), tr[k..])
    ensures Run(s, tr) && Exec(s, tr) == Exec(Exec(s, tr[..k]), tr[k..])
  {
    RunAppend(s, tr[..k], tr[k..]);
    assert tr[..k] + tr[k..] == tr;
  }

  lemma AgesWork(st: Stores, st': Stores)
    requires Ages(st, st')
    ensures Work(st') == Work(st) && (RowsElapsed(st) ==> RowsElapsed(st'))
  {
  }

  /** A complete sweep deals with at least fifty rows, or with all that are left. */
  lemma SweepProgress(s: State, tr: seq<Step>, q: Id)
    requires FullSweep(s, tr, q) && RowsElapsed(s.st) && Inv(s)
    ensures var st' := Exec(s, tr).st;
            Inv(Exec(s, tr)) && RowsElapsed(st') && |Work(st')| <= |Work(s.st)| - AtMost50(|Work(s.st)|)
  {
    hide StoreInv, Local, RowsElapsed, Work, Pass, Ages, GoodCalls, Enabled, Apply;
    FullSweepIsPass(s, tr, q);
    var t :| Pass(s.st, t) && Ages(t, Exec(s, tr).st);
    PassProgress(s.st, t);
    AgesWork(t, Exec(s, tr).st);
    RunInv(s, tr);
  }

  lemma {:induction false} CleanUpProgress(s: State, tr: seq<Step>, n: nat)
    requires Run(s, tr) && CleanUp(s, tr, n) && RowsElapsed(s.st) && Inv(s)
    requires |Work(s.st)| <= SWEEP_LIMIT * n
    ensures Inv(Exec(s, tr)) && Work(Exec(s, tr).st) == {} && JanitorRun(s, tr)
    decreases |tr|
  {
    hide Inv, RowsElapsed, Work, Enabled, Apply, FullSweep, Ages;
    if tr == [] && n == 0 {
      NoneLeft(Work(s.st));
    } else if tr != [] && Idle(tr[0]) && CleanUp(Apply(s, tr[0]), tr[1..], n) {
      IdleAges(s, tr[0]);
      StepInv(s, tr[0]);
      AgesWork(s.st, Apply(s, tr[0]).st);
      CleanUpProgress(Apply(s, tr[0]), tr[1..], n);
    } else {
      var k, q :| SweepFirst(s, tr, k, q) && CleanUp(Exec(s, tr[..k]), tr[k..], n - 1);
      SweepProgress(s, tr[..k], q);
      CleanUpProgress(Exec(s, tr[..k]), tr[k..], n - 1);
      RunSplit(s, tr, k);
      FullSweepJanitor(s, tr[..k], q);
      JanitorAppend(s, tr[..k], tr[k..]);
      assert tr[..k] + tr[k..] == tr;
    }
  }

  lemma FullSweepJanitor(s: State, tr: seq<Step>, q: Id)
    requires FullSweep(s, tr, q)
    ensures JanitorRun(s, tr)
  {
    hide Enabled, Apply;
    GoodCallsJanitor(Apply(s, tr[0]), tr[1..], q);
  }

  lemma NoneLeft(rows: set<Id>)
    requires |rows| <= 0
    ensures rows == {}
  {
  }

  lemma ElapsedHolds(st: Stores)
    requires Elapsed(st) && ClaimsOk(st)
    ensures HeldExpired(st)
  {
    forall id | id in st.occs && st.occs[id].status.OccHeld?
      ensures Expired(st.occs[id], st.now)
    {
      assert ClaimOk(st, id);
    }
  }

  /** Recovery converges over every run. From any reachable state in which the clock has passed
      every stored expiry, every run made of ticks, reaps and at least |Work| / 50 complete sweeps,
      in any order and interleaving, ends clean once each allocator has reaped. */
  lemma EveryCleanUpConverges(s: State, tr: seq<Step>, n: nat)
    requires Reachable(s) && Elapsed(s.st) && |Work(s.st)| <= 50 * n
    requires Run(s, tr) && CleanUp(s, tr, n) && ReapTick(Tech) in tr && ReapTick(Bay) in tr
    ensures Clean(Exec(s, tr).st)
  {
    hide Local, Run, Exec, CleanUp, Clean, Work, JanitorRun, Evolve, RowOk, ClaimOk, Exclusive, UniqueKeys;
    ReachableInv(s);
    RowsAllElapsed(s.st);
    ElapsedHolds(s.st);
    CleanUpProgress(s, tr, n);
    NoHeldAfter(s, tr, Tech);
    NoHeldAfter(s, tr, Bay);
    var st := Exec(s, tr).st;
    forall id | id in st.occs
      ensures !st.occs[id].status.OccHeld?
    {
      assert id.side == Tech || id.side == Bay;
    }
    NoWorkIsClean(st);
  }
}
