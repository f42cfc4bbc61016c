/** The converse of Undercut: once a CONFIRMED appointment has lost an occupation, a double booking
    is within reach. Let everything in flight crash and recovery finish; then either somebody is
    CONFIRMED on the lost technician or bay already, or it is free and can be booked again. */
module DoubleBooking {
  import opened Allocator
  import opened Stores
  import opened Protocol
  import opened Invariant
  import opened Linking
  import opened Undercut
  import opened Calendar
  import opened Recovery
  import opened RecoveryRun
  import Counterexample

  /** Two CONFIRMED appointments that share a technician or a bay and overlap. */
  ghost predicate Clashing(st: Stores, x: Id, y: Id) {
    x != y && x in View(st) && y in View(st) && Clash(View(st)[x], View(st)[y])
  }

  // ---- Quiet, and every expiry in the past ----------------------------------------------------

  lemma {:induction false} CrashAll(s: State, busy: set<Id>) returns (tr: seq<Step>)
    requires busy == set q | q in s.reqs && Active(s.reqs[q].pc)
    ensures Run(s, tr) && Exec(s, tr).st == s.st && Quiet(Exec(s, tr))
    decreases |busy|
  {
    hide MoveAny, ChoiceOk, Fits;
    if busy == {} {
      tr := [];
      assert forall q | q in s.reqs :: q !in busy;
    } else {
      var q :| q in busy;
      var s1 := Apply(s, Crash(q));
      var rest := CrashAll(s1, busy - {q});
      tr := [Crash(q)] + rest;
      assert tr[1..] == rest;
    }
  }

  lemma {:induction false} OccsElapse(st: Stores, ids: set<OccId>) returns (to: int)
    ensures st.now <= to && forall id | id in ids && id in st.occs && st.occs[id].expires.Some? ::
        st.occs[id].expires.value <= to
    decreases |ids|
  {
    if ids == {} {
      to := st.now;
    } else {
      var id :| id in ids;
      to := OccsElapse(st, ids - {id});
      if id in st.occs && st.occs[id].expires.Some?
          && to < st.occs[id].expires.value { to := st.occs[id].expires.value; }
    }
  }

  lemma {:induction false} RowsElapse(st: Stores, rows: set<Id>) returns (to: int)
    ensures forall r | r in rows && r in st.rows && st.rows[r].expires.Some? :: st.rows[r].expires.value <= to
    decreases |rows|
  {
    if rows == {} {
      to := 0;
    } else {
      var r :| r in rows;
      to := RowsElapse(st, rows - {r});
      if r in st.rows && st.rows[r].expires.Some? && to < st.rows[r].expires.value { to := st.rows[r].expires.value; }
    }
  }

  lemma ElapsesAt(st: Stores) returns (to: int)
    ensures st.now <= to && Elapsed(Advance(st, to))
  {
    to := OccsElapse(st, st.occs.Keys);
    var later := RowsElapse(st, st.rows.Keys);
    if to < later { to := later; }
  }

  // ---- Recovery leaves the calendar alone -------------------------------------------------------

  lemma {:induction false} RecoveryView(s: State, tr: seq<Step>, earlier: set<Id>)
    requires Run(s, tr) && RecoverySteps(tr, earlier)
    requires forall q | q in s.reqs && q !in earlier :: s.reqs[q].kind == SweepReq
    ensures View(Exec(s, tr).st) == View(s.st)
    decreases |tr|
  {
    hide MoveAny, ChoiceOk, View;
    if tr != [] {
      assert tr[0] in tr && forall step | step in tr[1..] :: step in tr;
      if tr[0].Call? {
        SweeperView(s, tr[0].q, tr[0].ch);
      } else {
        IdleView(s, tr[0]);
      }
      RecoveryView(Apply(s, tr[0]), tr[1..], earlier);
    }
  }

  lemma SweeperView(s: State, q: Id, ch: Choice)
    requires Enabled(s, Call(q, ch)) && s.reqs[q].kind == SweepReq
    ensures View(Apply(s, Call(q, ch)).st) == View(s.st)
  {
    hide MoveAny, ChoiceOk, View;
    MoveView(s.st, q, s.reqs[q].kind, s.reqs[q].pc, ch);
  }

  lemma IdleView(s: State, step: Step)
    requires Enabled(s, step) && !step.Call?
    ensures View(Apply(s, step).st) == View(s.st)
  {
  }

  /** A clean state in which the calendar and every broken row are as before. */
  lemma Recovered(s: State, r: Id) returns (tr: seq<Step>)
    requires Reachable(s) && Broken(s.st, r)
    ensures Run(s, tr) && Clean(Exec(s, tr).st) && Quiet(Exec(s, tr)) && Inv(Exec(s, tr))
    ensures View(Exec(s, tr).st) == View(s.st) && Broken(Exec(s, tr).st, r)
  {
    hide Inv, Clean, Broken, View, Elapsed, Enabled, Apply, RecoverySteps;
    ReachableInv(s);
    var a := CrashAll(s, set q | q in s.reqs && Active(s.reqs[q].pc));
    var s1 := Exec(s, a);
    var to := ElapsesAt(s1.st);
    var s2 := TickTo(s1, to);
    One(s1, Tick(to));
    RunAppend(s, a, [Tick(to)]);
    ReachesOn(s, a + [Tick(to)]);
    var b := RecoveryReaches(s2);
    RecoveryView(s2, b, s2.reqs.Keys);
    tr := a + [Tick(to)] + b;
    RunAppend(s, a + [Tick(to)], b);
    RunBroken(s, tr, r);
    TickView(s1.st, to);
  }

  lemma TickTo(s: State, to: int) returns (s': State)
    requires s.st.now <= to
    ensures Enabled(s, Tick(to)) && s' == Apply(s, Tick(to)) && s' == State(Advance(s.st, to), s.reqs)
  {
    s' := Apply(s, Tick(to));
  }

  lemma TickView(st: Stores, to: int)
    ensures View(Advance(st, to)) == View(st)
  {
  }

  lemma ReachesOn(s: State, tr: seq<Step>)
    requires Reachable(s) && Run(s, tr)
    ensures Reachable(Exec(s, tr))
  {
    var past :| Run(INIT, past) && Exec(INIT, past) == s;
    RunAppend(INIT, past, tr);
  }

  // ---- The second booking -------------------------------------------------------------------------

  function ResourceOf(row: Row, side: Side): Id {
    if side == Tech then row.tech else row.bay
  }

  /** The side on which a broken row has lost its occupation. */
  lemma LostSide(st: Stores, r: Id) returns (side: Side)
    requires Broken(st, r) && RowsOk(st) && r in View(st)
    ensures forall x | Live(st.occs, x) && x.side == side :: !Names(st.rows[r], x)
  {
    var id :| Half(st, r, id) && id in st.claims && Dead(st, id);
    assert RowOk(st, r);
    side := id.side;
  }

  /** A row that names a live occupation has its resource and interval. */
  lemma NamedSpan(st: Stores, y: Id, x: OccId)
    requires StoreInv(st) && y in st.rows && Names(st.rows[y], x) && Live(st.occs, x)
    ensures ResourceOf(st.rows[y], x.side) == st.occs[x].resource
    ensures st.rows[y].start == st.occs[x].start && st.rows[y].end == st.occs[x].end
  {
    hide Exclusive, UniqueKeys;
    assert RowOk(st, y);
    assert ClaimOk(st, x);
  }

  /** In a clean state whoever blocks the lost technician or bay is CONFIRMED on it. */
  lemma BlockerClashes(st: Stores, r: Id, side: Side, x: OccId) returns (y: Id)
    requires Clean(st) && r in View(st) && StoreInv(st)
    requires forall z | Live(st.occs, z) && z.side == side :: !Names(st.rows[r], z)
    requires Blocks(st.occs, x, side, ResourceOf(st.rows[r], side), st.rows[r].start, st.rows[r].end)
    ensures Clashing(st, r, y)
  {
    hide StoreInv;
    y :| y in st.rows && st.rows[y].status.Confirmed? && Names(st.rows[y], x);
    NamedSpan(st, y, x);
  }

  /** A fresh id, and a fresh resource for the other side. */
  lemma FreshNames(s: State) returns (q: Id, id: Id, other: Id)
    requires StoreInv(s.st)
    ensures q !in s.reqs && id !in s.st.rows
    ensures forall side :: OccId(side, id) !in s.st.claims && OccId(side, id) !in s.st.occs
    ensures forall x | x in s.st.occs :: s.st.occs[x].resource != other
  {
    q := FreshId(s.reqs.Keys);
    var keys := set x | x in s.st.claims :: x.key;
    id := FreshId(s.st.rows.Keys + keys);
    assert forall x | x in s.st.claims :: x.key in keys;
    var resources := set x | x in s.st.occs :: s.st.occs[x].resource;
    other := FreshId(resources);
    forall x | x in s.st.occs
      ensures s.st.occs[x].resource != other
    {
      assert s.st.occs[x].resource in resources;
    }
  }

  /** If nobody does, the slot can be booked again. */
  lemma BookedAgain(s: State, r: Id, side: Side) returns (tr: seq<Step>, y: Id)
    requires Inv(s) && r in View(s.st)
    requires Free(s.st.occs, side, ResourceOf(s.st.rows[r], side), s.st.rows[r].start, s.st.rows[r].end)
    ensures Run(s, tr) && Clashing(Exec(s, tr).st, r, y)
  {
    hide Inv, StoreInv, Counterexample.Reached, Counterexample.HeldRow, Counterexample.Taken, Free, Clashing, View,
        Run, Exec;
    InvStores(s);
    InView(s.st, r);
    RowSpan(s.st, r);
    var row := s.st.rows[r];
    var q, id, other := FreshNames(s);
    var tech, bay := if side == Tech then row.tech else other, if side == Bay then row.bay else other;
    FreshFree(s.st, other, row.start, row.end);
    StaysHere(s);
    var s' := AgainThere(s, q, id, tech, bay, row);
    tr := RunTo(s, s');
    y := id;
    BookedClashes(s.st, s'.st, r, y, side, tech, bay);
  }

  lemma InView(st: Stores, r: Id)
    requires r in View(st)
    ensures r in st.rows
  {
  }

  /** A direct booking of the interval of `row`, where there is room. */
  lemma AgainThere(s: State, q: Id, id: Id, tech: Id, bay: Id, row: Row) returns (s': State)
    requires q !in s.reqs && Counterexample.Room(s.st, id, tech, bay, row.start, row.end)
    requires Counterexample.Reached(s, s, false)
    ensures Counterexample.Reached(s, s', false)
    ensures id in s'.st.rows && s'.st.rows[id].status.Confirmed? && s'.st.rows[id].tech == tech
        && s'.st.rows[id].bay == bay
    ensures s'.st.rows[id].start == row.start && s'.st.rows[id].end == row.end
    ensures forall x | x in s.st.rows && x != id :: x in s'.st.rows && s'.st.rows[x] == s.st.rows[x]
  {
    hide Counterexample.Reached, Counterexample.Room, DirectPrint, Counterexample.Taken;
    s' := Counterexample.BookedDirectly(s, s, q, "", Body(row.who, "", row.start), id, tech, bay, row.end, false);
  }

  lemma InvStores(s: State)
    requires Inv(s)
    ensures StoreInv(s.st)
  {
  }

  lemma FreshFree(st: Stores, other: Id, start: int, end: int)
    requires forall x | x in st.occs :: st.occs[x].resource != other
    ensures forall side :: Free(st.occs, side, other, start, end)
  {
  }

  lemma StaysHere(s: State)
    ensures Counterexample.Reached(s, s, false)
  {
    assert Run(s, []) && Exec(s, []) == s;
  }

  lemma RunTo(s: State, s': State) returns (tr: seq<Step>)
    requires Counterexample.Reached(s, s', false)
    ensures Run(s, tr) && Exec(s, tr) == s'
  {
    tr :| Run(s, tr) && Exec(s, tr) == s';
  }

  lemma BookedClashes(st: Stores, st': Stores, r: Id, y: Id, side: Side, tech: Id, bay: Id)
    requires r in View(st) && y !in st.rows && y in st'.rows && r in st'.rows && st'.rows[r] == st.rows[r]
    requires st'.rows[y].status.Confirmed? && st'.rows[y].tech == tech && st'.rows[y].bay == bay
    requires st'.rows[y].start == st.rows[r].start && st'.rows[y].end == st.rows[r].end
    requires ResourceOf(st.rows[r], side) == (if side == Tech then tech else bay) && st.rows[r].start < st.rows[r].end
    ensures Clashing(st', r, y)
  {
  }

  lemma RowSpan(st: Stores, r: Id)
    requires StoreInv(st) && r in st.rows
    ensures st.rows[r].start < st.rows[r].end
  {
    assert RowOk(st, r);
  }

  lemma UnlinkedIsBroken(st: Stores, r: Id)
    requires StoreInv(st) && r in st.rows && st.rows[r].status.Confirmed? && !Linked(st, r)
    ensures Broken(st, r)
  {
    if Intact(st, r) {
      IntactLinks(st, r);
    } else {
      var id :| Half(st, r, id) && Released(st, id);
      HalfRow(st, r, id);
    }
  }

  /** From any reachable state in which a CONFIRMED row has lost an occupation, some run continues
      to two CONFIRMED appointments that overlap on a shared technician or bay. */
  lemma UnlinkedDoubleBooks(s: State, r: Id) returns (tr: seq<Step>, y: Id)
    requires Reachable(s) && r in s.st.rows && s.st.rows[r].status.Confirmed? && !Linked(s.st, r)
    ensures Run(s, tr) && Clashing(Exec(s, tr).st, r, y)
  {
    hide Linked, Broken, Clean, Local, ClaimsOk, RowsOk, Exclusive, UniqueKeys, Clashing, Run, Exec;
    ReachableInv(s);
    UnlinkedIsBroken(s.st, r);
    var a := Recovered(s, r);
    var s1 := Exec(s, a);
    assert r in View(s1.st);
    var side := LostSide(s1.st, r);
    var row := s1.st.rows[r];
    if Free(s1.st.occs, side, ResourceOf(row, side), row.start, row.end) {
      var b;
      b, y := BookedAgain(s1, r, side);
      RunAppend(s, a, b);
      tr := a + b;
    } else {
      var x :| x in s1.st.occs && Blocks(s1.st.occs, x, side, ResourceOf(row, side), row.start, row.end);
      y := BlockerClashes(s1.st, r, side, x);
      tr := a;
    }
  }
}
