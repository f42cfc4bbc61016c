/** The passes of Recovery are runs of the protocol, so a clean state is actually reached. */
module RecoveryRun {
  import opened Allocator
  import opened Stores
  import opened Protocol
  import opened Invariant
  import opened Recovery

  function Answer(reply: Reply, rows: seq<Id>): Choice {
    Choice(reply, "", false, "", 0, rows)
  }

  function At(s: State, st: Stores, q: Id, pc: Pc): State {
    State(st, s.reqs[q := Req(SweepReq, pc)])
  }

  /** One sweeper call. */
  lemma SweepCall(s: State, q: Id, reply: Reply, rows: seq<Id>)
    requires q in s.reqs && s.reqs[q].kind == SweepReq && Sweeps(s.reqs[q].pc)
    requires MoveOkSweep(s.st, s.reqs[q].pc, Answer(reply, rows))
    ensures Enabled(s, Call(q, Answer(reply, rows)))
    ensures var m := MoveSweep(s.st, s.reqs[q].pc, Answer(reply, rows));
            Apply(s, Call(q, Answer(reply, rows))) == At(s, m.st, q, m.pc)
  {
    hide MoveSweep;
  }

  /** Calls of sweeper q alone, all answered if `ok`. */
  predicate Only(tr: seq<Step>, q: Id, ok: bool) {
    forall step | step in tr :: step.Call? && step.q == q && (ok ==> step.ch.reply == Ok)
  }

  predicate AllGood(outs: seq<Outcome>) {
    forall o | o in outs :: o == Outcome(Ok, Ok, Ok)
  }

  /** One sweeper call more. */
  lemma OneMore(s: State, tr: seq<Step>, q: Id, reply: Reply, rows: seq<Id>, ok: bool) returns (tr': seq<Step>)
    requires Run(s, tr) && Only(tr, q, ok) && (ok ==> reply == Ok)
    requires var t := Exec(s, tr);
             q in t.reqs && t.reqs[q].kind == SweepReq && Sweeps(t.reqs[q].pc)
                 && MoveOkSweep(t.st, t.reqs[q].pc, Answer(reply, rows))
    ensures Run(s, tr') && Only(tr', q, ok) && tr < tr'
    ensures var t := Exec(s, tr);
            var m := MoveSweep(t.st, t.reqs[q].pc, Answer(reply, rows));
            Exec(s, tr') == At(t, m.st, q, m.pc)
  {
    hide Enabled, Apply, MoveSweep, MoveOkSweep;
    var t := Exec(s, tr);
    SweepCall(t, q, reply, rows);
    One(t, Call(q, Answer(reply, rows)));
    tr' := tr + [Call(q, Answer(reply, rows))];
    RunAppend(s, tr, [Call(q, Answer(reply, rows))]);
  }

  /** What the sweeper's three calls for one row do. */
  lemma SweepMoves(st: Stores, todo: seq<Item>, bayOk: bool, more: bool, reply: Reply)
    requires todo != []
    ensures var b := todo[0].bay;
            MoveSweep(st, SweepBay(todo, more), Answer(reply, [])) ==
            Move(ReleaseOpt(st, b, reply), SweepTech(todo, b.None? || reply == Ok, more))
    ensures var t := todo[0].tech;
            MoveSweep(st, SweepTech(todo, bayOk, more), Answer(reply, [])) ==
            Move(ReleaseOpt(st, t, reply),
                 if bayOk && (t.None? || reply == Ok) then SweepClear(todo, more) else NextItem(todo[1..], more))
    ensures MoveSweep(st, SweepClear(todo, more), Answer(reply, [])) ==
            Move(if reply == Failed then st else ClearRow(st, todo[0].row), NextItem(todo[1..], more))
  {
  }

  /** The loop body of releaseCancelled is two or three calls of the sweeper. */
  lemma ItemRun(s: State, q: Id, todo: seq<Item>, o: Outcome, more: bool, ok: bool) returns (tr: seq<Step>)
    requires q in s.reqs && s.reqs[q] == Req(SweepReq, SweepBay(todo, more)) && todo != []
    requires todo[0].tech.Some? || todo[0].bay.Some?
    requires ok ==> o == Outcome(Ok, Ok, Ok)
    ensures Run(s, tr) && Only(tr, q, ok)
    ensures Exec(s, tr) == At(s, ReleaseItem(s.st, todo[0], o), q, NextItem(todo[1..], more))
  {
    hide Run, Exec, NextItem, Only, MoveSweep, ReleaseOpt, ClearRow;
    var it := todo[0];
    var bayOk, techOk := it.bay.None? || o.bay == Ok, it.tech.None? || o.tech == Ok;
    NoSteps(s, q, ok);
    SweepMoves(s.st, todo, bayOk, more, o.bay);
    tr := OneMore(s, [], q, o.bay, [], ok);
    var st1 := ReleaseOpt(s.st, it.bay, o.bay);
    assert Exec(s, tr) == At(s, st1, q, SweepTech(todo, bayOk, more));
    SweepMoves(st1, todo, bayOk, more, o.tech);
    tr := OneMore(s, tr, q, o.tech, [], ok);
    var st2 := ReleaseOpt(st1, it.tech, o.tech);
    assert Exec(s, tr) == At(s, st2, q, if bayOk && techOk then SweepClear(todo, more) else NextItem(todo[1..], more));
    if bayOk && techOk {
      SweepMoves(st2, todo, bayOk, more, o.clear);
      tr := OneMore(s, tr, q, o.clear, [], ok);
    }
  }

  lemma NoSteps(s: State, q: Id, ok: bool)
    ensures Run(s, []) && Exec(s, []) == s && Only([], q, ok)
  {
  }

  /** releaseCancelled, undisturbed but with any outcomes, is a run of the sweeper. */
  lemma {:induction false} DrainRun(s: State, q: Id, todo: seq<Item>, outs: seq<Outcome>, more: bool, ok: bool)
      returns (tr: seq<Step>)
    requires |todo| == |outs| && q in s.reqs && s.reqs[q] == Req(SweepReq, NextItem(todo, more))
    requires ok ==> AllGood(outs)
    ensures Run(s, tr) && Only(tr, q, ok)
    ensures Exec(s, tr) == At(s, ReleaseAll(s.st, todo, outs), q, NextItem([], more))
    decreases |todo|
  {
    hide Enabled, Apply, ReleaseItem;
    assert todo != [] ==> outs[0] in outs && forall o | o in outs[1..] :: o in outs;
    if todo == [] {
      tr := [];
      assert s.reqs[q := s.reqs[q]] == s.reqs;
    } else if todo[0].tech.None? && todo[0].bay.None? {
      SkipItem(s.st, todo[0], outs[0]);
      tr := DrainRun(s, q, todo[1..], outs[1..], more, ok);
    } else {
      var a := ItemRun(s, q, todo, outs[0], more, ok);
      var s1 := Exec(s, a);
      var b := DrainRun(s1, q, todo[1..], outs[1..], more, ok);
      RunAppend(s, a, b);
      tr := a + b;
      var end := At(s, ReleaseAll(s.st, todo, outs), q, NextItem([], more));
      assert s1.reqs[q := end.reqs[q]] == s.reqs[q := end.reqs[q]];
    }
  }

  lemma SkipItem(st: Stores, it: Item, o: Outcome)
    requires it.tech.None? && it.bay.None?
    ensures ReleaseItem(st, it, o) == st
  {
  }

  /** Reaps, and sweeps that are not disturbed by faults; requests begun `earlier` do not move. */
  predicate RecoverySteps(tr: seq<Step>, earlier: set<Id>) {
    forall step | step in tr ::
      || step.ReapTick?
      || (step.Begin? && step.q !in earlier && step.kind == SweepReq)
      || (step.Call? && step.q !in earlier && step.ch.reply == Ok)
  }

  /** One statement that returns rows, and the release of those rows. */
  lemma HalfRun(s: State, q: Id, rows: seq<Id>, more: bool) returns (tr: seq<Step>)
    requires q in s.reqs && s.reqs[q] == Req(SweepReq, if more then SweepBatch else SweepList)
    requires |rows| <= SWEEP_LIMIT && (if more then AllSweepable(s.st, rows) else AllNeed(s.st, rows))
    ensures Run(s, tr) && Only(tr, q, true)
    ensures Exec(s, tr) == At(s, if more then FirstHalf(s.st, rows) else SecondHalf(s.st, rows), q, NextItem([], more))
  {
    hide Run, Exec, Only, ReleaseAll, Items;
    NoSteps(s, q, true);
    tr := OneMore(s, [], q, Ok, rows, true);
    var s1 := Exec(s, tr);
    var b := DrainRun(s1, q, Items(s1.st, rows), AllOk(|rows|), more, true);
    RunAppend(s, tr, b);
    OnlyAppend(tr, b, q);
    tr := tr + b;
    assert s1.reqs[q := Req(SweepReq, NextItem([], more))] == s.reqs[q := Req(SweepReq, NextItem([], more))];
  }

  lemma OnlyAppend(a: seq<Step>, b: seq<Step>, q: Id)
    requires Only(a, q, true) && Only(b, q, true)
    ensures Only(a + b, q, true)
  {
  }

  /** A whole fault-free sweepOnce, from its start to its end, as a run. */
  lemma SweepRun(s: State, q: Id, batch: seq<Id>, pending: seq<Id>) returns (tr: seq<Step>)
    requires q !in s.reqs && AllSweepable(s.st, batch) && |batch| <= SWEEP_LIMIT
    requires AllNeed(FirstHalf(s.st, batch), pending) && |pending| <= SWEEP_LIMIT
    ensures Run(s, tr) && RecoverySteps(tr, s.reqs.Keys)
    ensures Exec(s, tr) == At(s, SecondHalf(FirstHalf(s.st, batch), pending), q, Done(Swept))
  {
    var begun := At(s, s.st, q, SweepBatch);
    assert Enabled(s, Begin(q, SweepReq)) && Apply(s, Begin(q, SweepReq)) == begun;
    hide Enabled, Apply, FirstHalf, SecondHalf;
    One(s, Begin(q, SweepReq));
    var a := HalfRun(begun, q, batch, true);
    RunAppend(s, [Begin(q, SweepReq)], a);
    var s1 := Exec(begun, a);
    var b := HalfRun(s1, q, pending, false);
    RunAppend(s, [Begin(q, SweepReq)] + a, b);
    tr := [Begin(q, SweepReq)] + a + b;
    assert s1.reqs[q := Req(SweepReq, Done(Swept))] == s.reqs[q := Req(SweepReq, Done(Swept))];
  }

  // ---- The databases can always answer -------------------------------------------------

  ghost predicate Oldest(st: Stores, all: set<Id>, rows: seq<Id>) {
    && Distinct(rows) && (forall r | r in rows :: r in all)
    && (forall r, x | r in rows && x in all && x !in rows ::
          r in st.rows && x in st.rows && st.rows[r].expires.Some? && st.rows[x].expires.Some?
          && st.rows[r].expires.value <= st.rows[x].expires.value)
  }

  lemma {:induction false} EarliestExists(st: Stores, all: set<Id>) returns (m: Id)
    requires all != {} && forall r | r in all :: r in st.rows && st.rows[r].expires.Some?
    ensures m in all && forall x | x in all :: st.rows[m].expires.value <= st.rows[x].expires.value
    decreases |all|
  {
    m :| m in all;
    if all != {m} {
      var n := EarliestExists(st, all - {m});
      if st.rows[n].expires.value < st.rows[m].expires.value { m := n; }
    }
  }

  /** The n oldest of a set of expiring rows. */
  lemma {:induction false} OldestExist(st: Stores, all: set<Id>, n: nat) returns (rows: seq<Id>)
    requires n <= |all| && forall r | r in all :: r in st.rows && st.rows[r].expires.Some?
    ensures |rows| == n && Oldest(st, all, rows)
    decreases n
  {
    if n == 0 {
      rows := [];
    } else {
      var m := EarliestExists(st, all);
      var rest := OldestExist(st, all - {m}, n - 1);
      rows := [m] + rest;
      assert forall r | r in rest :: r in all - {m};
      forall r, x | r in rows && x in all && x !in rows
        ensures st.rows[r].expires.value <= st.rows[x].expires.value
      {
        if r != m { assert r in rest && x in all - {m} && x !in rest; }
      }
    }
  }

  lemma {:induction false} SomeExist(all: set<Id>, n: nat) returns (rows: seq<Id>)
    requires n <= |all|
    ensures |rows| == n && Distinct(rows) && forall r | r in rows :: r in all
    decreases n
  {
    if n == 0 {
      rows := [];
    } else {
      var m :| m in all;
      var rest := SomeExist(all - {m}, n - 1);
      rows := [m] + rest;
    }
  }

  lemma PassExists(st: Stores) returns (batch: seq<Id>, pending: seq<Id>)
    requires StoreInv(st)
    ensures AllSweepable(st, batch) && |batch| <= SWEEP_LIMIT
    ensures AllNeed(FirstHalf(st, batch), pending) && |pending| <= SWEEP_LIMIT
    ensures PassWith(st, st.now, batch, pending, st.now, SecondHalf(FirstHalf(st, batch), pending))
  {
    hide StoreInv, FirstHalf, SecondHalf;
    batch := OldestExist(st, ToSweep(st), AtMost50(|ToSweep(st)|));
    assert forall r | r in batch :: r in ToSweep(st);
    var mid := FirstHalf(st, batch);
    pending := SomeExist(ToRelease(mid), AtMost50(|ToRelease(mid)|));
    assert forall r | r in pending :: r in ToRelease(mid);
    assert Advance(st, st.now) == st;
    FirstHalfOk(st, batch);
    SecondHalfOk(mid, pending);
    assert Advance(SecondHalf(mid, pending), st.now) == SecondHalf(mid, pending);
  }

  function Pad(n: nat): string {
    if n == 0 then "" else "x" + Pad(n - 1)
  }

  lemma {:induction false} PadLength(n: nat)
    ensures |Pad(n)| == n
  {
    if n > 0 { PadLength(n - 1); }
  }

  /** There is always a fresh id. */
  lemma {:induction false} LongerThanAll(used: set<Id>) returns (n: nat)
    ensures forall id | id in used :: |id| < n
    decreases |used|
  {
    if used == {} {
      n := 0;
    } else {
      var id :| id in used;
      n := LongerThanAll(used - {id});
      n := if n <= |id| then |id| + 1 else n;
    }
  }

  lemma FreshId(used: set<Id>) returns (id: Id)
    ensures id !in used
  {
    var n := LongerThanAll(used);
    PadLength(n);
    id := Pad(n);
  }

  ghost predicate Quiet(s: State) {
    forall q | q in s.reqs :: !Active(s.reqs[q].pc)
  }

  /** One pass can be run to its end, and deals with some of the work. */
  lemma OnePass(s: State) returns (tr: seq<Step>)
    requires Quiet(s) && RowsElapsed(s.st) && NoHeldOccs(s.st) && Inv(s) && Work(s.st) != {}
    ensures Run(s, tr) && RecoverySteps(tr, s.reqs.Keys)
    ensures var s' := Exec(s, tr);
            && Quiet(s') && RowsElapsed(s'.st) && NoHeldOccs(s'.st) && Inv(s')
            && |Work(s'.st)| < |Work(s.st)| && s.reqs.Keys <= s'.reqs.Keys
  {
    hide Local, StoreInv, RowsElapsed, NoHeldOccs, FirstHalf, SecondHalf, PassWith, Run, Exec, RecoverySteps;
    var batch, pending := PassExists(s.st);
    var q := FreshId(s.reqs.Keys);
    tr := SweepRun(s, q, batch, pending);
    assert PassWith(s.st, s.st.now, batch, pending, s.st.now, Exec(s, tr).st);
    assert Pass(s.st, Exec(s, tr).st);
    PassProgress(s.st, Exec(s, tr).st);
    RunInv(s, tr);
    NonEmpty(Work(s.st));
  }

  lemma NonEmpty(rows: set<Id>)
    requires rows != {}
    ensures |rows| > 0
  {
  }

  /** Passes can be run one after the other until nothing is left. */
  lemma {:induction false} SweepUntilClean(s: State) returns (tr: seq<Step>)
    requires Quiet(s) && RowsElapsed(s.st) && NoHeldOccs(s.st) && Inv(s)
    ensures Run(s, tr) && RecoverySteps(tr, s.reqs.Keys) && Quiet(Exec(s, tr)) && Clean(Exec(s, tr).st)
    decreases |Work(s.st)|
  {
    if Work(s.st) == {} {
      NoWorkIsClean(s.st);
      tr := [];
    } else {
      hide Inv, Quiet, Work, RowsElapsed, NoHeldOccs, Clean, Enabled, Apply;
      var a := OnePass(s);
      var b := SweepUntilClean(Exec(s, a));
      RunAppend(s, a, b);
      tr := a + b;
    }
  }

  /** From every reachable state with no request in flight and every stored expiry in the
      past, one reap per allocator and then fault-free sweeps alone reach a state where
      every live occupation belongs to a CONFIRMED appointment and nothing is left over. */
  lemma RecoveryReaches(s: State) returns (tr: seq<Step>)
    requires Reachable(s) && Quiet(s) && Elapsed(s.st)
    ensures Run(s, tr) && RecoverySteps(tr, s.reqs.Keys) && Quiet(Exec(s, tr)) && Clean(Exec(s, tr).st)
  {
    ReachableInv(s);
    var s1 := Apply(s, ReapTick(Tech));
    var s2 := Apply(s1, ReapTick(Bay));
    assert s2 == State(ReapOccs(ReapOccs(s.st, Tech), Bay), s.reqs) && Quiet(s2);
    hide StoreInv, Local, RowsElapsed, NoHeldOccs, Clean, Reachable, Apply, ReapOccs, Quiet;
    ReapBoth(s.st);
    StepInv(s, ReapTick(Tech));
    StepInv(s1, ReapTick(Bay));
    var b := SweepUntilClean(s2);
    tr := [ReapTick(Tech), ReapTick(Bay)] + b;
    assert tr[1..] == [ReapTick(Bay)] + b && tr[1..][1..] == b;
  }
}
