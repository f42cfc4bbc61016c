/** Recovery converges: whatever crashed or failed before, one reap per allocator and enough
    sweeps leave every live occupation with a CONFIRMED appointment. */
module Recovery {
  import opened Wrappers
  import opened Allocator
  import opened Stores
  import opened Protocol
  import opened Invariant

  // ---- One pass of sweepOnce, as a function --------------------------------------------

  /** How the three calls for one row went. */
  datatype Outcome = Outcome(bay: Reply, tech: Reply, clear: Reply)

  /** The body of releaseCancelled's loop: bay, then technician, and clear only if both went well. */
  function ReleaseItem(st: Stores, it: Item, o: Outcome): Stores {
    if it.bay.None? && it.tech.None? then st else
      var st1 := ReleaseOpt(st, it.bay, o.bay);
      var st2 := ReleaseOpt(st1, it.tech, o.tech);
      if (it.bay.None? || o.bay == Ok) && (it.tech.None? || o.tech == Ok) && o.clear != Failed
      then ClearRow(st2, it.row) else st2
  }

  function ReleaseAll(st: Stores, items: seq<Item>, outs: seq<Outcome>): Stores
    requires |items| == |outs|
    decreases |items|
  {
    if items == [] then st else ReleaseAll(ReleaseItem(st, items[0], outs[0]), items[1..], outs[1..])
  }

  function AllOk(n: nat): seq<Outcome> {
    seq(n, i => Outcome(Ok, Ok, Ok))
  }

  predicate Distinct(rows: seq<Id>) {
    forall i, j | 0 <= i < j < |rows| :: rows[i] != rows[j]
  }

  function ToSweep(st: Stores): set<Id> {
    set r | r in st.rows && Sweepable(st, r)
  }

  function ToRelease(st: Stores): set<Id> {
    set r | r in st.rows && NeedsRelease(st, r)
  }

  function AtMost50(n: nat): nat {
    if n < SWEEP_LIMIT then n else SWEEP_LIMIT
  }

  function ToSet(rows: seq<Id>): set<Id> {
    set r | r in rows
  }

  /** What SweepBatch returns when nobody else holds a row lock: the oldest, up to the limit. */
  ghost predicate FullBatch(st: Stores, rows: seq<Id>) {
    && Distinct(rows) && |rows| == AtMost50(|ToSweep(st)|)
    && AllSweepable(st, rows)
    && (forall r, x | r in rows && x in ToSweep(st) && x !in rows ::
          st.rows[r].expires.value <= st.rows[x].expires.value)
  }

  ghost predicate FullList(st: Stores, rows: seq<Id>) {
    && Distinct(rows) && |rows| == AtMost50(|ToRelease(st)|)
    && AllNeed(st, rows)
  }

  /** SweepBatch and the release of what it returned. */
  function FirstHalf(st: Stores, batch: seq<Id>): Stores
    requires forall r | r in batch :: r in st.rows
  {
    var st1 := CancelRows(st, set r | r in batch);
    ReleaseAll(st1, Items(st1, batch), AllOk(|batch|))
  }

  /** ListCancelledNeedingRelease and the release of what it returned. */
  function SecondHalf(st: Stores, pending: seq<Id>): Stores
    requires forall r | r in pending :: r in st.rows
  {
    ReleaseAll(st, Items(st, pending), AllOk(|pending|))
  }

  /** One fault-free pass takes st to st', the clock going on meanwhile. */
  ghost predicate Pass(st: Stores, st': Stores) {
    exists at, batch, pending, end :: PassWith(st, at, batch, pending, end, st')
  }

  /** The batch is taken at time `at`, the list after the batch has been worked off, and the pass
      is over at time `end`. (What the list returns depends on no clock.) */
  ghost predicate PassWith(st: Stores, at: int, batch: seq<Id>, pending: seq<Id>, end: int, st': Stores) {
    && st.now <= at <= end && FullBatch(Advance(st, at), batch)
    && var mid := FirstHalf(Advance(st, at), batch);
       FullList(mid, pending) && st' == Advance(SecondHalf(mid, pending), end)
  }

  // ---- What a pass achieves ------------------------------------------------------------

  /** Rows still to be dealt with. */
  function Work(st: Stores): set<Id> {
    set r | r in st.rows && (st.rows[r].status.Held? || NeedsRelease(st, r))
  }

  predicate NoHeldOccs(st: Stores) {
    forall id | id in st.occs :: !st.occs[id].status.OccHeld?
  }

  /** The clock has passed every expiry stored on a row. */
  predicate RowsElapsed(st: Stores) {
    forall r | r in st.rows && st.rows[r].status.Held? :: Sweepable(st, r)
  }

  /** `rows` have been cleared; nothing else has happened to any row, and occupations have at
      most been released. */
  ghost predicate ClearedOnly(st: Stores, st': Stores, rows: set<Id>) {
    && st'.now == st.now && st'.birth == st.birth && st'.rows.Keys == st.rows.Keys
    && (forall r | r in st.rows :: st'.rows[r] == if r in rows then st.rows[r].(techOcc := None, bayOcc := None)
        else st.rows[r])
    && (NoHeldOccs(st) ==> NoHeldOccs(st'))
  }

  lemma ReleaseItemForm(st: Stores, r: Id, t: OccId, b: OccId)
    requires NeedsRelease(st, r) && st.rows[r].techOcc == Some(t) && st.rows[r].bayOcc == Some(b)
    ensures var st' := ReleaseItem(st, ItemOf(st, r), Outcome(Ok, Ok, Ok));
            st' == ClearRow(ReleaseOcc(ReleaseOcc(st, b), t), r) && ClearedOnly(st, st', {r})
  {
  }

  lemma ReleaseItemOk(st: Stores, r: Id)
    requires StoreInv(st) && NeedsRelease(st, r)
    ensures var st' := ReleaseItem(st, ItemOf(st, r), Outcome(Ok, Ok, Ok));
            StoreInv(st') && ClearedOnly(st, st', {r})
  {
    var b, t := st.birth[r].bayOcc.value, st.birth[r].techOcc.value;
    assert RowOk(st, r);
    var st1 := ReleaseOcc(st, b);
    var st2 := ReleaseOcc(st1, t);
    assert st.rows[r].techOcc == Some(t) && st.rows[r].bayOcc == Some(b) && t in st.claims && b in st.claims
           && st.claims[t].row.Some? && st.claims[b].row.Some?;
    hide ClaimsOk, RowsOk, RowOk, Evolve, Exclusive, UniqueKeys, ReleaseItem, ClearRow, ClearedOnly;
    ReleaseItemForm(st, r, t, b);
    ReleaseOccOk(st, b, None);
    ReleaseOccOk(st1, t, None);
    RowOkAt(st2, r);
    ClearRowOk(st2, r, None);
  }

  lemma RowOkAt(st: Stores, r: Id)
    requires StoreInv(st) && r in st.rows
    ensures r in st.birth && RowOk(st, r)
  {
  }

  ghost predicate AllNeed(st: Stores, rows: seq<Id>) {
    forall r | r in rows :: r in st.rows && NeedsRelease(st, r)
  }

  /** The first row of the list, and what is left. */
  lemma FirstReleased(st: Stores, rows: seq<Id>)
    requires rows != [] && AllNeed(st, rows) && Distinct(rows) && StoreInv(st)
    ensures var st1 := ReleaseItem(st, ItemOf(st, rows[0]), Outcome(Ok, Ok, Ok));
            && StoreInv(st1) && ClearedOnly(st, st1, {rows[0]}) && AllNeed(st1, rows[1..]) && Distinct(rows[1..])
            && Items(st, rows)[1..] == Items(st1, rows[1..])
  {
    hide StoreInv, ReleaseItem, RowsOk;
    var r, rest := rows[0], rows[1..];
    assert r in rows && forall x | x in rest :: x in rows;
    ReleaseItemOk(st, r);
    var st1 := ReleaseItem(st, ItemOf(st, r), Outcome(Ok, Ok, Ok));
    forall x | x in rest
      ensures x in st1.rows && NeedsRelease(st1, x) && st1.rows[x] == st.rows[x]
    {
      var i :| 0 <= i < |rest| && rest[i] == x;
      assert rows[i + 1] == x && x != r;
    }
    RestItems(st, st1, rows);
  }

  lemma ClearedBoth(st: Stores, st1: Stores, st2: Stores, a: set<Id>, b: set<Id>)
    requires ClearedOnly(st, st1, a) && ClearedOnly(st1, st2, b)
    ensures ClearedOnly(st, st2, a + b)
  {
  }

  lemma {:induction false} ReleaseAllOk(st: Stores, rows: seq<Id>)
    requires AllNeed(st, rows) && Distinct(rows) && StoreInv(st)
    ensures var st' := ReleaseAll(st, Items(st, rows), AllOk(|rows|));
            StoreInv(st') && ClearedOnly(st, st', ToSet(rows))
    decreases |rows|
  {
    hide StoreInv, ReleaseItem, Distinct, NeedsRelease;
    if rows == [] {
      assert ToSet(rows) == {};
    } else {
      hide ClearedOnly;
      var r, rest := rows[0], rows[1..];
      FirstReleased(st, rows);
      assert r in rows;
      var st1 := ReleaseItem(st, ItemOf(st, r), Outcome(Ok, Ok, Ok));
      ReleaseAllOk(st1, rest);
      assert AllOk(|rows|)[1..] == AllOk(|rest|);
      ClearedBoth(st, st1, ReleaseAll(st1, Items(st1, rest), AllOk(|rest|)), {r}, ToSet(rest));
      assert ToSet(rows) == {r} + ToSet(rest);
    }
  }

  lemma RestItems(st: Stores, st1: Stores, rows: seq<Id>)
    requires rows != [] && forall x | x in rows :: x in st.rows
    requires forall x | x in rows[1..] :: x in st1.rows && st1.rows[x] == st.rows[x]
    ensures Items(st, rows)[1..] == Items(st1, rows[1..])
  {
    forall i | 0 <= i < |rows| - 1
      ensures Items(st, rows)[1..][i] == Items(st1, rows[1..])[i]
    {
      assert rows[1..][i] in rows[1..];
    }
  }

  ghost predicate AllSweepable(st: Stores, rows: seq<Id>) {
    forall r | r in rows :: r in st.rows && Sweepable(st, r)
  }

  /** Cancelling expired holds keeps the work to do and turns them into rows to release. */
  lemma CancelBatchOk(st: Stores, batch: seq<Id>)
    requires AllSweepable(st, batch) && StoreInv(st)
    ensures var st' := CancelRows(st, set r | r in batch);
            && StoreInv(st') && st'.now == st.now && AllNeed(st', batch) && Work(st') == Work(st)
            && ToSweep(st') == ToSweep(st) - ToSet(batch) && ToRelease(st') == ToRelease(st) + ToSet(batch)
            && (RowsElapsed(st) ==> RowsElapsed(st')) && (NoHeldOccs(st) ==> NoHeldOccs(st'))
  {
    hide ClaimOk, RowOk, Evolve, Exclusive, UniqueKeys;
    CancelRowsOk(st, (set r | r in batch), None);
    forall r | r in batch
      ensures st.rows[r].techOcc.Some?
    {
      HeldHasIds(st, r);
    }
  }

  lemma HeldHasIds(st: Stores, r: Id)
    requires StoreInv(st) && r in st.rows && st.rows[r].status.Held?
    ensures st.rows[r].techOcc.Some? && st.rows[r].bayOcc.Some?
  {
    assert RowOk(st, r);
  }

  lemma ClearedWork(st: Stores, st': Stores, rows: set<Id>)
    requires ClearedOnly(st, st', rows) && rows <= ToRelease(st)
    ensures Work(st') == Work(st) - rows && ToSweep(st') == ToSweep(st) && ToRelease(st') == ToRelease(st) - rows
    ensures RowsElapsed(st) ==> RowsElapsed(st')
  {
  }

  lemma FirstHalfOk(st: Stores, batch: seq<Id>)
    requires AllSweepable(st, batch) && Distinct(batch) && StoreInv(st)
    ensures var st' := FirstHalf(st, batch);
            && StoreInv(st') && st'.now == st.now && Work(st') == Work(st) - ToSet(batch)
                && ToSweep(st') == ToSweep(st) - ToSet(batch)
            && ToRelease(st') == ToRelease(st)
            && (RowsElapsed(st) ==> RowsElapsed(st')) && (NoHeldOccs(st) ==> NoHeldOccs(st'))
  {
    hide StoreInv, CancelRows, Work, ToRelease, ToSweep, RowsElapsed, NoHeldOccs, ReleaseAll;
    var st1 := CancelRows(st, set r | r in batch);
    CancelBatchOk(st, batch);
    ReleaseAllOk(st1, batch);
    ClearedWork(st1, FirstHalf(st, batch), ToSet(batch));
    NothingTwice(st, batch);
  }

  lemma NothingTwice(st: Stores, batch: seq<Id>)
    requires AllSweepable(st, batch)
    ensures ToRelease(st) + ToSet(batch) - ToSet(batch) == ToRelease(st)
  {
  }

  lemma SecondHalfOk(st: Stores, pending: seq<Id>)
    requires AllNeed(st, pending) && Distinct(pending) && StoreInv(st)
    ensures var st' := SecondHalf(st, pending);
            && StoreInv(st') && st'.now == st.now && Work(st') == Work(st) - ToSet(pending)
            && (RowsElapsed(st) ==> RowsElapsed(st')) && (NoHeldOccs(st) ==> NoHeldOccs(st'))
  {
    hide StoreInv;
    ReleaseAllOk(st, pending);
    ClearedWork(st, SecondHalf(st, pending), ToSet(pending));
  }

  lemma {:induction false} DistinctSize(rows: seq<Id>)
    requires Distinct(rows)
    ensures |ToSet(rows)| == |rows|
    decreases |rows|
  {
    if rows != [] {
      DistinctSize(rows[1..]);
      assert ToSet(rows) == {rows[0]} + ToSet(rows[1..]);
    }
  }

  /** The clock alone creates no work and loses none. */
  lemma AdvanceKeeps(st: Stores, to: int)
    requires st.now <= to && StoreInv(st)
    ensures var st' := Advance(st, to);
            && StoreInv(st') && Work(st') == Work(st) && ToRelease(st') == ToRelease(st)
            && (RowsElapsed(st) ==> RowsElapsed(st')) && (NoHeldOccs(st) ==> NoHeldOccs(st'))
  {
    hide StoreInv, Evolve;
    AdvanceOk(st, to);
  }

  lemma WorkSplits(st: Stores)
    requires RowsElapsed(st)
    ensures Work(st) == ToSweep(st) + ToRelease(st) && |Work(st)| == |ToSweep(st)| + |ToRelease(st)|
  {
    assert ToSweep(st) !! ToRelease(st);
    assert Work(st) == ToSweep(st) + ToRelease(st);
  }

  /** Each of the two statements deals with fifty rows, or with all it can find. */
  lemma HalfProgress(st: Stores, batch: seq<Id>, mid: Stores, pending: seq<Id>, done: Stores)
    requires RowsElapsed(st) && FullBatch(st, batch) && FullList(mid, pending)
    requires Work(mid) == Work(st) - ToSet(batch) && ToRelease(mid) == ToRelease(st)
    requires Work(done) == Work(mid) - ToSet(pending)
    ensures Work(done) <= Work(st) && |Work(done)| <= |Work(st)| - AtMost50(|Work(st)|)
    ensures |Work(st)| <= |Work(done)| + 100
  {
    DistinctSize(batch);
    DistinctSize(pending);
    WorkSplits(st);
    assert ToSet(batch) <= ToSweep(st) && ToSet(pending) <= ToRelease(mid) <= Work(mid);
    assert |Work(mid)| == |Work(st)| - |ToSet(batch)|;
    assert |Work(done)| == |Work(mid)| - |ToSet(pending)|;
  }

  /** Each pass deals with at least fifty rows, or with all that are left, and with a hundred at most. */
  lemma PassProgress(st: Stores, st': Stores)
    requires StoreInv(st) && RowsElapsed(st) && Pass(st, st')
    ensures StoreInv(st') && RowsElapsed(st') && (NoHeldOccs(st) ==> NoHeldOccs(st'))
    ensures Work(st') <= Work(st) && (|Work(st')| <= |Work(st)| - 50 || Work(st') == {})
    ensures |Work(st)| <= |Work(st')| + 100
  {
    hide StoreInv, FirstHalf, SecondHalf, RowsElapsed, NoHeldOccs, Work, ToRelease, ToSweep;
    var at, batch, pending, end :| PassWith(st, at, batch, pending, end, st');
    var st0 := Advance(st, at);
    AdvanceKeeps(st, at);
    var mid := FirstHalf(st0, batch);
    FirstHalfOk(st0, batch);
    var done := SecondHalf(mid, pending);
    SecondHalfOk(mid, pending);
    AdvanceKeeps(done, end);
    HalfProgress(st0, batch, mid, pending, done);
  }

  // ---- Clean ---------------------------------------------------------------------------

  /** Every live occupation belongs to a CONFIRMED appointment; nothing is left to sweep. */
  ghost predicate Clean(st: Stores) {
    && (forall id | Live(st.occs, id) ::
          exists r :: r in st.rows && st.rows[r].status.Confirmed? && Names(st.rows[r], id))
    && (forall r | r in st.rows :: st.rows[r].status.Held? ==> false)
    && (forall r | r in st.rows && st.rows[r].status.Cancelled? :: Cleared(st.rows[r]))
  }

  lemma NoWorkIsClean(st: Stores)
    requires StoreInv(st) && Work(st) == {} && NoHeldOccs(st)
    ensures Clean(st)
  {
    assert forall r | r in st.rows :: r !in Work(st);
    forall id | Live(st.occs, id)
      ensures exists r :: r in st.rows && st.rows[r].status.Confirmed? && Names(st.rows[r], id)
    {
      assert ClaimOk(st, id);
      var r := st.claims[id].row.value;
      assert RowOk(st, r);
      assert st.rows[r].status.Confirmed? && Names(st.rows[r], id);
    }
  }

  ghost predicate Passes(sts: seq<Stores>) {
    sts != [] && forall i | 0 <= i < |sts| - 1 :: Pass(sts[i], sts[i + 1])
  }

  lemma {:induction false} PassesProgress(sts: seq<Stores>)
    requires Passes(sts) && StoreInv(sts[0]) && RowsElapsed(sts[0]) && NoHeldOccs(sts[0])
    ensures var last := sts[|sts| - 1];
            && StoreInv(last) && RowsElapsed(last) && NoHeldOccs(last)
            && (|Work(last)| == 0 || |Work(last)| <= |Work(sts[0])| - SWEEP_LIMIT * (|sts| - 1))
    decreases |sts|
  {
    hide StoreInv, Pass, Work, RowsElapsed, NoHeldOccs;
    if |sts| > 1 {
      var n := |sts| - 1;
      PassesProgress(sts[..n]);
      assert Pass(sts[n - 1], sts[n]);
      PassProgress(sts[n - 1], sts[n]);
    }
  }

  /** Recovery converges. From the stores of any reachable state, once the clock has passed
      every stored expiry and each allocator has reaped once, any sequence of fault-free
      passes, whichever rows the databases choose to return, is clean as soon as it is long
      enough for the rows to be dealt with at fifty a pass. */
  lemma AnyPassesConverge(s: State, sts: seq<Stores>)
    requires Reachable(s) && Elapsed(s.st)
    requires Passes(sts) && sts[0] == ReapOccs(ReapOccs(s.st, Tech), Bay)
    requires |Work(s.st)| <= 50 * (|sts| - 1)
    ensures Clean(sts[|sts| - 1])
  {
    ReachableInv(s);
    ReapBoth(s.st);
    PassesProgress(sts);
    assert Work(sts[0]) == Work(s.st);
    NoWorkIsClean(sts[|sts| - 1]);
  }

  /** The clock has passed every stored expiry. */
  predicate Elapsed(st: Stores) {
    && (forall id | id in st.occs && st.occs[id].expires.Some? :: st.occs[id].expires.value <= st.now)
    && (forall r | r in st.rows && st.rows[r].expires.Some? :: st.rows[r].expires.value <= st.now)
  }

  lemma ReapBoth(st: Stores)
    requires StoreInv(st) && Elapsed(st)
    ensures var st' := ReapOccs(ReapOccs(st, Tech), Bay);
            StoreInv(st') && NoHeldOccs(st') && RowsElapsed(st') && Work(st') == Work(st)
  {
    NothingHeld(st);
    RowsAllElapsed(st);
    ReapsKeepRows(st);
    hide StoreInv, Evolve, Elapsed, NoHeldOccs, RowsElapsed, Work, ReapOccs;
    ReapOccsOk(st, Tech, None);
    ReapOccsOk(ReapOccs(st, Tech), Bay, None);
  }

  lemma ReapsKeepRows(st: Stores)
    ensures var st' := ReapOccs(ReapOccs(st, Tech), Bay);
            Work(st') == Work(st) && (RowsElapsed(st) ==> RowsElapsed(st'))
  {
  }

  lemma NothingHeld(st: Stores)
    requires Elapsed(st) && ClaimsOk(st)
    ensures NoHeldOccs(ReapOccs(ReapOccs(st, Tech), Bay))
  {
    var st' := ReapOccs(ReapOccs(st, Tech), Bay);
    forall id | id in st'.occs
      ensures !st'.occs[id].status.OccHeld?
    {
      assert ClaimOk(st, id);
    }
  }

  lemma RowsAllElapsed(st: Stores)
    requires Elapsed(st) && RowsOk(st)
    ensures RowsElapsed(st)
  {
    forall r | r in st.rows && st.rows[r].status.Held?
      ensures Sweepable(st, r)
    {
      assert RowOk(st, r);
    }
  }
}
