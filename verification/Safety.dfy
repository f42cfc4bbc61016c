/** What holds of every reachable state and every later one, under any faults. */
module Safety {
  import opened Wrappers
  import opened Allocator
  import opened Stores
  import opened Protocol
  import opened Invariant

  // ---- Histories -----------------------------------------------------------------------

  ghost predicate ClaimLater(st: Stores, st': Stores, id: OccId)
    requires id in st.claims
  {
    && id in st'.claims
    && var c, c' := st.claims[id], st'.claims[id];
       && c'.resource == c.resource && c'.start == c.start && c'.end == c.end && c'.at == c.at
       && (c.confirmedAt.Some? ==> c'.confirmedAt == c.confirmedAt)
       && (c.row.Some? ==> c'.row == c.row)
       && (Dead(st, id) ==> Dead(st', id))
       && (id in st.occs && st.occs[id].status.OccReleased? ==> id in st'.occs && st'.occs[id].status.OccReleased?)
       && (Hopeless(st, id) ==> Hopeless(st', id))
  }

  /** `st'` may follow `st` in some run. */
  ghost predicate Later(st: Stores, st': Stores) {
    && st.now <= st'.now
    && (forall id | id in st.claims :: ClaimLater(st, st', id))
    && (forall r | r in st.rows :: RowEvolves(st, st', r))
  }

  lemma LaterStep(st0: Stores, st: Stores, st': Stores, actor: Option<Id>)
    requires Later(st0, st) && Evolve(st, st', actor)
    ensures Later(st0, st')
  {
    forall id | id in st0.claims
      ensures ClaimLater(st0, st', id)
    {
      assert ClaimLater(st0, st, id) && ClaimEvolves(st, st', id, actor);
    }
    forall r | r in st0.rows
      ensures RowEvolves(st0, st', r)
    {
      assert RowEvolves(st0, st, r) && RowEvolves(st, st', r);
    }
  }

  lemma {:induction false} RunLaterFrom(st0: Stores, s: State, tr: seq<Step>)
    requires Inv(s) && Later(st0, s.st) && Run(s, tr)
    ensures Inv(Exec(s, tr)) && Later(st0, Exec(s, tr).st)
    decreases |tr|
  {
    hide Inv, Enabled, Apply, Later;
    if tr != [] {
      StepInv(s, tr[0]);
      LaterStep(st0, s.st, Apply(s, tr[0]).st, ActorOf(tr[0]));
      RunLaterFrom(st0, Apply(s, tr[0]), tr[1..]);
    }
  }

  /** s can be reached, and s' from it. */
  ghost predicate Follows(s: State, s': State) {
    Reachable(s) && exists tr :: Run(s, tr) && Exec(s, tr) == s'
  }

  lemma FollowsLater(s: State, s': State)
    requires Follows(s, s')
    ensures Inv(s) && Inv(s') && Later(s.st, s'.st)
  {
    ReachableInv(s);
    EvolveRefl(s.st, None);
    assert Later(s.st, s.st);
    var tr :| Run(s, tr) && Exec(s, tr) == s';
    RunLaterFrom(s.st, s, tr);
  }

  // ---- Exclusion -----------------------------------------------------------------------

  /** Live occupations of one technician or bay never overlap, however stale the picks. */
  lemma LiveDisjoint(s: State, i: OccId, j: OccId)
    requires Reachable(s) && i != j && Live(s.st.occs, i) && Live(s.st.occs, j)
    requires i.side == j.side && s.st.occs[i].resource == s.st.occs[j].resource
    ensures s.st.occs[i].end <= s.st.occs[j].start || s.st.occs[j].end <= s.st.occs[i].start
  {
    ReachableInv(s);
    assert !Blocks(s.st.occs, j, i.side, s.st.occs[i].resource, s.st.occs[i].start, s.st.occs[i].end);
  }

  /** A constraint violation (23P01) has a witness: a live overlapping occupation of the
      picked resource, inserted after the pick had looked at the table. */
  lemma CollisionWitness(s: State, q: Id) returns (id: OccId)
    requires Reachable(s) && q in s.reqs && s.reqs[q].pc.Put? && Books(s.reqs[q].kind)
    requires var pc := s.reqs[q].pc;
             !Free(s.st.occs, SideOf(pc.prior), pc.resource, s.reqs[q].kind.body.start, pc.end)
    ensures var pc := s.reqs[q].pc;
            && Blocks(s.st.occs, id, SideOf(pc.prior), pc.resource, s.reqs[q].kind.body.start, pc.end)
            && id in s.st.claims && id !in pc.seen
  {
    ReachableInv(s);
    var pc, start := s.reqs[q].pc, s.reqs[q].kind.body.start;
    assert Local(s.st, q, s.reqs[q].kind, pc);
    id :| id in s.st.occs && Blocks(s.st.occs, id, SideOf(pc.prior), pc.resource, start, pc.end);
  }

  // ---- Claims and rows -----------------------------------------------------------------

  /** No orphaned confirmed claim: a CONFIRMED occupation is stored on exactly one row. */
  lemma ConfirmedIsNamed(s: State, id: OccId) returns (r: Id)
    requires Reachable(s) && id in s.st.occs && s.st.occs[id].status.OccConfirmed?
    ensures r in s.st.rows && Names(s.st.rows[r], id)
    ensures forall x | x in s.st.rows && Names(s.st.rows[x], id) :: x == r
  {
    ReachableInv(s);
    assert ClaimOk(s.st, id);
    r := s.st.claims[id].row.value;
    assert RowOk(s.st, r);
    forall x | x in s.st.rows && Names(s.st.rows[x], id)
      ensures x == r
    {
      assert RowOk(s.st, x);
    }
  }

  /** So a live occupation that no row stores is HELD, and its TTL frees it: after 120 s it
      can no longer be confirmed, and the next reap deletes it. */
  lemma UnnamedGoesAtTtl(s: State, id: OccId, now: int)
    requires Reachable(s) && Live(s.st.occs, id)
    requires forall r | r in s.st.rows :: !Names(s.st.rows[r], id)
    requires id in s.st.claims && s.st.claims[id].at + 120_000_000 <= now
    ensures s.st.occs[id].status.OccHeld? && s.st.occs[id].expires == Some(s.st.claims[id].at + 120_000_000)
    ensures !Confirmable(s.st.occs, now, id) && id !in Reap(s.st.occs, now, id.side)
  {
    ReachableInv(s);
    assert ClaimOk(s.st, id);
    if s.st.occs[id].status.OccConfirmed? {
      var r := ConfirmedIsNamed(s, id);
    }
  }

  /** Row and occupations agree on resource and interval for as long as they exist. */
  lemma ThreeWayAgreement(s: State, r: Id)
    requires Reachable(s) && r in s.st.rows
    ensures var row := s.st.rows[r];
            && (row.techOcc.Some? <==> row.bayOcc.Some?)
            && (row.techOcc.Some? && row.techOcc.value in s.st.occs ==>
                  var o := s.st.occs[row.techOcc.value];
                  row.techOcc.value.side == Tech && o.resource == row.tech && o.start == row.start && o.end == row.end)
            && (row.bayOcc.Some? && row.bayOcc.value in s.st.occs ==>
                  var o := s.st.occs[row.bayOcc.value];
                  row.bayOcc.value.side == Bay && o.resource == row.bay && o.start == row.start && o.end == row.end)
  {
    ReachableInv(s);
    var b := s.st.birth[r];
    assert RowOk(s.st, r);
    assert ClaimOk(s.st, b.techOcc.value) && ClaimOk(s.st, b.bayOcc.value);
  }

  /** Two rows never share an occupation. */
  lemma NoSharedOccupation(s: State, x: Id, y: Id, id: OccId)
    requires Reachable(s) && x in s.st.rows && y in s.st.rows
    requires Names(s.st.rows[x], id) && Names(s.st.rows[y], id)
    ensures x == y
  {
    ReachableInv(s);
    assert RowOk(s.st, x) && RowOk(s.st, y);
  }

  function OccRank(s: OccStatus): nat {
    match s case OccHeld => 0 case OccConfirmed => 1 case OccReleased => 2
  }

  function RowRank(s: RowStatus): nat {
    match s case Held => 0 case Confirmed => 1 case Cancelled => 2
  }

  /** Same resource, same interval, status no earlier; and only HELD rows are ever deleted. */
  predicate OccFrozen(st: Stores, st': Stores, id: OccId)
    requires id in st.occs
  {
    if id in st'.occs then
      var o, o' := st.occs[id], st'.occs[id];
      o'.resource == o.resource && o'.start == o.start && o'.end == o.end && OccRank(o.status) <= OccRank(o'.status)
    else st.occs[id].status.OccHeld?
  }

  lemma OccLater(st: Stores, st': Stores, id: OccId)
    requires ClaimsOk(st) && ClaimsOk(st') && Later(st, st') && id in st.occs
    ensures OccFrozen(st, st', id)
  {
    assert id in st.claims && ClaimOk(st, id) && ClaimLater(st, st', id) && ClaimOk(st', id);
  }

  /** Nothing ever moves an occupation or an appointment, or turns its status back. */
  lemma Frozen(s: State, s': State)
    requires Follows(s, s')
    ensures forall id | id in s.st.occs :: OccFrozen(s.st, s'.st, id)
    ensures forall r | r in s.st.rows ::
              && r in s'.st.rows && SameFrozen(s.st.rows[r], s'.st.rows[r])
              && RowRank(s.st.rows[r].status) <= RowRank(s'.st.rows[r].status)
  {
    FollowsLater(s, s');
    hide ClaimLater, Reachable, RowOk, ClaimOk, Local;
    forall id | id in s.st.occs
      ensures OccFrozen(s.st, s'.st, id)
    {
      OccLater(s.st, s'.st, id);
    }
    forall r | r in s.st.rows
      ensures && r in s'.st.rows && SameFrozen(s.st.rows[r], s'.st.rows[r])
              && RowRank(s.st.rows[r].status) <= RowRank(s'.st.rows[r].status)
    {
      assert RowEvolves(s.st, s'.st, r);
    }
  }

  /** The cleared-ids marker is sound: both occupations the row ever named are dead, and
      stay so whatever an in-flight confirmer, canceller or sweeper still does. */
  lemma ClearedForever(s: State, s': State, r: Id)
    requires Follows(s, s') && r in s.st.rows && Cleared(s.st.rows[r])
    ensures r in s'.st.rows && s'.st.rows[r].status.Cancelled? && Cleared(s'.st.rows[r])
    ensures DeadHalf(s'.st, r, Tech) && DeadHalf(s'.st, r, Bay)
    ensures r in s.st.birth && r in s'.st.birth && s'.st.birth[r] == s.st.birth[r]
  {
    FollowsLater(s, s');
    assert RowOk(s.st, r) && RowEvolves(s.st, s'.st, r);
    assert ClaimLater(s.st, s'.st, s.st.birth[r].techOcc.value);
    assert ClaimLater(s.st, s'.st, s.st.birth[r].bayOcc.value);
  }

  /** Cancel wins against any number of confirmers: once its update and both its Releases
      have succeeded, the row stays CANCELLED and both occupations stay dead. */
  lemma CancelIsFinal(s: State, s': State, q: Id, r: Id)
    requires Follows(s, s') && q in s.reqs && s.reqs[q].pc == Done(CancelDone(r, true, true))
    ensures r in s'.st.rows && s'.st.rows[r].status.Cancelled?
    ensures DeadHalf(s'.st, r, Tech) && DeadHalf(s'.st, r, Bay)
    ensures r in s.st.birth && r in s'.st.birth && s'.st.birth[r] == s.st.birth[r]
  {
    FollowsLater(s, s');
    assert Local(s.st, q, s.reqs[q].kind, s.reqs[q].pc);
    assert RowOk(s.st, r) && RowEvolves(s.st, s'.st, r);
    assert ClaimLater(s.st, s'.st, s.st.birth[r].techOcc.value);
    assert ClaimLater(s.st, s'.st, s.st.birth[r].bayOcc.value);
  }

  /** A Release of a cancel that takes effect, answered or not, kills its half of the row for good,
      whatever the answer of the cancel says. */
  lemma CancelReleaseKills(s: State, s': State, q: Id, ch: Choice)
    requires Reachable(s) && q in s.reqs && s.reqs[q].kind.CancelReq?
        && (s.reqs[q].pc.CancelBay? || s.reqs[q].pc.CancelTech?)
    requires ch.reply != Failed && Enabled(s, Call(q, ch)) && Follows(Apply(s, Call(q, ch)), s')
    ensures DeadHalf(s'.st, s.reqs[q].kind.row, if s.reqs[q].pc.CancelBay? then Bay else Tech)
  {
    hide Reachable, Follows, ChoiceOk, StoreInv, LocalCancel, Later, DeadHalf, MoveAny;
    ReachableInv(s);
    FollowsLater(Apply(s, Call(q, ch)), s');
    var kind, pc := s.reqs[q].kind, s.reqs[q].pc;
    assert Local(s.st, q, kind, pc);
    EffectiveRelease(s.st, q, kind, pc, ch);
    DeadHalfLater(Apply(s, Call(q, ch)).st, s'.st, kind.row, if pc.CancelBay? then Bay else Tech);
  }

  lemma EffectiveRelease(st: Stores, q: Id, kind: Kind, pc: Pc, ch: Choice)
    requires kind.CancelReq? && (pc.CancelBay? || pc.CancelTech?) && ch.reply != Failed && ChoiceOk(st, kind, pc, ch)
    requires LocalCancel(st, kind, pc) && StoreInv(st)
    ensures var st' := MoveAny(st, q, kind, pc, ch).st;
            kind.row in st'.rows && DeadHalf(st', kind.row, if pc.CancelBay? then Bay else Tech)
  {
    hide StoreInv, CopyOf, DeadHalf, ChoiceOk, ReleaseOcc, Evolve;
    hide MoveReserve, MovePromote, MoveRelease, MoveBook, MoveHold, MoveSweep;
    if pc.CancelBay? {
      CopyReleaseOk(st, q, kind.row, pc.techId, pc.bayId, Bay, ch.reply);
    } else {
      var b :| CopyOf(st, kind.row, pc.techId, b);
      CopyReleaseOk(st, q, kind.row, pc.techId, b, Tech, ch.reply);
    }
    ReleaseKeepsRows(st, if pc.CancelBay? then pc.bayId else pc.techId, ch.reply);
  }

  lemma ReleaseKeepsRows(st: Stores, id: Option<OccId>, reply: Reply)
    ensures ReleaseOpt(st, id, reply).rows == st.rows
  {
  }

  lemma DeadHalfLater(st: Stores, st': Stores, r: Id, side: Side)
    requires r in st.rows && DeadHalf(st, r, side) && Later(st, st')
    ensures DeadHalf(st', r, side)
  {
    assert RowEvolves(st, st', r);
    var half := if side == Tech then st.birth[r].techOcc else st.birth[r].bayOcc;
    assert ClaimLater(st, st', half.value);
  }

  // ---- Expiry across the three stores --------------------------------------------------

  /** The technician's hold runs out no later than the bay's, and that no later than the row's. */
  lemma ExpiriesNest(s: State, r: Id)
    requires Reachable(s) && r in s.st.rows
    ensures r in s.st.birth
    ensures var b := s.st.birth[r];
            && b.techOcc.Some? && b.bayOcc.Some? && b.expires.Some?
            && b.techOcc.value in s.st.claims && b.bayOcc.value in s.st.claims
            && s.st.claims[b.techOcc.value].at <= s.st.claims[b.bayOcc.value].at <= b.expires.value - 120_000_000
  {
    ReachableInv(s);
    assert RowOk(s.st, r);
  }

  /** A row that is CONFIRMED had each occupation confirmed within 120 s of its own Reserve,
      although the row's own update looks at no clock; and no reaper ever takes them. */
  lemma ConfirmedInTime(s: State, s': State, r: Id)
    requires Follows(s, s') && r in s.st.rows && s.st.rows[r].status.Confirmed?
    ensures r in s.st.birth
    ensures var b := s.st.birth[r];
            && b.techOcc.Some? && b.bayOcc.Some?
            && forall id | id in {b.techOcc.value, b.bayOcc.value} ::
                 && id in s.st.claims && s.st.claims[id].confirmedAt.Some?
                 && s.st.claims[id].at <= s.st.claims[id].confirmedAt.value < s.st.claims[id].at + 120_000_000
                 && id in s'.st.occs && !s'.st.occs[id].status.OccHeld?
                 && id in Reap(s'.st.occs, s'.st.now, id.side)
  {
    FollowsLater(s, s');
    var b := s.st.birth[r];
    assert RowOk(s.st, r);
    forall id | id in {b.techOcc.value, b.bayOcc.value}
      ensures && id in s.st.claims && s.st.claims[id].confirmedAt.Some?
              && s.st.claims[id].at <= s.st.claims[id].confirmedAt.value < s.st.claims[id].at + TTL
              && id in s'.st.occs && !s'.st.occs[id].status.OccHeld?
    {
      assert ClaimOk(s.st, id) && ClaimLater(s.st, s'.st, id) && ClaimOk(s'.st, id);
    }
  }

  /** The sweeper cancels no HELD row that still has an unexpired HELD occupation. */
  lemma SweeperSparesUnexpired(s: State, r: Id, id: OccId)
    requires Reachable(s) && Sweepable(s.st, r) && Names(s.st.rows[r], id)
    requires id in s.st.occs && s.st.occs[id].status.OccHeld?
    ensures Expired(s.st.occs[id], s.st.now) && !Confirmable(s.st.occs, s.st.now, id)
  {
    ReachableInv(s);
    assert RowOk(s.st, r) && ClaimOk(s.st, id);
  }

  // ---- Idempotency ---------------------------------------------------------------------

  /** One key, one CONFIRMED appointment, however many same-key requests race. */
  lemma OneRowPerKey(s: State, x: Id, y: Id)
    requires Reachable(s) && x in s.st.rows && y in s.st.rows
    requires s.st.rows[x].status.Confirmed? && s.st.rows[y].status.Confirmed?
    requires s.st.rows[x].key.Some? && s.st.rows[x].key == s.st.rows[y].key
    ensures x == y
  {
    ReachableInv(s);
  }

  predicate NulFreeBody(body: Body) {
    Fingerprint.AllNulFree(Fingerprint.Fields("", body.who.dealership, body.who.customer, body.who.vehicle,
        body.who.service, body.startText))
  }

  /** A request at the lookup ends there. */
  lemma ReplayAtLookup(s: State, s': State, r: Id, key: string, first: Body, q: Id, ch: Choice)
    requires Follows(s, s') && r in s.st.rows && s.st.rows[r].status.Confirmed?
    requires key != "" && s.st.rows[r].key == Some(key) && s.st.rows[r].finger == Some(DirectPrint(first))
    requires s'.st.rows.Keys >= {r} && s'.st.rows[r].status.Confirmed?
    requires q in s'.reqs && s'.reqs[q].kind.DirectReq? && s'.reqs[q].kind.key == key && s'.reqs[q].pc == Lookup
    requires ch.reply == Ok && Enabled(s', Call(q, ch))
    requires NulFreeBody(first) && NulFreeBody(s'.reqs[q].kind.body)
    ensures var body, after := s'.reqs[q].kind.body, Apply(s', Call(q, ch));
            && after.st == s'.st
            && after.reqs[q].pc == Done(if body.who == first.who && body.startText == first.startText
                then Replayed(r) else Conflict)
  {
    hide  ChoiceOk, MoveReserve, MovePromote, MoveRelease, MoveHold, MoveCancel, MoveSweep;
    KeyKept(s, s', r);
    hide Follows, UniqueKeys, DirectPrint, ChoiceOk, NulFreeBody, MoveBook;
    hide MoveReserve, MovePromote, MoveRelease, MoveHold, MoveCancel, MoveSweep;
    ReplayMove(s'.st, q, s'.reqs[q].kind, r, first, ch);
  }

  /** Replay is a no-op over any intervening run. In s, row r has been booked under a key with body
      `first`. In any later state s' a direct request with this key begins; others may take any steps
      before its first call; if r is still CONFIRMED then, and the call is answered, the request is
      over and has changed no store: it replays r if its fields are the same, and conflicts, having
      reserved nothing, if they differ. */
  lemma ReplayIsNoOp(s: State, s': State, r: Id, key: string, first: Body, q: Id, body: Body, between: seq<Step>,
      ch: Choice)
    requires Follows(s, s') && r in s.st.rows && s.st.rows[r].status.Confirmed? && key != ""
    requires s.st.rows[r].key == Some(key) && s.st.rows[r].finger == Some(DirectPrint(first))
    requires q !in s'.reqs && Run(s', [Begin(q, DirectReq(key, body))] + between)
    requires forall step | step in between :: ByOthers(step, q)
    requires var met := Exec(s', [Begin(q, DirectReq(key, body))] + between);
             && r in met.st.rows && met.st.rows[r].status.Confirmed?
             && ch.reply == Ok && Enabled(met, Call(q, ch))
    requires NulFreeBody(first) && NulFreeBody(body)
    ensures var met := Exec(s', [Begin(q, DirectReq(key, body))] + between);
            var after := Apply(met, Call(q, ch));
            && after.st == met.st && q in after.reqs
            && after.reqs[q].pc == Done(if body.who == first.who && body.startText == first.startText
                then Replayed(r) else Conflict)
  {
    hide Follows, NulFreeBody, DirectPrint, MoveAny, ChoiceOk, Fits;
    var begun, kind := [Begin(q, DirectReq(key, body))], DirectReq(key, body);
    RunPrefix(s', begun, between);
    Begun(s', q, kind);
    Untouched(Exec(s', begun), between, q);
    FollowsOn(s, s', begun + between);
    ReplayAtLookup(s, Exec(s', begun + between), r, key, first, q, ch);
  }

  lemma Begun(s: State, q: Id, kind: Kind)
    requires Run(s, [Begin(q, kind)])
    ensures q in Exec(s, [Begin(q, kind)]).reqs && Exec(s, [Begin(q, kind)]).reqs[q] == Req(kind, StartPc(kind))
  {
    assert [Begin(q, kind)][1..] == [];
  }

  lemma FollowsOn(s: State, s': State, tr: seq<Step>)
    requires Follows(s, s') && Run(s', tr)
    ensures Follows(s, Exec(s', tr))
  {
    var before :| Run(s, before) && Exec(s, before) == s';
    RunAppend(s, before, tr);
  }

  lemma KeyKept(s: State, s': State, r: Id)
    requires Follows(s, s') && r in s.st.rows && s.st.rows[r].status.Confirmed?
    ensures UniqueKeys(s'.st)
    ensures r in s'.st.rows && s'.st.rows[r].key == s.st.rows[r].key && s'.st.rows[r].finger == s.st.rows[r].finger
  {
    FollowsLater(s, s');
    assert RowEvolves(s.st, s'.st, r);
  }

  lemma ReplayMove(st: Stores, q: Id, kind: Kind, r: Id, first: Body, ch: Choice)
    requires UniqueKeys(st) && r in st.rows && st.rows[r].status.Confirmed? && kind.DirectReq? && ch.reply == Ok
    requires st.rows[r].key == Some(kind.key) && st.rows[r].finger == Some(DirectPrint(first))
    requires NulFreeBody(first) && NulFreeBody(kind.body)
    ensures MoveBook(st, q, kind, Lookup, ch) ==
            Move(st, Done(if kind.body.who == first.who && kind.body.startText == first.startText then Replayed(r)
                else Conflict))
  {
    var body := kind.body;
    assert r in Holders(st, kind.key);
    var hit := ByKey(st, kind.key);
    assert hit == Some(r);
    if DirectPrint(body) == DirectPrint(first) {
      var f, g := Fingerprint.Fields("", body.who.dealership, body.who.customer, body.who.vehicle, body.who.service,
          body.startText),
                  Fingerprint.Fields("", first.who.dealership, first.who.customer, first.who.vehicle,
                      first.who.service, first.startText);
      Fingerprint.EncodeInjective(f, g);
      assert f[1] == g[1] && f[2] == g[2] && f[3] == g[3] && f[4] == g[4] && f[5] == g[5];
    }
  }

  /** The premise of ReplayIsNoOp is what the update of a direct booking leaves behind whenever it
      takes effect, also if its answer is lost and the request only learns of it by its re-read. */
  lemma BookingBindsKey(s: State, q: Id, ch: Choice)
    requires q in s.reqs && s.reqs[q].kind.DirectReq? && s.reqs[q].pc.Flip? && Enabled(s, Call(q, ch))
    requires ch.reply != Failed && CanPromote(s.st, s.reqs[q].pc.row, s.reqs[q].kind.key)
    ensures var kind, r, after := s.reqs[q].kind, s.reqs[q].pc.row, Apply(s, Call(q, ch));
            && r in after.st.rows && after.st.rows[r].status.Confirmed?
            && after.st.rows[r].key == NullIf(kind.key) && after.st.rows[r].finger == Some(DirectPrint(kind.body))
            && after.reqs[q].pc == if ch.reply == Ok then FinalGet(r)
                else Reread(r, s.reqs[q].pc.tech, s.reqs[q].pc.bay, false)
  {
    var b := s.reqs[q].kind.body;
    Fingerprint.PrintNotEmpty("", b.who.dealership, b.who.customer, b.who.vehicle, b.who.service, b.startText);
  }

  /** The same for a hold: confirming a hold that is already CONFIRMED changes no store. It
      replays the row, unless its key belongs to another CONFIRMED appointment. */
  lemma HoldReplayIsNoOp(s: State, q: Id, ch: Choice)
    requires Reachable(s) && q in s.reqs && s.reqs[q].kind.PromoteReq? && (s.reqs[q].pc.Load? || s.reqs[q].pc.KeyCheck?)
    requires ch.reply == Ok && Enabled(s, Call(q, ch))
    requires s.reqs[q].kind.row in s.st.rows && s.st.rows[s.reqs[q].kind.row].status.Confirmed?
    ensures var kind, after := s.reqs[q].kind, Apply(s, Call(q, ch));
            && after.st == s.st
            && after.reqs[q].pc ==
               if s.reqs[q].pc.Load? then (if kind.key == "" then Done(Replayed(kind.row)) else KeyCheck)
               else Done(if Holders(s.st, kind.key) - {kind.row} == {} then Replayed(kind.row) else Conflict)
  {
    hide Reachable, Inv, UniqueKeys, Holders, ChoiceOk, MoveHold, MoveReserve, MoveBook, MovePromote, MoveRelease,
        MoveCancel, MoveSweep;
    KeysUnique(s);
    HoldReplayMove(s.st, s.reqs[q].kind, s.reqs[q].pc, ch);
  }

  lemma KeysUnique(s: State)
    requires Reachable(s)
    ensures UniqueKeys(s.st)
  {
    ReachableInv(s);
  }

  lemma HoldReplayMove(st: Stores, kind: Kind, pc: Pc, ch: Choice)
    requires UniqueKeys(st) && kind.PromoteReq? && (pc.Load? || pc.KeyCheck?) && ch.reply == Ok
    requires kind.row in st.rows && st.rows[kind.row].status.Confirmed?
    ensures MoveHold(st, kind, pc, ch) ==
            Move(st, if pc.Load? then (if kind.key == "" then Done(Replayed(kind.row)) else KeyCheck)
                     else Done(if Holders(st, kind.key) - {kind.row} == {} then Replayed(kind.row) else Conflict))
  {
    if pc.KeyCheck? {
      var hit := ByKey(st, kind.key);
      assert forall x | x in Holders(st, kind.key) :: hit == Some(x);
      assert hit.Some? && hit.value != kind.row ==> hit.value in Holders(st, kind.key) - {kind.row};
    }
  }

  // ---- Capacity ------------------------------------------------------------------------

  /** The live occupations of `resources` on one side that cover instant x. */
  function Covering(t: Table, side: Side, resources: set<Id>, x: int): set<OccId> {
    set id | id in t && id.side == side && Live(t, id) && t[id].resource in resources && t[id].start <= x < t[id].end
  }

  /** At any instant no more bays (or technicians) are occupied than there are. */
  lemma CapacityBound(s: State, side: Side, resources: set<Id>, x: int)
    requires Reachable(s)
    ensures |Covering(s.st.occs, side, resources, x)| <= |resources|
  {
    ReachableInv(s);
    var t := s.st.occs;
    var ids := Covering(t, side, resources, x);
    forall i, j | i in ids && j in ids && i != j
      ensures t[i].resource != t[j].resource
    {
      assert !Blocks(t, j, i.side, t[i].resource, t[i].start, t[i].end);
    }
    Pigeonhole(t, ids, resources);
  }

  lemma {:induction false} Pigeonhole(t: Table, ids: set<OccId>, resources: set<Id>)
    requires forall id | id in ids :: id in t && t[id].resource in resources
    requires forall i, j | i in ids && j in ids && i != j :: t[i].resource != t[j].resource
    ensures |ids| <= |resources|
    decreases |ids|
  {
    if ids != {} {
      var id :| id in ids;
      Pigeonhole(t, ids - {id}, resources - {t[id].resource});
    }
  }
}
