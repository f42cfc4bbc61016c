/** The three databases behind one write path, and the statements run on them.

    `occs` holds both occupation tables (the key names the allocator) and `rows` the
    appointments. Two history variables, which no statement reads, let invariants
    speak about the past: `claims` remembers every occupation ever inserted, and
    `birth` every appointment as it was inserted. */
module Stores {
  import opened Wrappers
  import opened Allocator

  datatype Who = Who(dealership: string, customer: string, vehicle: string, service: string)

  datatype RowStatus = Held | Confirmed | Cancelled

  datatype Row = Row(
    who: Who, tech: Id, bay: Id, techOcc: Option<OccId>, bayOcc: Option<OccId>,
    start: int, end: int, status: RowStatus, expires: Option<int>,
    key: Option<string>, finger: Option<string>)

  /** What Reserve wrote, when and for which request; then the row that names the
      occupation, the time of its first Confirm, and whether the id ever reached Booking. */
  datatype Claim = Claim(
    resource: Id, start: int, end: int, at: int, owner: Id,
    row: Option<Id>, confirmedAt: Option<int>, lost: bool)

  datatype Stores = Stores(
    now: int, occs: Table, claims: map<OccId, Claim>, rows: map<Id, Row>, birth: map<Id, Row>)

  const EMPTY := Stores(0, map[], map[], map[], map[])

  // ---- Statements ----------------------------------------------------------------

  function InsertOcc(st: Stores, id: OccId, resource: Id, start: int, end: int, owner: Id, lost: bool): Stores {
    st.(occs := st.occs[id := Hold(resource, start, end, st.now)],
        claims := st.claims[id := Claim(resource, start, end, st.now, owner, None, None, lost)])
  }

  function ConfirmOcc(st: Stores, id: OccId): Stores {
    if Confirmable(st.occs, st.now, id) && id in st.claims then
      var c := st.claims[id];
      st.(occs := Confirm(st.occs, st.now, id),
          claims := st.claims[id := c.(confirmedAt := if c.confirmedAt.None? then Some(st.now) else c.confirmedAt)])
    else st
  }

  function ReleaseOcc(st: Stores, id: OccId): Stores {
    st.(occs := Release(st.occs, id))
  }

  function ReapOccs(st: Stores, side: Side): Stores {
    st.(occs := Reap(st.occs, st.now, side))
  }

  /** InsertHeld: always HELD, expiring 120 s from now, no idempotency fields. */
  function InsertRow(st: Stores, r: Id, who: Who, t: OccId, tech: Id, b: OccId, bay: Id, start: int, end: int): Stores
  {
    var row := Row(who, tech, bay, Some(t), Some(b), start, end, Held, Some(st.now + TTL), None, None);
    st.(rows := st.rows[r := row],
        birth := st.birth[r := row],
        claims := map id | id in st.claims ::
                    if id == t || id == b then st.claims[id].(row := Some(r)) else st.claims[id])
  }

  function NullIf(s: string): Option<string> {
    if s == "" then None else Some(s)
  }

  /** Another CONFIRMED row already carries this key: the partial unique index refuses. */
  predicate KeyTaken(st: Stores, r: Id, key: string) {
    key != "" && exists x :: x in st.rows && x != r && st.rows[x].status.Confirmed? && st.rows[x].key == Some(key)
  }

  predicate CanPromote(st: Stores, r: Id, key: string) {
    r in st.rows && st.rows[r].status.Held? && !KeyTaken(st, r, key)
  }

  function PromoteRow(st: Stores, r: Id, key: string, finger: string): Stores {
    if CanPromote(st, r, key) then
      st.(rows := st.rows[r := st.rows[r].(status := Confirmed, expires := None, key := NullIf(key),
          finger := NullIf(finger))])
    else st
  }

  function AsCancelled(row: Row): Row {
    if row.status.Cancelled? then row else row.(status := Cancelled, expires := None)
  }

  /** One UPDATE that cancels every row of `batch`. */
  function CancelRows(st: Stores, batch: set<Id>): Stores {
    st.(rows := map r | r in st.rows :: if r in batch then AsCancelled(st.rows[r]) else st.rows[r])
  }

  function ClearRow(st: Stores, r: Id): Stores {
    if r in st.rows && st.rows[r].status.Cancelled? then
      st.(rows := st.rows[r := st.rows[r].(techOcc := None, bayOcc := None)])
    else st
  }

  function Advance(st: Stores, to: int): Stores {
    st.(now := to)
  }

  // ---- What holds of the stores under any faults ------------------------------------

  /** RELEASED, deleted by a reaper, or never inserted. */
  predicate Dead(st: Stores, id: OccId) {
    !Live(st.occs, id)
  }

  /** Never confirmed, and no Confirm can succeed any more. */
  ghost predicate Hopeless(st: Stores, id: OccId) {
    id in st.claims && st.claims[id].confirmedAt.None? && !Confirmable(st.occs, st.now, id)
  }

  predicate Names(row: Row, id: OccId) {
    row.techOcc == Some(id) || row.bayOcc == Some(id)
  }

  ghost predicate ClaimOk(st: Stores, id: OccId)
    requires id in st.claims
  {
    var c := st.claims[id];
    && c.start < c.end && c.at <= st.now
    && (c.row.Some? ==> !c.lost && c.row.value in st.birth && Names(st.birth[c.row.value], id))
    && (c.confirmedAt.Some? ==>
          && c.row.Some? && id in st.occs && !st.occs[id].status.OccHeld?
          && c.at <= c.confirmedAt.value < c.at + TTL)
    && (id in st.occs ==>
          var o := st.occs[id];
          && o.resource == c.resource && o.start == c.start && o.end == c.end
          && (o.status.OccHeld? ==> o.expires == Some(c.at + TTL))
          && (o.status.OccConfirmed? ==> c.confirmedAt.Some?))
  }

  /** Occupation `id` is the `side` half of row `r`: same resource, same interval. */
  ghost predicate HalfOk(st: Stores, r: Id, id: OccId, side: Side, resource: Id)
    requires r in st.birth
  {
    && id.side == side && id in st.claims
    && var c := st.claims[id];
       c.row == Some(r) && c.resource == resource && c.start == st.birth[r].start && c.end == st.birth[r].end
  }

  ghost predicate BirthOk(st: Stores, r: Id)
    requires r in st.birth
  {
    var b := st.birth[r];
    && b.techOcc.Some? && b.bayOcc.Some? && b.expires.Some? && b.start < b.end
    && HalfOk(st, r, b.techOcc.value, Tech, b.tech)
    && HalfOk(st, r, b.bayOcc.value, Bay, b.bay)
    && st.claims[b.techOcc.value].at <= st.claims[b.bayOcc.value].at <= b.expires.value - TTL <= st.now
  }

  predicate SameFrozen(x: Row, y: Row) {
    x.who == y.who && x.tech == y.tech && x.bay == y.bay && x.start == y.start && x.end == y.end
  }

  predicate Cleared(row: Row) {
    row.techOcc.None? && row.bayOcc.None?
  }

  ghost predicate RowOk(st: Stores, r: Id)
    requires r in st.rows && r in st.birth
  {
    var row, b := st.rows[r], st.birth[r];
    && BirthOk(st, r)
    && SameFrozen(row, b)
    && row.expires == (if row.status.Held? then b.expires else None)
    && (row.status.Held? ==> row.key.None?)
    && (row.status.Confirmed? ==>
          st.claims[b.techOcc.value].confirmedAt.Some? && st.claims[b.bayOcc.value].confirmedAt.Some?)
    && (|| (row.techOcc == b.techOcc && row.bayOcc == b.bayOcc)
        || (Cleared(row) && row.status.Cancelled? && Dead(st, b.techOcc.value) && Dead(st, b.bayOcc.value)))
  }

  ghost predicate UniqueKeys(st: Stores) {
    forall x, y | x in st.rows && y in st.rows && st.rows[x].status.Confirmed? && st.rows[y].status.Confirmed?
                  && st.rows[x].key.Some? && st.rows[x].key == st.rows[y].key :: x == y
  }

  ghost predicate ClaimsOk(st: Stores) {
    st.occs.Keys <= st.claims.Keys && forall id | id in st.claims :: ClaimOk(st, id)
  }

  ghost predicate RowsOk(st: Stores) {
    st.rows.Keys == st.birth.Keys && forall r | r in st.rows :: RowOk(st, r)
  }

  ghost predicate StoreInv(st: Stores) {
    ClaimsOk(st) && RowsOk(st) && Exclusive(st.occs) && UniqueKeys(st)
  }

  // ---- What a step of one request may do to what another one knows -------------------

  ghost predicate ClaimEvolves(st: Stores, st': Stores, id: OccId, actor: Option<Id>)
    requires id in st.claims
  {
    && id in st'.claims
    && var c, c' := st.claims[id], st'.claims[id];
       && c'.resource == c.resource && c'.start == c.start && c'.end == c.end
       && c'.at == c.at && c'.owner == c.owner && c'.lost == c.lost
       && (c.confirmedAt.Some? ==> c'.confirmedAt == c.confirmedAt)
       && (c.row.Some? ==> c'.row == c.row)
       && (Dead(st, id) ==> Dead(st', id))
       && (id in st.occs && st.occs[id].status.OccReleased? ==> id in st'.occs && st'.occs[id].status.OccReleased?)
       && (Hopeless(st, id) ==> Hopeless(st', id))
       && (c.row.None? && Some(c.owner) != actor ==>
             && c'.row.None?
             && (id in st'.occs && st'.occs[id].status.OccReleased? ==>
                   id in st.occs && st.occs[id].status.OccReleased?))
  }

  ghost predicate RowEvolves(st: Stores, st': Stores, r: Id)
    requires r in st.rows
  {
    && r in st'.rows && r in st.birth && r in st'.birth && st'.birth[r] == st.birth[r]
    && var x, x' := st.rows[r], st'.rows[r];
       && SameFrozen(x, x')
       && (x.status.Cancelled? ==> x'.status.Cancelled?)
       && (x'.status.Held? ==> x.status.Held? && x'.expires == x.expires)
       && (!x.status.Held? ==> x'.key == x.key && x'.finger == x.finger)
       && (Cleared(x) ==> Cleared(x'))
  }

  /** The guarantee every step by `actor` gives (`None`: a reaper or the clock), and so
      what every other request may rely on. */
  ghost predicate Evolve(st: Stores, st': Stores, actor: Option<Id>) {
    st.now <= st'.now && ClaimsEvolve(st, st', actor) && RowsEvolve(st, st') && NewClaims(st, st', actor)
  }

  /** Whoever inserts an occupation owns it. */
  ghost predicate NewClaims(st: Stores, st': Stores, actor: Option<Id>) {
    forall id | id in st'.claims && id !in st.claims :: Some(st'.claims[id].owner) == actor
  }

  ghost predicate ClaimsEvolve(st: Stores, st': Stores, actor: Option<Id>) {
    forall id | id in st.claims :: ClaimEvolves(st, st', id, actor)
  }

  ghost predicate RowsEvolve(st: Stores, st': Stores) {
    forall r | r in st.rows :: RowEvolves(st, st', r)
  }

  // ---- Every statement keeps the invariant and gives the guarantee --------------------

  /** Statements on the occupation tables leave the appointments in order. */
  lemma RowsKept(st: Stores, st': Stores, actor: Option<Id>)
    requires RowsOk(st) && UniqueKeys(st)
    requires st'.rows == st.rows && st'.birth == st.birth && st.now <= st'.now
    requires ClaimsEvolve(st, st', actor)
    ensures RowsOk(st') && UniqueKeys(st') && RowsEvolve(st, st')
  {
    hide ClaimEvolves;
    forall r | r in st.rows
      ensures RowOk(st', r)
    {
      RowKept(st, st', r, actor);
    }
  }

  lemma RowKept(st: Stores, st': Stores, r: Id, actor: Option<Id>)
    requires r in st.rows && r in st.birth && r in st'.rows && r in st'.birth && RowOk(st, r)
    requires st'.rows[r] == st.rows[r] && st'.birth[r] == st.birth[r] && st.now <= st'.now
    requires ClaimsEvolve(st, st', actor)
    ensures RowOk(st', r)
  {
    assert ClaimEvolves(st, st', st.birth[r].techOcc.value, actor);
    assert ClaimEvolves(st, st', st.birth[r].bayOcc.value, actor);
  }

  /** Statements on the appointments leave the occupations in order. */
  lemma ClaimsKept(st: Stores, st': Stores, actor: Option<Id>)
    requires ClaimsOk(st) && RowsOk(st)
    requires st' == st.(rows := st'.rows)
    ensures ClaimsOk(st') && ClaimsEvolve(st, st', actor)
  {
    forall id | id in st.claims
      ensures ClaimOk(st', id) && ClaimEvolves(st, st', id, actor)
    {
      assert ClaimOk(st, id);
    }
  }

  /** A table whose live occupations are among those of an exclusive table is exclusive. */
  lemma SubLive(t: Table, t': Table)
    requires Exclusive(t)
    requires forall id | id in t' :: id in t && (Live(t', id) ==> Live(t, id))
               && t'[id].resource == t[id].resource && t'[id].start == t[id].start && t'[id].end == t[id].end
    ensures Exclusive(t')
  {
    forall i, j | i in t' && j in t' && i != j && Live(t', i)
      ensures !Blocks(t', j, i.side, t'[i].resource, t'[i].start, t'[i].end)
    {
      assert Live(t, i);
      assert !Blocks(t, j, i.side, t[i].resource, t[i].start, t[i].end);
    }
  }

  /** The constraint-checked insert keeps the constraint. */
  lemma InsertExclusive(t: Table, id: OccId, o: Occ)
    requires Exclusive(t) && id !in t && Free(t, id.side, o.resource, o.start, o.end)
    ensures Exclusive(t[id := o])
  {
    var t' := t[id := o];
    forall i, j | i in t' && j in t' && i != j && Live(t', i)
      ensures !Blocks(t', j, i.side, t'[i].resource, t'[i].start, t'[i].end)
    {
      if i == id {
        assert !Blocks(t, j, id.side, o.resource, o.start, o.end);
      } else if j == id {
        assert !Blocks(t, i, id.side, o.resource, o.start, o.end);
      } else {
        assert !Blocks(t, j, i.side, t[i].resource, t[i].start, t[i].end);
      }
    }
  }

  lemma InsertOccOk(st: Stores, id: OccId, resource: Id, start: int, end: int, owner: Id, lost: bool)
    requires StoreInv(st) && id !in st.claims && start < end
    requires Free(st.occs, id.side, resource, start, end)
    ensures var st' := InsertOcc(st, id, resource, start, end, owner, lost);
            StoreInv(st') && Evolve(st, st', Some(owner))
  {
    hide ClaimEvolves, RowOk, RowEvolves;
    var st' := InsertOcc(st, id, resource, start, end, owner, lost);
    assert id !in st.occs;
    forall x | x in st.claims
      ensures ClaimOk(st', x) && ClaimEvolves(st, st', x, Some(owner))
    {
      InsertOccClaim(st, id, resource, start, end, owner, lost, x);
    }
    InsertExclusive(st.occs, id, Hold(resource, start, end, st.now));
    RowsKept(st, st', Some(owner));
  }

  lemma InsertOccClaim(st: Stores, id: OccId, resource: Id, start: int, end: int, owner: Id, lost: bool, x: OccId)
    requires x in st.claims && ClaimOk(st, x) && x != id
    ensures var st' := InsertOcc(st, id, resource, start, end, owner, lost);
            ClaimOk(st', x) && ClaimEvolves(st, st', x, Some(owner))
  {
  }

  lemma ConfirmOccOk(st: Stores, id: OccId, actor: Option<Id>)
    requires StoreInv(st) && id in st.claims && st.claims[id].row.Some?
    ensures var st' := ConfirmOcc(st, id);
            StoreInv(st') && Evolve(st, st', actor)
  {
    hide ClaimOk, RowOk, ClaimEvolves, RowEvolves;
    var st' := ConfirmOcc(st, id);
    forall x | x in st.claims
      ensures ClaimOk(st', x) && ClaimEvolves(st, st', x, actor)
    {
      ConfirmOccClaim(st, id, actor, x);
    }
    SubLive(st.occs, st'.occs);
    RowsKept(st, st', actor);
  }

  lemma ConfirmOccClaim(st: Stores, id: OccId, actor: Option<Id>, x: OccId)
    requires id in st.claims && st.claims[id].row.Some? && ClaimOk(st, id)
    requires x in st.claims && ClaimOk(st, x)
    ensures var st' := ConfirmOcc(st, id);
            ClaimOk(st', x) && ClaimEvolves(st, st', x, actor)
  {
  }

  /** A Confirm of any id at all: harmless if and only if, when it takes effect, some row names
      the occupation. */
  lemma ConfirmOccExact(st: Stores, id: OccId, actor: Option<Id>)
    requires StoreInv(st)
    ensures Confirmable(st.occs, st.now, id) ==> id in st.claims
    ensures var st' := ConfirmOcc(st, id);
            StoreInv(st') && Evolve(st, st', actor) <==>
            (Confirmable(st.occs, st.now, id) ==> st.claims[id].row.Some?)
  {
    if !Confirmable(st.occs, st.now, id) {
      EvolveRefl(st, actor);
    } else {
      hide RowOk, RowEvolves, ClaimEvolves, Exclusive, UniqueKeys;
      if st.claims[id].row.Some? {
        ConfirmOccOk(st, id, actor);
      } else {
        assert !ClaimOk(ConfirmOcc(st, id), id);
      }
    }
  }

  lemma ReleaseOccOk(st: Stores, id: OccId, actor: Option<Id>)
    requires StoreInv(st) && id in st.claims && (st.claims[id].row.Some? || Some(st.claims[id].owner) == actor)
    ensures var st' := ReleaseOcc(st, id);
            StoreInv(st') && Evolve(st, st', actor) && Dead(st', id)
  {
    hide ClaimOk, ClaimEvolves, RowOk, RowEvolves;
    var st' := ReleaseOcc(st, id);
    forall x | x in st.claims
      ensures ClaimOk(st', x) && ClaimEvolves(st, st', x, actor)
    {
      ReleaseOccClaim(st, id, actor, x);
    }
    SubLive(st.occs, st'.occs);
    RowsKept(st, st', actor);
  }

  lemma ReleaseOccClaim(st: Stores, id: OccId, actor: Option<Id>, x: OccId)
    requires id in st.claims && (st.claims[id].row.Some? || Some(st.claims[id].owner) == actor)
    requires x in st.claims && ClaimOk(st, x)
    ensures var st' := ReleaseOcc(st, id);
            ClaimOk(st', x) && ClaimEvolves(st, st', x, actor)
  {
  }

  /** A Release of any id at all keeps the invariant. It respects the others if and only if, when
      it takes effect, some row names the occupation or the releasing request owns it. */
  lemma ReleaseOccExact(st: Stores, id: OccId, actor: Option<Id>)
    requires StoreInv(st)
    ensures Live(st.occs, id) ==> id in st.claims
    ensures var st' := ReleaseOcc(st, id);
            && StoreInv(st') && Dead(st', id)
            && (Evolve(st, st', actor) <==>
                (Live(st.occs, id) ==> st.claims[id].row.Some? || Some(st.claims[id].owner) == actor))
  {
    if !Live(st.occs, id) {
      EvolveRefl(st, actor);
    } else {
      hide RowOk, RowEvolves, Exclusive, UniqueKeys, ClaimOk;
      ReleaseOccOk(st, id, Some(st.claims[id].owner));
      if st.claims[id].row.Some? || Some(st.claims[id].owner) == actor {
        ReleaseOccOk(st, id, actor);
      } else {
        assert !ClaimEvolves(st, ReleaseOcc(st, id), id, actor);
      }
    }
  }

  lemma ReapOccsOk(st: Stores, side: Side, actor: Option<Id>)
    requires StoreInv(st)
    ensures var st' := ReapOccs(st, side);
            StoreInv(st') && Evolve(st, st', actor)
  {
    hide ClaimOk, ClaimEvolves, RowOk, RowEvolves;
    var st' := ReapOccs(st, side);
    forall x | x in st.claims
      ensures ClaimOk(st', x) && ClaimEvolves(st, st', x, actor)
    {
      ReapOccClaim(st, side, actor, x);
    }
    SubLive(st.occs, st'.occs);
    RowsKept(st, st', actor);
  }

  lemma ReapOccClaim(st: Stores, side: Side, actor: Option<Id>, x: OccId)
    requires x in st.claims && ClaimOk(st, x)
    ensures var st' := ReapOccs(st, side);
            ClaimOk(st', x) && ClaimEvolves(st, st', x, actor)
  {
  }

  lemma AdvanceOk(st: Stores, to: int)
    requires StoreInv(st) && st.now <= to
    ensures StoreInv(Advance(st, to)) && Evolve(st, Advance(st, to), None)
  {
    hide ClaimOk, ClaimEvolves, RowOk, RowEvolves;
    var st' := Advance(st, to);
    forall x | x in st.claims
      ensures ClaimOk(st', x) && ClaimEvolves(st, st', x, None)
    {
      AdvanceClaim(st, to, x);
    }
    RowsKept(st, st', None);
  }

  lemma AdvanceClaim(st: Stores, to: int, x: OccId)
    requires st.now <= to && x in st.claims && ClaimOk(st, x)
    ensures ClaimOk(Advance(st, to), x) && ClaimEvolves(st, Advance(st, to), x, None)
  {
  }

  /** Claim `id` is `owner`'s, named by no row, and agrees with the row about to be written. */
  ghost predicate Unnamed(st: Stores, id: OccId, side: Side, owner: Id, resource: Id, start: int, end: int) {
    && id.side == side && id in st.claims
    && var c := st.claims[id];
       c.owner == owner && c.resource == resource && c.start == start && c.end == end && c.row.None? && !c.lost
  }

  lemma InsertRowOk(st: Stores, r: Id, who: Who, t: OccId, tech: Id, b: OccId, bay: Id, start: int, end: int, owner: Id)
    requires StoreInv(st) && r !in st.rows
    requires Unnamed(st, t, Tech, owner, tech, start, end) && Unnamed(st, b, Bay, owner, bay, start, end)
    requires st.claims[t].at <= st.claims[b].at
    ensures var st' := InsertRow(st, r, who, t, tech, b, bay, start, end);
            StoreInv(st') && Evolve(st, st', Some(owner))
  {
    hide ClaimEvolves, ClaimOk, RowOk;
    var st' := InsertRow(st, r, who, t, tech, b, bay, start, end);
    forall x | x in st.claims
      ensures ClaimOk(st', x) && ClaimEvolves(st, st', x, Some(owner))
    {
      InsertRowClaim(st, r, who, t, tech, b, bay, start, end, owner, x);
    }
    forall x | x in st.rows
      ensures RowOk(st', x) && RowEvolves(st, st', x)
    {
      RowKept(st, st', x, Some(owner));
    }
    InsertRowRow(st, r, who, t, tech, b, bay, start, end, owner);
  }

  lemma InsertRowRow(st: Stores, r: Id, who: Who, t: OccId, tech: Id, b: OccId, bay: Id, start: int, end: int,
      owner: Id)
    requires r !in st.birth
    requires Unnamed(st, t, Tech, owner, tech, start, end) && Unnamed(st, b, Bay, owner, bay, start, end)
    requires st.claims[t].at <= st.claims[b].at && ClaimOk(st, t) && ClaimOk(st, b)
    ensures RowOk(InsertRow(st, r, who, t, tech, b, bay, start, end), r)
  {
  }

  lemma InsertRowClaim(st: Stores, r: Id, who: Who, t: OccId, tech: Id, b: OccId, bay: Id, start: int, end: int,
      owner: Id, x: OccId)
    requires r !in st.birth
    requires Unnamed(st, t, Tech, owner, tech, start, end) && Unnamed(st, b, Bay, owner, bay, start, end)
    requires x in st.claims && ClaimOk(st, x)
    ensures var st' := InsertRow(st, r, who, t, tech, b, bay, start, end);
            ClaimOk(st', x) && ClaimEvolves(st, st', x, Some(owner))
  {
  }

  /** A statement that writes the one row r. */
  lemma OneRowKept(st: Stores, st': Stores, r: Id, actor: Option<Id>)
    requires ClaimsOk(st) && RowsOk(st) && r in st.rows
    requires st' == st.(rows := st'.rows) && st'.rows.Keys == st.rows.Keys
    requires forall x | x in st.rows && x != r :: st'.rows[x] == st.rows[x]
    requires RowOk(st', r) && RowEvolves(st, st', r)
    ensures ClaimsOk(st') && RowsOk(st') && ClaimsEvolve(st, st', actor) && RowsEvolve(st, st')
  {
    hide ClaimOk, ClaimEvolves, RowOk;
    ClaimsKept(st, st', actor);
    forall x | x in st.rows
      ensures RowOk(st', x) && RowEvolves(st, st', x)
    {
      if x != r { RowKept(st, st', x, actor); }
    }
  }

  lemma PromotedRow(st: Stores, r: Id, key: string, finger: string)
    requires r in st.rows && r in st.birth && RowOk(st, r)
    requires st.claims[st.birth[r].techOcc.value].confirmedAt.Some?
    requires st.claims[st.birth[r].bayOcc.value].confirmedAt.Some?
    ensures var st' := PromoteRow(st, r, key, finger);
            RowOk(st', r) && RowEvolves(st, st', r)
  {
    hide KeyTaken;
  }

  lemma PromoteRowOk(st: Stores, r: Id, key: string, finger: string, actor: Option<Id>)
    requires StoreInv(st)
    requires r in st.rows && r in st.birth && RowOk(st, r)
    requires st.claims[st.birth[r].techOcc.value].confirmedAt.Some?
    requires st.claims[st.birth[r].bayOcc.value].confirmedAt.Some?
    ensures var st' := PromoteRow(st, r, key, finger);
            StoreInv(st') && Evolve(st, st', actor)
  {
    hide ClaimsOk, RowsOk, RowOk, ClaimsEvolve, RowEvolves, RowsEvolve, UniqueKeys, Exclusive, KeyTaken;
    PromotedRow(st, r, key, finger);
    PromoteKeys(st, r, key, finger);
    OneRowKept(st, PromoteRow(st, r, key, finger), r, actor);
  }

  lemma PromoteKeys(st: Stores, r: Id, key: string, finger: string)
    requires UniqueKeys(st)
    ensures UniqueKeys(PromoteRow(st, r, key, finger))
  {
  }

  /** Cancelling leaves the ids set, for the sweeper to find. */
  lemma CancelRowsOk(st: Stores, batch: set<Id>, actor: Option<Id>)
    requires StoreInv(st)
    ensures var st' := CancelRows(st, batch);
            StoreInv(st') && Evolve(st, st', actor) && forall r | r in st.rows :: CancelledIf(st, st', r, r in batch)
  {
    hide ClaimOk, ClaimEvolves, RowOk, RowEvolves;
    var st' := CancelRows(st, batch);
    ClaimsKept(st, st', actor);
    forall x | x in st.rows
      ensures RowOk(st', x) && RowEvolves(st, st', x) && CancelledIf(st, st', x, x in batch)
    {
      CancelRowsRow(st, batch, x);
    }
  }

  /** Row r keeps its occupation ids, and its status unless it is cancelled. */
  predicate CancelledIf(st: Stores, st': Stores, r: Id, cancelled: bool)
    requires r in st.rows
  {
    && r in st'.rows && st'.rows[r].techOcc == st.rows[r].techOcc && st'.rows[r].bayOcc == st.rows[r].bayOcc
    && st'.rows[r].status == if cancelled then Cancelled else st.rows[r].status
  }

  lemma CancelRowsRow(st: Stores, batch: set<Id>, x: Id)
    requires x in st.rows && x in st.birth && RowOk(st, x)
    ensures var st' := CancelRows(st, batch);
            RowOk(st', x) && RowEvolves(st, st', x)
  {
  }

  lemma ClearedRow(st: Stores, r: Id)
    requires r in st.rows && r in st.birth && RowOk(st, r)
    requires Dead(st, st.birth[r].techOcc.value) && Dead(st, st.birth[r].bayOcc.value)
    ensures var st' := ClearRow(st, r);
            RowOk(st', r) && RowEvolves(st, st', r)
  {
  }

  /** Clearing is sound only once both occupations are dead. */
  lemma ClearRowOk(st: Stores, r: Id, actor: Option<Id>)
    requires StoreInv(st)
    requires r in st.rows && r in st.birth && RowOk(st, r)
    requires Dead(st, st.birth[r].techOcc.value) && Dead(st, st.birth[r].bayOcc.value)
    ensures var st' := ClearRow(st, r);
            StoreInv(st') && Evolve(st, st', actor)
  {
    hide ClaimsOk, RowsOk, RowOk, ClaimsEvolve, RowEvolves, RowsEvolve, UniqueKeys, Exclusive, Dead;
    ClearedRow(st, r);
    ClearedKeys(st, r);
    OneRowKept(st, ClearRow(st, r), r, actor);
  }

  lemma ClearedKeys(st: Stores, r: Id)
    requires UniqueKeys(st)
    ensures UniqueKeys(ClearRow(st, r))
  {
  }

  lemma EvolveRefl(st: Stores, actor: Option<Id>)
    requires StoreInv(st)
    ensures Evolve(st, st, actor)
  {
    forall r | r in st.rows
      ensures RowEvolves(st, st, r)
    {
      assert RowOk(st, r);
    }
  }
}
