/** Reserve inside one allocator: the claim query and its three-attempt loop. */
module Reserve {
  import opened Wrappers
  import opened Allocator
  import Hours
  import Stores

  // ---- Who is eligible -----------------------------------------------------------------

  datatype Span = Span(start: int, end: int)

  datatype Technician = Technician(
    id: Id, dealership: Id, active: bool, zone: int,
    skills: map<Id, nat>, shifts: map<int, Hours.Window>, absences: seq<Span>)

  datatype ServiceBay = ServiceBay(id: Id, dealership: Id, active: bool)

  /** Everything in the technician's claim query but the occupation clause. */
  predicate Qualified(t: Technician, dealership: Id, service: Id, start: int, latestEnd: int) {
    && t.dealership == dealership && t.active && service in t.skills
    && var end := start + t.skills[service] * Hours.MINUTE;
       && end <= latestEnd
       && Hours.ShiftAdmits(t.shifts, t.zone, start, end)
       && forall a | a in t.absences :: !Overlap(a.start, a.end, start, end)
  }

  function CandOf(t: Technician, service: Id, start: int): Cand
    requires service in t.skills
  {
    Cand(t.id, start + t.skills[service] * Hours.MINUTE)
  }

  function TechCands(roster: set<Technician>, dealership: Id, service: Id, start: int, latestEnd: int): set<Cand> {
    set t | t in roster && Qualified(t, dealership, service, start, latestEnd)
      :: CandOf(t, service, start)
  }

  /** A technician the query accepts for a start the shop accepts works inside opening hours. */
  lemma QualifiedInsideHours(t: Technician, hours: map<int, Hours.Window>, zone: int, dealership: Id, service: Id,
      start: int)
    requires Hours.WithinHours(hours, zone, start) && Hours.LatestEnd(hours, zone, start).Some?
    requires Qualified(t, dealership, service, start, Hours.LatestEnd(hours, zone, start).value)
        && t.skills[service] >= 1
    ensures var h, midnight := hours[Hours.IsoWeekday(start, zone)], Hours.LocalMidnight(start, zone);
            && midnight + h.from * Hours.MINUTE <= start
            && start < start + t.skills[service] * Hours.MINUTE <= midnight + h.to * Hours.MINUTE
  {
  }

  function BayCands(bays: set<ServiceBay>, dealership: Id, end: int): set<Cand> {
    set b | b in bays && b.dealership == dealership && b.active :: Cand(b.id, end)
  }

  // ---- What callers are promised, in bare terms ------------------------------------------

  /** The technician may do the job in [start, end). */
  ghost predicate Suits(t: Technician, dealership: Id, service: Id, start: int, end: int, latestEnd: int) {
    && t.dealership == dealership && t.active && service in t.skills
    && end == start + t.skills[service] * 60_000_000 && end <= latestEnd
    && Hours.ShiftAdmits(t.shifts, t.zone, start, end)
    && forall a | a in t.absences :: a.end <= start || end <= a.start
  }

  /** Nothing of the resource in [start, end) but what is released or has run out. */
  ghost predicate Unclaimed(t: Table, side: Side, resource: Id, start: int, end: int, now: int) {
    forall id | id in t && id.side == side && t[id].resource == resource && t[id].start < end && start < t[id].end ::
      || t[id].status.OccReleased?
      || (t[id].status.OccHeld? && t[id].expires.Some? && t[id].expires.value <= now)
  }

  /** Occupation `id` is a fresh 120 s hold, and no other live one of its resource meets it. */
  ghost predicate HeldFor(t: Table, id: OccId, resource: Id, start: int, end: int, now: int) {
    && id in t && t[id] == Occ(resource, start, end, OccHeld, Some(now + 120_000_000))
    && forall x | x in t && x != id && x.side == id.side && t[x].resource == resource && !t[x].status.OccReleased? ::
         t[x].end <= start || end <= t[x].start
  }

  lemma VacantIsUnclaimed(t: Table, side: Side, c: Cand, start: int, now: int)
    ensures Vacant(t, side, c, start, now) <==> Unclaimed(t, side, c.resource, start, c.end, now)
  {
    if Vacant(t, side, c, start, now) {
      forall id | id in t && id.side == side && t[id].resource == c.resource && t[id].start < c.end && start < t[id].end
        ensures t[id].status.OccReleased? || (t[id].status.OccHeld? && t[id].expires.Some?
            && t[id].expires.value <= now)
      {
        assert Live(t, id) ==> Blocks(t, id, side, c.resource, start, c.end);
      }
    }
  }

  lemma FreeIsHeldFor(t: Table, id: OccId, c: Cand, start: int, now: int)
    requires id in t && t[id] == Hold(c.resource, start, c.end, now)
    requires Free(t - {id}, id.side, c.resource, start, c.end)
    ensures HeldFor(t, id, c.resource, start, c.end, now)
  {
    forall x | x in t && x != id && x.side == id.side && t[x].resource == c.resource && !t[x].status.OccReleased?
      ensures t[x].end <= start || c.end <= t[x].start
    {
      assert x in t - {id} && !Blocks(t - {id}, x, id.side, c.resource, start, c.end);
    }
  }

  lemma CandSuits(t: Technician, dealership: Id, service: Id, start: int, latestEnd: int)
    requires service in t.skills
    ensures Qualified(t, dealership, service, start, latestEnd) <==>
            Suits(t, dealership, service, start, CandOf(t, service, start).end, latestEnd)
    ensures CandOf(t, service, start).resource == t.id
    ensures CandOf(t, service, start).end == start + t.skills[service] * 60_000_000
  {
  }

  /** Intervals are half-open: whatever was free up to, or from, the ends of a hold still is. */
  lemma BackToBack(t: Table, id: OccId, resource: Id, start: int, end: int, now: int, s: int, e: int)
    requires id !in t && (end <= s || e <= start) && Free(t, id.side, resource, s, e)
    ensures Free(t[id := Hold(resource, start, end, now)], id.side, resource, s, e)
  {
    var t' := t[id := Hold(resource, start, end, now)];
    forall x | x in t'
      ensures !Blocks(t', x, id.side, resource, s, e)
    {
      assert x in t ==> !Blocks(t, x, id.side, resource, s, e);
    }
  }

  /** And so is whatever nobody else has claimed: the claim query may pick it at once. */
  lemma UnclaimedBackToBack(t: Table, id: OccId, resource: Id, start: int, end: int, s: int, e: int, now: int)
    requires id !in t && (end <= s || e <= start) && Unclaimed(t, id.side, resource, s, e, now)
    ensures Vacant(t[id := Hold(resource, start, end, now)], id.side, Cand(resource, e), s, now)
  {
    var t' := t[id := Hold(resource, start, end, now)];
    forall x | x in t' && Blocks(t', x, id.side, resource, s, e)
      ensures Expired(t'[x], now)
    {
      assert x in t;
    }
  }

  // ---- The claim query -----------------------------------------------------------------

  /** Candidates without an overlapping HELD or CONFIRMED occupation. */
  function FreeIn(t: Table, side: Side, cands: set<Cand>, start: int): set<Cand> {
    set c | c in cands && Free(t, side, c.resource, start, c.end)
  }

  /** No overlapping CONFIRMED or unexpired HELD occupation. */
  predicate Vacant(t: Table, side: Side, c: Cand, start: int, now: int) {
    forall id | id in t && Blocks(t, id, side, c.resource, start, c.end) :: Expired(t[id], now)
  }

  /** First under ORDER BY hashtext(id || request_id); ties are broken arbitrarily. */
  predicate First(among: set<Cand>, c: Cand, rank: Id -> int) {
    c in among && forall x | x in among :: rank(c.resource) <= rank(x.resource)
  }

  lemma {:induction false} FirstExists(among: set<Cand>, rank: Id -> int) returns (c: Cand)
    requires among != {}
    ensures First(among, c, rank)
    decreases |among|
  {
    c :| c in among;
    if among != {c} {
      var x := FirstExists(among - {c}, rank);
      if rank(x.resource) < rank(c.resource) { c := x; }
    }
  }

  /** Reaping frees exactly the candidates held back by expired holds alone. */
  lemma ReapOpens(t: Table, side: Side, c: Cand, start: int, now: int)
    ensures Free(Reap(t, now, side), side, c.resource, start, c.end) <==> Vacant(t, side, c, start, now)
  {
    var t' := Reap(t, now, side);
    forall id | id in t' && Vacant(t, side, c, start, now)
      ensures !Blocks(t', id, side, c.resource, start, c.end)
    {
      assert !Blocks(t, id, side, c.resource, start, c.end);
    }
    if Free(t', side, c.resource, start, c.end) {
      forall id | id in t && Blocks(t, id, side, c.resource, start, c.end)
        ensures Expired(t[id], now)
      {
        if !Expired(t[id], now) { assert Blocks(t', id, side, c.resource, start, c.end); }
      }
    }
  }

  datatype ClaimResult = Claimed(id: OccId, cand: Cand) | Empty | Collision | Broken

  /** What can go wrong with the database in one attempt. */
  datatype Fault = NoFault | ClaimFails | DeleteFails

  datatype ReserveResult = Held(id: OccId, cand: Cand) | Unavailable | Internal

  /** One allocator's occupation table. */
  class Occupations {
    const side: Side
    var table: Table

    constructor (side: Side)
      ensures this.side == side && table == map[]
    {
      this.side := side;
      table := map[];
    }

    /** INSERT ... SELECT: pick on the snapshot `seen`, then let the constraint decide. */
    method Claim(seen: Table, cands: set<Cand>, start: int, now: int, rank: Id -> int, key: Id, fails: bool)
      returns (r: ClaimResult)
      requires OccId(side, key) !in table
      modifies this`table
      ensures fails ==> r == Broken
      ensures !fails && FreeIn(seen, side, cands, start) == {} ==> r == Empty
      ensures !fails && FreeIn(seen, side, cands, start) != {} ==> r.Claimed? || r.Collision?
      ensures r.Claimed? ==>
                && First(FreeIn(seen, side, cands, start), r.cand, rank) && r.id == OccId(side, key)
                && Free(old(table), side, r.cand.resource, start, r.cand.end)
                && table == old(table)[r.id := Hold(r.cand.resource, start, r.cand.end, now)]
      ensures r.Collision? ==>
                exists c :: First(FreeIn(seen, side, cands, start), c, rank)
                            && !Free(table, side, c.resource, start, c.end)
      ensures !r.Claimed? ==> table == old(table)
    {
      if fails {
        return Broken;
      }
      var free := FreeIn(seen, side, cands, start);
      if free == {} {
        return Empty;
      }
      ghost var _ := FirstExists(free, rank);
      var c :| c in free && First(free, c, rank);
      if !Free(table, side, c.resource, start, c.end) {
        return Collision;
      }
      table := table[OccId(side, key) := Hold(c.resource, start, c.end, now)];
      return Claimed(OccId(side, key), c);
    }

    /** DELETE of the allocator's own expired HELD rows. */
    method DeleteExpired(now: int, fails: bool) returns (ok: bool)
      modifies this`table
      ensures ok == !fails
      ensures table == if fails then old(table) else Reap(old(table), now, side)
      ensures ok ==> forall id :: id in table <==>
                id in old(table) && !(id.side == side && old(table)[id].status.OccHeld? &&
                                      old(table)[id].expires.Some? && old(table)[id].expires.value <= now)
      ensures forall id | id in table :: id in old(table) && table[id] == old(table)[id]
    {
      if !fails {
        table := map id | id in table && !(id.side == side && Expired(table[id], now)) :: table[id];
      }
      return !fails;
    }

    /** Confirm: promote an unexpired HELD row in place, or re-assert a CONFIRMED one. */
    method ConfirmOne(id: OccId, now: int) returns (ok: bool)
      modifies this`table
      ensures table == Confirm(old(table), now, id)
      ensures ok <==> Confirmable(old(table), now, id)
      ensures ok <==>
                && id in old(table)
                && var o := old(table)[id];
                   o.status.OccConfirmed? || (o.status.OccHeld? && (o.expires.None? || now < o.expires.value))
      ensures ok ==> table == old(table)[id := old(table)[id].(status := OccConfirmed, expires := None)]
      ensures !ok ==> table == old(table)
    {
      ok := false;
      if id in table {
        var o := table[id];
        if (o.status.OccHeld? && (o.expires.None? || o.expires.value > now)) || o.status.OccConfirmed? {
          table := table[id := o.(status := OccConfirmed, expires := None)];
          ok := true;
        }
      }
    }

    /** Release: drop the claim; unknown or already RELEASED ids are a no-op success. */
    method ReleaseOne(id: OccId)
      modifies this`table
      ensures table == Release(old(table), id)
      ensures table == if id in old(table) then old(table)[id := old(table)[id].(status := OccReleased)] else old(table)
    {
      if id in table && !table[id].status.OccReleased? {
        table := table[id := table[id].(status := OccReleased)];
      }
    }

    /** The loop: three attempts, deleting expired HELD rows after each failed one. `others` says
        what concurrent writers commit between the pick and the insert of each attempt, `faults`
        which statements the database fails; the clock stands still meanwhile.

        Whatever the others do, a success is an insert that met no live overlapping occupation.
        With nobody else writing and nothing failing, it succeeds if and only if some eligible
        resource has no overlapping CONFIRMED or unexpired HELD occupation, within two attempts,
        on the first such resource in the query's order, and never collides. */
    method Reserve(cands: set<Cand>, start: int, now: int, rank: Id -> int, key: Id,
                   others: (nat, Table) -> Table, faults: nat -> Fault)
      returns (r: ReserveResult, attempts: nat, collided: bool)
      requires OccId(side, key) !in table
      requires forall n, t | OccId(side, key) !in t :: OccId(side, key) !in others(n, t)
      requires Exclusive(table) && forall n, t | Exclusive(t) :: Exclusive(others(n, t))
      modifies this`table
      ensures attempts <= 3
      ensures Exclusive(table)
      ensures r.Held? <==> OccId(side, key) in table
      ensures r.Held? ==>
                && r.id == OccId(side, key) && r.cand in cands
                && table[r.id] == Hold(r.cand.resource, start, r.cand.end, now)
                && Free(table - {r.id}, side, r.cand.resource, start, r.cand.end)
                && HeldFor(table, r.id, r.cand.resource, start, r.cand.end, now)
      ensures r == Unavailable && (forall n :: faults(n) == NoFault) ==> attempts == 3
      ensures NoOthers(others) ==> !collided && (r.Held? ==> attempts <= 2)
      ensures NoOthers(others) && (r.Held? || forall n :: faults(n) == NoFault) ==>
                Served(old(table), table, side, cands, start, Call(now, rank, key), if r.Held? then Some(r.cand)
                    else None)
      ensures NoOthers(others) && !r.Held? ==> table == old(table) || table == Reap(old(table), now, side)
      ensures NoOthers(others) && (forall n :: faults(n) == NoFault) ==>
                (r.Held? <==> exists c :: c in cands && Unclaimed(old(table), side, c.resource, start, c.end, now))
    {
      collided := false;
      attempts := 0;
      ghost var reaped := Reap(old(table), now, side);
      ReapedKeepsFree(old(table), side, cands, start, now);
      while attempts < MAX_ATTEMPTS
        invariant attempts <= MAX_ATTEMPTS && OccId(side, key) !in table && Exclusive(table)
        invariant NoOthers(others) ==> !collided
        invariant NoOthers(others) && attempts == 0 ==> table == old(table)
        invariant NoOthers(others) && attempts > 0 ==> table == reaped && FreeIn(old(table), side, cands, start) == {}
        invariant NoOthers(others) && attempts > 1 ==> FreeIn(reaped, side, cands, start) == {}
        decreases MAX_ATTEMPTS - attempts
      {
        attempts := attempts + 1;
        var seen := table;
        table := others(attempts, table);
        ghost var met := table;
        var c := Claim(seen, cands, start, now, rank, key, faults(attempts) == ClaimFails);
        match c {
          case Claimed(id, cand) =>
            Stores.InsertExclusive(met, id, Hold(cand.resource, start, cand.end, now));
            assert table - {id} == met;
            FreeIsHeldFor(table, id, cand, start, now);
            VacantIsUnclaimed(old(table), side, cand, start, now);
            return Held(id, cand), attempts, collided;
          case Broken =>
            return Internal, attempts, collided;
          case Collision =>
            collided := true;
          case Empty =>
        }
        var ok := DeleteExpired(now, faults(attempts) == DeleteFails);
        if !ok { return Unavailable, attempts, collided; }
        ReapTwice(old(table), now, side);
      }
      forall c | NoOthers(others) && c in cands
        ensures !Vacant(old(table), side, c, start, now)
      {
        assert c !in FreeIn(reaped, side, cands, start);
      }
      forall c | c in cands
        ensures Vacant(old(table), side, c, start, now) <==> Unclaimed(old(table), side, c.resource, start, c.end, now)
      {
        VacantIsUnclaimed(old(table), side, c, start, now);
      }
      return Unavailable, attempts, collided;
    }

    /** The Technician allocator's Reserve. Undisturbed, it succeeds if and only if some qualified
        technician has no overlapping CONFIRMED or unexpired HELD occupation. */
    method ReserveTechnician(roster: set<Technician>, dealership: Id, service: Id, start: int, latestEnd: int,
                             now: int, rank: Id -> int, key: Id, others: (nat, Table) -> Table, faults: nat -> Fault)
      returns (r: ReserveResult)
      requires side == Tech && OccId(side, key) !in table
      requires forall n, t | OccId(side, key) !in t :: OccId(side, key) !in others(n, t)
      requires Exclusive(table) && forall n, t | Exclusive(t) :: Exclusive(others(n, t))
      modifies this`table
      ensures Exclusive(table)
      ensures r.Held? ==>
                && HeldFor(table, r.id, r.cand.resource, start, r.cand.end, now)
                && exists t :: t in roster && t.id == r.cand.resource
                               && Suits(t, dealership, service, start, r.cand.end, latestEnd)
      ensures NoOthers(others) && (forall n :: faults(n) == NoFault) ==>
                (r.Held? <==> exists t, end :: t in roster && Suits(t, dealership, service, start, end, latestEnd)
                                               && Unclaimed(old(table), Tech, t.id, start, end, now))
    {
      var cands := TechCands(roster, dealership, service, start, latestEnd);
      var attempts, collided;
      TechCandsSuit(roster, dealership, service, start, latestEnd);
      r, attempts, collided := Reserve(cands, start, now, rank, key, others, faults);
    }

    /** The Bay allocator's Reserve, for the interval the technician's answer fixed. */
    method ReserveBay(bays: set<ServiceBay>, dealership: Id, start: int, end: int,
                      now: int, rank: Id -> int, key: Id, others: (nat, Table) -> Table, faults: nat -> Fault)
      returns (r: ReserveResult)
      requires side == Bay && OccId(side, key) !in table
      requires forall n, t | OccId(side, key) !in t :: OccId(side, key) !in others(n, t)
      requires Exclusive(table) && forall n, t | Exclusive(t) :: Exclusive(others(n, t))
      modifies this`table
      ensures Exclusive(table)
      ensures r.Held? ==>
                && HeldFor(table, r.id, r.cand.resource, start, end, now)
                && exists b :: b in bays && b.id == r.cand.resource && b.dealership == dealership && b.active
      ensures NoOthers(others) && (forall n :: faults(n) == NoFault) ==>
                (r.Held? <==> exists b :: b in bays && b.dealership == dealership && b.active
                                          && Unclaimed(old(table), Bay, b.id, start, end, now))
    {
      var attempts, collided;
      BayCandsAre(bays, dealership, end);
      r, attempts, collided := Reserve(BayCands(bays, dealership, end), start, now, rank, key, others, faults);
    }
  }

  /** The candidates are the technicians who suit, each for as long as the job takes them. */
  lemma TechCandsSuit(roster: set<Technician>, dealership: Id, service: Id, start: int, latestEnd: int)
    ensures forall c | c in TechCands(roster, dealership, service, start, latestEnd) ::
              exists t :: t in roster && t.id == c.resource && Suits(t, dealership, service, start, c.end, latestEnd)
    ensures forall t, end | t in roster && Suits(t, dealership, service, start, end, latestEnd) ::
              Cand(t.id, end) in TechCands(roster, dealership, service, start, latestEnd)
  {
    forall t | t in roster && service in t.skills
      ensures Qualified(t, dealership, service, start, latestEnd) <==>
              Suits(t, dealership, service, start, CandOf(t, service, start).end, latestEnd)
      ensures CandOf(t, service, start) == Cand(t.id, start + t.skills[service] * 60_000_000)
    {
      CandSuits(t, dealership, service, start, latestEnd);
    }
    hide Qualified, CandOf;
    forall c | c in TechCands(roster, dealership, service, start, latestEnd)
      ensures exists t :: t in roster && t.id == c.resource && Suits(t, dealership, service, start, c.end, latestEnd)
    {
      var t :| t in roster && Qualified(t, dealership, service, start, latestEnd) && CandOf(t, service, start) == c;
    }
    forall t, end | t in roster && Suits(t, dealership, service, start, end, latestEnd)
      ensures Cand(t.id, end) in TechCands(roster, dealership, service, start, latestEnd)
    {
      assert CandOf(t, service, start) == Cand(t.id, end);
    }
  }

  lemma BayCandsAre(bays: set<ServiceBay>, dealership: Id, end: int)
    ensures forall c | c in BayCands(bays, dealership, end) ::
              c.end == end && exists b :: b in bays && b.id == c.resource && b.dealership == dealership && b.active
    ensures forall b | b in bays && b.dealership == dealership && b.active ::
        Cand(b.id, end) in BayCands(bays, dealership, end)
  {
  }

  /** Nobody else writes. */
  ghost predicate NoOthers(others: (nat, Table) -> Table) {
    forall n, t :: others(n, t) == t
  }

  /** One Reserve request: when it runs, its order over resources, the id its insert would get. */
  datatype Call = Call(now: int, rank: Id -> int, key: Id)

  /** What a Reserve does to the table when nobody interferes and nothing fails: it grants the
      first free candidate, deleting expired holds only if there is none; or no candidate is open. */
  ghost predicate Served(t: Table, t': Table, side: Side, cands: set<Cand>, start: int, call: Call, r: Option<Cand>) {
    var before := if FreeIn(t, side, cands, start) != {} then t else Reap(t, call.now, side);
    if r.Some? then
      && First(FreeIn(before, side, cands, start), r.value, call.rank)
      && t' == before[OccId(side, call.key) := Hold(r.value.resource, start, r.value.end, call.now)]
    else
      t' == Reap(t, call.now, side) && forall c | c in cands :: !Vacant(t, side, c, start, call.now)
  }

  lemma ReapTwice(t: Table, now: int, side: Side)
    ensures Reap(Reap(t, now, side), now, side) == Reap(t, now, side)
  {
  }

  /** After a reap the free candidates are the open ones. */
  lemma ReapedKeepsFree(t: Table, side: Side, cands: set<Cand>, start: int, now: int)
    ensures forall c | c in cands ::
              Free(Reap(t, now, side), side, c.resource, start, c.end) <==> Vacant(t, side, c, start, now)
    ensures forall c | c in cands && Free(t, side, c.resource, start, c.end) :: Vacant(t, side, c, start, now)
  {
    forall c | c in cands
      ensures Free(Reap(t, now, side), side, c.resource, start, c.end) <==> Vacant(t, side, c, start, now)
    {
      ReapOpens(t, side, c, start, now);
    }
  }
}
