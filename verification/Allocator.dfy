/** The occupation tables of the Technician and the Bay allocator.

    Both allocators own the same kind of table and run the same SQL on it, so one
    definition serves both; the key of an occupation says which database it is in.
    Times are integer microseconds. */
module Allocator {
  import opened Wrappers

  type Id = string

  /** hold_expires_at = now() + interval '120 seconds' */
  const TTL: int := 120_000_000

  /** Attempts of one Reserve. */
  const MAX_ATTEMPTS := 3

  datatype Side = Tech | Bay
  datatype OccId = OccId(side: Side, key: Id)
  datatype OccStatus = OccHeld | OccConfirmed | OccReleased
  datatype Occ = Occ(resource: Id, start: int, end: int, status: OccStatus, expires: Option<int>)
  type Table = map<OccId, Occ>

  /** A resource the claim query may pick, with the end of the interval it would be held for. */
  datatype Cand = Cand(resource: Id, end: int)

  /** Inside the predicate of the exclusion constraint. */
  predicate Live(t: Table, id: OccId) {
    id in t && !t[id].status.OccReleased?
  }

  /** Two half-open, non-empty intervals meet. */
  predicate Overlap(s1: int, e1: int, s2: int, e2: int) {
    s1 < e2 && s2 < e1
  }

  /** Occupation `id` is live on `resource` and meets [start, end). */
  predicate Blocks(t: Table, id: OccId, side: Side, resource: Id, start: int, end: int) {
    Live(t, id) && id.side == side && t[id].resource == resource && Overlap(t[id].start, t[id].end, start, end)
  }

  predicate Free(t: Table, side: Side, resource: Id, start: int, end: int) {
    forall id | id in t :: !Blocks(t, id, side, resource, start, end)
  }

  /** The exclusion constraint: live occupations of one resource are pairwise disjoint. */
  ghost predicate Exclusive(t: Table) {
    forall i, j | i in t && j in t && i != j && Live(t, i) ::
      !Blocks(t, j, i.side, t[i].resource, t[i].start, t[i].end)
  }

  /** HELD and past its TTL; such a row still blocks until it is deleted. */
  predicate Expired(o: Occ, now: int) {
    o.status.OccHeld? && o.expires.Some? && o.expires.value <= now
  }

  /** The WHERE clause of Confirm. */
  predicate Confirmable(t: Table, now: int, id: OccId) {
    && id in t
    && (|| (t[id].status.OccHeld? && (t[id].expires.None? || t[id].expires.value > now))
        || t[id].status.OccConfirmed?)
  }

  function Hold(resource: Id, start: int, end: int, now: int): Occ {
    Occ(resource, start, end, OccHeld, Some(now + TTL))
  }

  function Confirm(t: Table, now: int, id: OccId): Table {
    if Confirmable(t, now, id) then t[id := t[id].(status := OccConfirmed, expires := None)] else t
  }

  function Release(t: Table, id: OccId): Table {
    if Live(t, id) then t[id := t[id].(status := OccReleased)] else t
  }

  /** DELETE ... WHERE status = 'HELD' AND hold_expires_at <= now() */
  function Reap(t: Table, now: int, side: Side): Table {
    map id | id in t && !(id.side == side && Expired(t[id], now)) :: t[id]
  }
}
