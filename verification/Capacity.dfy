/** Capacity by pigeonhole: successive Reserves of one interval fill the free bays one by one. */
module Capacity {
  import opened Wrappers
  import opened Allocator
  import opened Reserve

  /** Candidates with no overlapping CONFIRMED or unexpired HELD occupation. */
  ghost function OpenIn(t: Table, side: Side, cands: set<Cand>, start: int, now: int): set<Cand> {
    set c | c in cands && Vacant(t, side, c, start, now)
  }

  /** No hold in the table runs out between `from` and `until`. */
  ghost predicate Steady(t: Table, from: int, until: int) {
    from <= until && forall id | id in t && Expired(t[id], until) :: Expired(t[id], from)
  }

  /** One non-empty interval per resource. */
  ghost predicate OnePerResource(cands: set<Cand>, start: int) {
    && (forall c | c in cands :: start < c.end)
    && (forall c, d | c in cands && d in cands && c.resource == d.resource :: c == d)
  }

  /** Fresh ids, all within the window. */
  ghost predicate Fresh(t: Table, side: Side, calls: seq<Call>, from: int, until: int) {
    && (forall i | 0 <= i < |calls| :: from <= calls[i].now <= until && OccId(side, calls[i].key) !in t)
    && (forall i, j | 0 <= i < j < |calls| :: calls[i].key != calls[j].key)
  }

  /** `calls` served one after the other, `ts` the tables in between. */
  ghost predicate ServedAll(ts: seq<Table>, side: Side, cands: set<Cand>, start: int, calls: seq<Call>,
      rs: seq<Option<Cand>>) {
    && |ts| == |calls| + 1 && |rs| == |calls|
    && forall i | 0 <= i < |calls| :: Served(ts[i], ts[i + 1], side, cands, start, calls[i], rs[i])
  }

  /** The candidates granted so far. */
  ghost function Granted(rs: seq<Option<Cand>>): set<Cand> {
    set i | 0 <= i < |rs| && rs[i].Some? :: rs[i].value
  }

  /** In a steady window every moment agrees on which candidates are open. */
  lemma OpenSteady(t: Table, side: Side, c: Cand, start: int, from: int, until: int, now: int)
    requires Steady(t, from, until) && from <= now <= until
    ensures Vacant(t, side, c, start, now) <==> Vacant(t, side, c, start, from)
  {
    forall id | id in t
      ensures Expired(t[id], now) <==> Expired(t[id], from)
    {
      assert Expired(t[id], now) ==> Expired(t[id], until);
    }
  }

  /** A hold blocks the candidate it was taken for and no other, and deletes change nothing. */
  lemma ServedOpen(t: Table, t': Table, side: Side, cands: set<Cand>, start: int, call: Call, r: Option<Cand>,
                   from: int, until: int, c: Cand)
    requires Steady(t, from, until) && from <= call.now <= until < from + TTL
    requires OnePerResource(cands, start) && c in cands && OccId(side, call.key) !in t
    requires r.Some? ==> r.value in cands
    requires Served(t, t', side, cands, start, call, r)
    ensures Vacant(t', side, c, start, from) <==> Vacant(t, side, c, start, from) && r != Some(c)
  {
    OpenSteady(t, side, c, start, from, until, call.now);
    var own := OccId(side, call.key);
    if r == Some(c) {
      assert Blocks(t', own, side, c.resource, start, c.end) && !Expired(t'[own], from);
    } else {
      forall id | id in t' && Vacant(t, side, c, start, from) && Blocks(t', id, side, c.resource, start, c.end)
        ensures Expired(t'[id], from)
      {
        assert id != own;
        assert Blocks(t, id, side, c.resource, start, c.end);
      }
      forall id | id in t && Vacant(t', side, c, start, from) && Blocks(t, id, side, c.resource, start, c.end)
        ensures Expired(t[id], from)
      {
        if id in t' { assert Blocks(t', id, side, c.resource, start, c.end); }
        assert Expired(t[id], call.now) ==> Expired(t[id], until);
      }
    }
  }

  /** Where no expired hold blocks a candidate, none does afterwards. */
  lemma ServedFree(t: Table, t': Table, side: Side, cands: set<Cand>, start: int, call: Call, r: Option<Cand>,
                   from: int, until: int)
    requires Steady(t, from, until) && from <= call.now <= until < from + TTL
    requires OnePerResource(cands, start) && OccId(side, call.key) !in t
    requires Served(t, t', side, cands, start, call, r)
    requires FreeIn(t, side, cands, start) == OpenIn(t, side, cands, start, from)
    ensures FreeIn(t', side, cands, start) == OpenIn(t', side, cands, start, from)
  {
    ReapedKeepsFree(t, side, cands, start, call.now);
    forall c | c in cands
      ensures Free(t', side, c.resource, start, c.end) <==> Vacant(t', side, c, start, from)
    {
      OpenSteady(t, side, c, start, from, until, call.now);
      ServedOpen(t, t', side, cands, start, call, r, from, until, c);
      assert c in FreeIn(t, side, cands, start) <==> c in OpenIn(t, side, cands, start, from);
    }
  }

  /** One call takes one open candidate away, or there was none. */
  lemma ServedShrinks(t: Table, t': Table, side: Side, cands: set<Cand>, start: int, call: Call, r: Option<Cand>,
                      from: int, until: int)
    requires Steady(t, from, until) && from <= call.now <= until < from + TTL
    requires OnePerResource(cands, start) && OccId(side, call.key) !in t
    requires Served(t, t', side, cands, start, call, r)
    ensures Steady(t', from, until)
    ensures var open := OpenIn(t, side, cands, start, from);
            && (r.Some? <==> open != {})
            && (r.Some? ==> r.value in open)
            && OpenIn(t', side, cands, start, from) == if r.Some? then open - {r.value} else {}
    ensures FreeIn(t, side, cands, start) == OpenIn(t, side, cands, start, from) ==>
              && FreeIn(t', side, cands, start) == OpenIn(t', side, cands, start, from)
              && (r.Some? ==> First(OpenIn(t, side, cands, start, from), r.value, call.rank))
  {
    ReapedKeepsFree(t, side, cands, start, call.now);
    forall c | c in cands
      ensures Vacant(t, side, c, start, call.now) <==> Vacant(t, side, c, start, from)
    {
      OpenSteady(t, side, c, start, from, until, call.now);
    }
    assert r.Some? ==> r.value in OpenIn(t, side, cands, start, from);
    assert r.None? ==> OpenIn(t, side, cands, start, from) == {};
    forall c | c in cands
      ensures Vacant(t', side, c, start, from) <==> Vacant(t, side, c, start, from) && r != Some(c)
      ensures Free(t', side, c.resource, start, c.end) ==> Vacant(t', side, c, start, from)
    {
      ServedOpen(t, t', side, cands, start, call, r, from, until, c);
    }
    if FreeIn(t, side, cands, start) == OpenIn(t, side, cands, start, from) {
      ServedFree(t, t', side, cands, start, call, r, from, until);
    }
  }

  /** After i calls: what is still open, and how much. */
  lemma {:induction false} Remaining(ts: seq<Table>, side: Side, cands: set<Cand>, start: int, calls: seq<Call>,
                                     rs: seq<Option<Cand>>, from: int, until: int, i: nat)
    requires i <= |calls| && ServedAll(ts, side, cands, start, calls, rs)
    requires Steady(ts[0], from, until) && until < from + TTL
    requires OnePerResource(cands, start) && Fresh(ts[0], side, calls, from, until)
    ensures Steady(ts[i], from, until)
    ensures forall j | i <= j < |calls| :: OccId(side, calls[j].key) !in ts[i]
    ensures var open := OpenIn(ts[0], side, cands, start, from);
            && OpenIn(ts[i], side, cands, start, from) == open - Granted(rs[..i])
            && |open - Granted(rs[..i])| == (if i < |open| then |open| - i else 0)
            && (FreeIn(ts[0], side, cands, start) == open
                ==> FreeIn(ts[i], side, cands, start) == open - Granted(rs[..i]))
  {
    var open := OpenIn(ts[0], side, cands, start, from);
    if i == 0 {
      assert Granted(rs[..0]) == {};
    } else {
      var last := i - 1;
      Remaining(ts, side, cands, start, calls, rs, from, until, last);
      ServedShrinks(ts[last], ts[i], side, cands, start, calls[last], rs[last], from, until);
      GrantedNext(rs, last);
      var left := open - Granted(rs[..last]);
      assert open - Granted(rs[..i]) == if rs[last].Some? then left - {rs[last].value} else {};
    }
  }

  lemma GrantedNext(rs: seq<Option<Cand>>, i: nat)
    requires i < |rs|
    ensures Granted(rs[..i + 1]) == Granted(rs[..i]) + if rs[i].Some? then {rs[i].value} else {}
  {
    forall c | c in Granted(rs[..i]) ensures c in Granted(rs[..i + 1]) {
      var j :| 0 <= j < i && rs[j] == Some(c);
      assert rs[..i + 1][j] == Some(c);
    }
    if rs[i].Some? { assert rs[..i + 1][i] == rs[i]; }
    forall c | c in Granted(rs[..i + 1]) && rs[i] != Some(c) ensures c in Granted(rs[..i]) {
      var j :| 0 <= j < i + 1 && rs[j] == Some(c);
      assert rs[..i][j] == Some(c);
    }
  }

  /** k successive Reserves of one interval within the TTL, n candidates open at the start: exactly
      the first min(k, n) succeed, on distinct resources, and if no expired hold is in the way each
      gets the hash-first of the resources still free. */
  lemma FillsOneByOne(ts: seq<Table>, side: Side, cands: set<Cand>, start: int, calls: seq<Call>,
                      rs: seq<Option<Cand>>, from: int, until: int)
    requires ServedAll(ts, side, cands, start, calls, rs)
    requires Steady(ts[0], from, until) && until < from + TTL
    requires OnePerResource(cands, start) && Fresh(ts[0], side, calls, from, until)
    ensures var open := OpenIn(ts[0], side, cands, start, from);
            forall i | 0 <= i < |rs| ::
              && (rs[i].Some? <==> i < |open|)
              && (rs[i].Some? ==> rs[i].value in open && forall j | 0 <= j < i && rs[j].Some? ::
                  rs[j].value.resource != rs[i].value.resource)
              && (rs[i].Some? && FreeIn(ts[0], side, cands, start) == open
                  ==> First(open - Granted(rs[..i]), rs[i].value, calls[i].rank))
  {
    var open := OpenIn(ts[0], side, cands, start, from);
    forall i | 0 <= i < |rs|
      ensures rs[i].Some? <==> i < |open|
      ensures rs[i].Some? ==> rs[i].value in open && forall j | 0 <= j < i && rs[j].Some? ::
          rs[j].value.resource != rs[i].value.resource
      ensures rs[i].Some? && FreeIn(ts[0], side, cands, start) == open
          ==> First(open - Granted(rs[..i]), rs[i].value, calls[i].rank)
    {
      Remaining(ts, side, cands, start, calls, rs, from, until, i);
      ServedShrinks(ts[i], ts[i + 1], side, cands, start, calls[i], rs[i], from, until);
      forall j | 0 <= j < i && rs[j].Some? && rs[i].Some?
        ensures rs[j].value != rs[i].value && rs[j].value in cands
      {
        assert rs[..i][j] == rs[j];
        Remaining(ts, side, cands, start, calls, rs, from, until, j);
        ServedShrinks(ts[j], ts[j + 1], side, cands, start, calls[j], rs[j], from, until);
      }
    }
  }

  /** The bay allocator: `bays` is keyed by id, and every bay is held for the same interval. */
  lemma BaysFill(ts: seq<Table>, bays: set<ServiceBay>, dealership: Id, start: int, end: int, calls: seq<Call>,
                 rs: seq<Option<Cand>>, from: int, until: int)
    requires start < end && forall a, b | a in bays && b in bays && a.id == b.id :: a == b
    requires ServedAll(ts, Bay, BayCands(bays, dealership, end), start, calls, rs)
    requires Steady(ts[0], from, until) && until < from + TTL && Fresh(ts[0], Bay, calls, from, until)
    ensures var open := set b | b in bays && b.dealership == dealership && b.active
        && Vacant(ts[0], Bay, Cand(b.id, end), start, from);
            forall i | 0 <= i < |rs| :: rs[i].Some? <==> i < |open|
  {
    var open := set b | b in bays && b.dealership == dealership && b.active
        && Vacant(ts[0], Bay, Cand(b.id, end), start, from);
    var cands := BayCands(bays, dealership, end);
    FillsOneByOne(ts, Bay, cands, start, calls, rs, from, until);
    var image := set b | b in open :: Cand(b.id, end);
    assert image == OpenIn(ts[0], Bay, cands, start, from);
    SameSize(open, end);
  }

  lemma {:induction false} SameSize(bays: set<ServiceBay>, end: int)
    requires forall a, b | a in bays && b in bays && a.id == b.id :: a == b
    ensures |set b | b in bays :: Cand(b.id, end)| == |bays|
  {
    var image := set b | b in bays :: Cand(b.id, end);
    if bays != {} {
      var a :| a in bays;
      SameSize(bays - {a}, end);
      assert image == (set b | b in bays - {a} :: Cand(b.id, end)) + {Cand(a.id, end)};
    }
  }
}
