/** Why linking needs its hypotheses: runs that end in a double booking.

    Two confirmers of one hold race; one of them fails to flip the row, finds it still HELD and
    releases the hold's occupations, then the other one flips it. A third request books the
    freed technician and bay again. */
module Counterexample {
  import opened Wrappers
  import opened Allocator
  import opened Stores
  import opened Protocol

  predicate FaultFree(step: Step) {
    !step.Crash? && (step.Call? ==> step.ch.reply == Ok)
  }

  /** A run from `from` ends in s, every call in it answered if `clean`. */
  ghost predicate Reached(from: State, s: State, clean: bool) {
    exists tr :: Run(from, tr) && Exec(from, tr) == s && (clean ==> forall step | step in tr :: FaultFree(step))
  }

  lemma Then(from: State, s: State, step: Step, clean: bool)
    requires Enabled(s, step) && (clean ==> FaultFree(step)) && Reached(from, s, clean)
    ensures Reached(from, Apply(s, step), clean)
  {
    var tr :| Run(from, tr) && Exec(from, tr) == s && (clean ==> forall x | x in tr :: FaultFree(x));
    One(s, step);
    RunAppend(from, tr, [step]);
  }

  function Given(reply: Reply, key: Id, resource: Id, end: int): Choice {
    Choice(reply, key, true, resource, end, [])
  }

  /** One call of q, from the stores st with q at pc. */
  lemma Moved(from: State, s: State, q: Id, kind: Kind, pc: Pc, ch: Choice, clean: bool) returns (s': State)
    requires q in s.reqs && s.reqs[q] == Req(kind, pc) && Active(pc) && Fits(kind, pc) && ChoiceOk(s.st, kind, pc, ch)
    requires (clean ==> ch.reply == Ok) && Reached(from, s, clean)
    ensures var m := MoveAny(s.st, q, kind, pc, ch);
            s' == State(m.st, s.reqs[q := Req(kind, m.pc)]) && Reached(from, s', clean)
  {
    hide MoveAny, ChoiceOk, Fits, Reached;
    Then(from, s, Call(q, ch), clean);
    s' := Apply(s, Call(q, ch));
  }

  /** What is fresh and free where a request is about to take `tech` and `bay`. */
  ghost predicate Room(st: Stores, id: Id, tech: Id, bay: Id, start: int, end: int) {
    && start < end && id !in st.rows
    && (forall side :: OccId(side, id) !in st.claims && OccId(side, id) !in st.occs)
    && Free(st.occs, Tech, tech, start, end) && Free(st.occs, Bay, bay, start, end)
  }

  /** Stores with a fresh HELD row, taken on a technician and a bay. */
  function WithHold(st: Stores, q: Id, id: Id, body: Body, tech: Id, bay: Id, end: int): Stores {
    var t, b := OccId(Tech, id), OccId(Bay, id);
    InsertRow(InsertOcc(InsertOcc(st, t, tech, body.start, end, q, false), b, bay, body.start, end, q, false),
              id, body.who, t, tech, b, bay, body.start, end)
  }

  /** From its first pick to the inserted row, undisturbed. */
  lemma Reserved(from: State, s: State, q: Id, kind: Kind, id: Id, tech: Id, bay: Id, end: int, clean: bool)
      returns (s': State)
    requires q in s.reqs && s.reqs[q] == Req(kind, Pick(None, 1)) && Books(kind)
    requires Room(s.st, id, tech, bay, kind.body.start, end) && Reached(from, s, clean)
    ensures s'.st == WithHold(s.st, q, id, kind.body, tech, bay, end) && Reached(from, s', clean)
    ensures var t, b := OccId(Tech, id), OccId(Bay, id);
            s'.reqs == s.reqs[q := Req(kind, if kind.HoldReq? then Done(Created(id)) else ConfirmTech(id, t, b))]
  {
    hide Reached, MovePromote, MoveRelease, MoveHold, MoveCancel, MoveSweep;
    var ch := Given(Ok, id, tech, end);
    var start := kind.body.start;
    var t, b := Claimed(OccId(Tech, id), tech, start, end), Claimed(OccId(Bay, id), bay, start, end);
    s' := Moved(from, s, q, kind, Pick(None, 1), ch, clean);
    s' := Moved(from, s', q, kind, s'.reqs[q].pc, ch, clean);
    assert s'.reqs[q].pc == Pick(Some(t), 1);
    ch := Given(Ok, id, bay, end);
    s' := Moved(from, s', q, kind, Pick(Some(t), 1), ch, clean);
    s' := Moved(from, s', q, kind, s'.reqs[q].pc, ch, clean);
    assert s'.reqs[q].pc == Insert(t, b);
    s' := Moved(from, s', q, kind, Insert(t, b), ch, clean);
  }

  /** Both Confirms, undisturbed. */
  lemma BothConfirmed(from: State, s: State, q: Id, kind: Kind, row: Id, t: OccId, b: OccId, clean: bool)
      returns (s': State)
    requires q in s.reqs && s.reqs[q] == Req(kind, ConfirmTech(row, t, b)) && Confirms(kind) && t != b
    requires Confirmable(s.st.occs, s.st.now, t) && Confirmable(s.st.occs, s.st.now, b) && Reached(from, s, clean)
    ensures s' == State(ConfirmOcc(ConfirmOcc(s.st, t), b), s.reqs[q := Req(kind, Flip(row, t, b))])
        && Reached(from, s', clean)
  {
    hide Reached;
    var ch := Given(Ok, "", "", 0);
    s' := Moved(from, s, q, kind, ConfirmTech(row, t, b), ch, clean);
    s' := Moved(from, s', q, kind, ConfirmBay(row, t, b), ch, clean);
  }

  function HeldRow(body: Body, tech: Id, bay: Id, id: Id, end: int, expires: int): Row {
    Row(body.who, tech, bay, Some(OccId(Tech, id)), Some(OccId(Bay, id)), body.start, end, Held, Some(expires), None,
        None)
  }

  function Taken(t: Table, id: Id, tech: Id, bay: Id, start: int, end: int, status: OccStatus): Table {
    t[OccId(Tech, id) := Occ(tech, start, end, status, None)][OccId(Bay, id) := Occ(bay, start, end, status, None)]
  }

  /** The stores after a hold. */
  lemma HoldStores(st: Stores, q: Id, id: Id, body: Body, tech: Id, bay: Id, end: int)
    requires Room(st, id, tech, bay, body.start, end)
    ensures var st' := WithHold(st, q, id, body, tech, bay, end);
            var t, b := OccId(Tech, id), OccId(Bay, id);
            && st'.now == st.now && st'.claims.Keys == st.claims.Keys + {t, b}
            && st'.rows == st.rows[id := HeldRow(body, tech, bay, id, end, st.now + TTL)]
            && st'.occs == st.occs[t := Hold(tech, body.start, end, st.now)][b := Hold(bay, body.start, end, st.now)]
  {
  }

  /** The stores after both Confirms of what HoldStores left. */
  lemma ConfirmedStores(st: Stores, id: Id)
    requires var t, b := OccId(Tech, id), OccId(Bay, id);
             t in st.claims && b in st.claims && Confirmable(st.occs, st.now, t) && Confirmable(st.occs, st.now, b)
    ensures var t, b := OccId(Tech, id), OccId(Bay, id);
            var st' := ConfirmOcc(ConfirmOcc(st, t), b);
            && st'.now == st.now && st'.claims.Keys == st.claims.Keys && st'.rows == st.rows
            && st'.occs == Taken(st.occs, id, st.occs[t].resource, st.occs[b].resource, st.occs[t].start,
                st.occs[t].end, OccConfirmed)
                             [b := Occ(st.occs[b].resource, st.occs[b].start, st.occs[b].end, OccConfirmed, None)]
  {
  }

  /** Up to the first pick. */
  lemma Started(from: State, s: State, q: Id, key: string, body: Body, clean: bool) returns (s': State)
    requires q !in s.reqs && Reached(from, s, clean) && (key != "" ==> Holders(s.st, key) == {})
    ensures s' == State(s.st, s.reqs[q := Req(DirectReq(key, body), Pick(None, 1))]) && Reached(from, s', clean)
  {
    hide Reached;
    var kind := DirectReq(key, body);
    Then(from, s, Begin(q, kind), clean);
    s' := Apply(s, Begin(q, kind));
    if key != "" {
      s' := Moved(from, s', q, kind, Lookup, Given(Ok, "", "", 0), clean);
    }
  }

  /** The compare-and-set, key unused elsewhere. */
  lemma Promoted(from: State, s: State, q: Id, kind: Kind, row: Id, t: OccId, b: OccId, clean: bool) returns (s': State)
    requires q in s.reqs && s.reqs[q] == Req(kind, Flip(row, t, b)) && Confirms(kind) && Reached(from, s, clean)
    requires row in s.st.rows && s.st.rows[row].status.Held? && !KeyTaken(s.st, row, kind.key)
    ensures Reached(from, s', clean) && s'.reqs == s.reqs[q := Req(kind, FinalGet(row))]
    ensures s'.st == s.st.(rows := s.st.rows[row := s.st.rows[row].(
                       status := Confirmed, expires := None, key := NullIf(kind.key),
                           finger := NullIf(PrintOf(s.st, kind, row)))])
  {
    hide Reached, PrintOf, KeyTaken;
    s' := Moved(from, s, q, kind, Flip(row, t, b), Given(Ok, "", "", 0), clean);
  }

  /** Up to the compare-and-set. */
  lemma ReservedAndConfirmed(from: State, s: State, q: Id, key: string, body: Body, id: Id, tech: Id, bay: Id,
      end: int, clean: bool)
    returns (s': State)
    requires q !in s.reqs && Room(s.st, id, tech, bay, body.start, end) && Reached(from, s, clean)
    requires key != "" ==> Holders(s.st, key) == {}
    ensures Reached(from, s', clean)
    ensures s'.reqs == s.reqs[q := Req(DirectReq(key, body), Flip(id, OccId(Tech, id), OccId(Bay, id)))]
    ensures && s'.st.now == s.st.now && s'.st.claims.Keys == s.st.claims.Keys + {OccId(Tech, id), OccId(Bay, id)}
            && s'.st.occs == Taken(s.st.occs, id, tech, bay, body.start, end, OccConfirmed)
            && s'.st.rows == s.st.rows[id := HeldRow(body, tech, bay, id, end, s.st.now + TTL)]
  {
    hide Reached, DirectPrint, Room, WithHold, ConfirmOcc, Holders;
    var kind := DirectReq(key, body);
    s' := Started(from, s, q, key, body, clean);
    s' := Reserved(from, s', q, kind, id, tech, bay, end, clean);
    HoldStores(s.st, q, id, body, tech, bay, end);
    ConfirmedStores(s'.st, id);
    s' := BothConfirmed(from, s', q, kind, id, OccId(Tech, id), OccId(Bay, id), clean);
  }

  /** An undisturbed confirm-without-hold, key unused: booked. */
  lemma BookedDirectly(from: State, s: State, q: Id, key: string, body: Body, id: Id, tech: Id, bay: Id, end: int,
      clean: bool)
    returns (s': State)
    requires q !in s.reqs && Room(s.st, id, tech, bay, body.start, end) && Reached(from, s, clean)
    requires key != "" ==> Holders(s.st, key) == {}
    ensures Reached(from, s', clean) && s'.reqs == s.reqs[q := Req(DirectReq(key, body), FinalGet(id))]
    ensures && s'.st.now == s.st.now && s'.st.claims.Keys == s.st.claims.Keys + {OccId(Tech, id), OccId(Bay, id)}
            && s'.st.occs == Taken(s.st.occs, id, tech, bay, body.start, end, OccConfirmed)
            && s'.st.rows == s.st.rows[id := HeldRow(body, tech, bay, id, end, 0).(
                 status := Confirmed, expires := None, key := NullIf(key), finger := NullIf(DirectPrint(body)))]
  {
    hide Reached, DirectPrint, Room, Taken, KeyTaken, Holders;
    s' := ReservedAndConfirmed(from, s, q, key, body, id, tech, bay, end, clean);
    KeyStillFree(s.st, s'.st, id, key);
    s' := Promoted(from, s', q, DirectReq(key, body), id, OccId(Tech, id), OccId(Bay, id), clean);
  }

  lemma KeyStillFree(st: Stores, st': Stores, id: Id, key: string)
    requires key != "" ==> Holders(st, key) == {}
    requires forall x | x in st'.rows && x != id :: x in st.rows && st'.rows[x] == st.rows[x]
    ensures !KeyTaken(st', id, key)
  {
    assert forall x | x in st'.rows && x != id && key != "" :: x !in Holders(st, key);
  }

  /** A hold, undisturbed. */
  lemma HeldThere(from: State, s: State, q: Id, body: Body, id: Id, tech: Id, bay: Id, end: int, clean: bool)
      returns (s': State)
    requires q !in s.reqs && Room(s.st, id, tech, bay, body.start, end) && Reached(from, s, clean)
    ensures Reached(from, s', clean) && s'.reqs == s.reqs[q := Req(HoldReq(body), Done(Created(id)))]
    ensures s'.st == WithHold(s.st, q, id, body, tech, bay, end)
  {
    hide Reached, Room, WithHold;
    Then(from, s, Begin(q, HoldReq(body)), clean);
    s' := Apply(s, Begin(q, HoldReq(body)));
    s' := Reserved(from, s', q, HoldReq(body), id, tech, bay, end, clean);
  }

  /** Row `id` is HELD and both its occupations can be confirmed. */
  ghost predicate Promotable(st: Stores, id: Id) {
    var t, b := OccId(Tech, id), OccId(Bay, id);
    && id in st.rows && st.rows[id].status.Held? && st.rows[id].techOcc == Some(t) && st.rows[id].bayOcc == Some(b)
    && t in st.claims && b in st.claims && Confirmable(st.occs, st.now, t) && Confirmable(st.occs, st.now, b)
  }

  /** A confirmer of a hold, up to its compare-and-set. */
  lemma AtFlip(from: State, s: State, q: Id, key: string, id: Id, clean: bool) returns (s': State)
    requires q !in s.reqs && Promotable(s.st, id) && Reached(from, s, clean)
    ensures var t, b := OccId(Tech, id), OccId(Bay, id);
            s' == State(ConfirmOcc(ConfirmOcc(s.st, t), b), s.reqs[q := Req(PromoteReq(key, id), Flip(id, t, b))])
    ensures Reached(from, s', clean) && Promotable(s'.st, id) && s'.st.rows == s.st.rows
  {
    hide Reached;
    var kind := PromoteReq(key, id);
    Then(from, s, Begin(q, kind), clean);
    s' := Apply(s, Begin(q, kind));
    s' := Moved(from, s', q, kind, Load, Given(Ok, "", "", 0), clean);
    s' := BothConfirmed(from, s', q, kind, id, OccId(Tech, id), OccId(Bay, id), clean);
  }

  /** Both Releases, undisturbed. */
  lemma BothReleased(from: State, s: State, q: Id, kind: Kind, t: OccId, b: OccId, res: Result, clean: bool)
    returns (s': State)
    requires q in s.reqs && s.reqs[q] == Req(kind, RelBay(t, b, res)) && Confirms(kind) && Reached(from, s, clean)
    ensures s' == State(ReleaseOcc(ReleaseOcc(s.st, b), t), s.reqs[q := Req(kind, Done(res))])
        && Reached(from, s', clean)
  {
    hide Reached, ReleaseOcc, MoveReserve, MoveBook, MovePromote, MoveHold, MoveCancel, MoveSweep;
    var ok := Given(Ok, "", "", 0);
    s' := Moved(from, s, q, kind, RelBay(t, b, res), ok, clean);
    s' := Moved(from, s', q, kind, RelTech(t, res), ok, clean);
  }

  /** Its compare-and-set fails, by the unique index or (not `clean`) by an error without effect;
      the row is still HELD, so it releases the hold's occupations. */
  lemma GivesUp(from: State, s: State, q: Id, key: string, id: Id, clean: bool) returns (s': State)
    requires var t, b := OccId(Tech, id), OccId(Bay, id);
             q in s.reqs && s.reqs[q] == Req(PromoteReq(key, id), Flip(id, t, b))
    requires Promotable(s.st, id) && (clean ==> KeyTaken(s.st, id, key)) && Reached(from, s, clean)
    ensures Reached(from, s', clean) && s'.st == ReleaseOcc(ReleaseOcc(s.st, OccId(Bay, id)), OccId(Tech, id))
    ensures s'.reqs.Keys == s.reqs.Keys && forall x | x in s.reqs && x != q :: s'.reqs[x] == s.reqs[x]
  {
    hide Reached, PrintOf, ConfirmOcc, ReleaseOcc, MoveReserve, MoveBook, MoveRelease, MoveHold, MoveCancel, MoveSweep;
    var kind := PromoteReq(key, id);
    var t, b := OccId(Tech, id), OccId(Bay, id);
    var ok := Given(Ok, "", "", 0);
    s' := Moved(from, s, q, kind, Flip(id, t, b), if clean then ok else Given(Failed, "", "", 0), clean);
    assert s'.st == s.st && s'.reqs[q].pc == Reread(id, t, b, clean);
    s' := Moved(from, s', q, kind, Reread(id, t, b, clean), ok, clean);
    s' := BothReleased(from, s', q, kind, t, b, if clean then Conflict else Unavailable, clean);
  }

  /** The race: the row ends CONFIRMED with both its occupations RELEASED. */
  lemma Race(from: State, s: State, p: Id, q: Id, key: string, id: Id, clean: bool) returns (s': State)
    requires p !in s.reqs && q !in s.reqs && p != q
    requires Promotable(s.st, id) && (clean ==> KeyTaken(s.st, id, key)) && Reached(from, s, clean)
    ensures Reached(from, s', clean) && s'.reqs.Keys == s.reqs.Keys + {p, q}
    ensures s'.st.claims.Keys == s.st.claims.Keys && s'.st.rows.Keys == s.st.rows.Keys
        && s'.st.occs.Keys == s.st.occs.Keys
    ensures forall x | x in s.st.occs && x.key != id :: s'.st.occs[x] == s.st.occs[x]
    ensures !Live(s'.st.occs, OccId(Tech, id)) && !Live(s'.st.occs, OccId(Bay, id))
    ensures var row := s'.st.rows[id];
            row.status.Confirmed? && row.tech == s.st.rows[id].tech && row.bay == s.st.rows[id].bay
            && row.start == s.st.rows[id].start && row.end == s.st.rows[id].end
  {
    hide Reached, PrintOf;
    var t, b := OccId(Tech, id), OccId(Bay, id);
    s' := AtFlip(from, s, p, "", id, clean);
    s' := AtFlip(from, s', q, key, id, clean);
    s' := GivesUp(from, s', q, key, id, clean);
    s' := Promoted(from, s', p, PromoteReq("", id), id, t, b, clean);
  }

  /** Two CONFIRMED appointments on one technician and one bay at the same time. */
  ghost predicate DoubleBooked(st: Stores, x: Id, y: Id) {
    && x != y && x in st.rows && y in st.rows && st.rows[x].status.Confirmed? && st.rows[y].status.Confirmed?
    && st.rows[x].tech == st.rows[y].tech && st.rows[x].bay == st.rows[y].bay
    && Overlap(st.rows[x].start, st.rows[x].end, st.rows[y].start, st.rows[y].end)
  }

  /** A hold, and the race for it. */
  lemma HoldAndRace(from: State, s: State, body: Body, end: int, key: string, clean: bool) returns (s': State)
    requires Reached(from, s, clean) && s.reqs.Keys <= {"1"} && (clean ==> Holders(s.st, key) != {} && key != "")
    requires Room(s.st, "h", "T", "B", body.start, end) && Room(s.st, "y", "T", "B", body.start, end)
    ensures Reached(from, s', clean) && s'.reqs.Keys == s.reqs.Keys + {"2", "3", "4"}
    ensures Room(s'.st, "y", "T", "B", body.start, end) && "h" in s'.st.rows
    ensures var row := s'.st.rows["h"];
            row.status.Confirmed? && row.tech == "T" && row.bay == "B" && row.start == body.start && row.end == end
  {
    hide Reached, DirectPrint, WithHold, Free, KeyTaken, Holders;
    s' := HeldThere(from, s, "2", body, "h", "T", "B", end, clean);
    HoldStores(s.st, "2", "h", body, "T", "B", end);
    var held := s'.st;
    if clean { StillTaken(s.st, held, "h", key); }
    s' := Race(from, s', "3", "4", key, "h", clean);
    RoomAgain(s.st, held, s'.st, "T", "B", body.start, end);
  }

  lemma StillTaken(st: Stores, st': Stores, r: Id, key: string)
    requires Holders(st, key) != {} && key != "" && r !in st.rows
    requires forall x | x in st.rows :: x in st'.rows && st'.rows[x] == st.rows[x]
    ensures KeyTaken(st', r, key)
  {
    var z :| z in Holders(st, key);
    assert st'.rows[z] == st.rows[z];
  }

  /** A hold, the race for it, and a third request that books the same slot. */
  lemma HoldRaceBook(from: State, s: State, body: Body, end: int, key: string, clean: bool) returns (s': State)
    requires Reached(from, s, clean) && s.reqs.Keys <= {"1"} && (clean ==> Holders(s.st, key) != {} && key != "")
    requires Room(s.st, "h", "T", "B", body.start, end) && Room(s.st, "y", "T", "B", body.start, end)
    ensures Reached(from, s', clean) && DoubleBooked(s'.st, "h", "y")
  {
    hide Reached, DirectPrint, Free, Holders;
    s' := HoldAndRace(from, s, body, end, key, clean);
    s' := BookedDirectly(from, s', "5", "", body, "y", "T", "B", end, clean);
  }

  /** Once the hold's occupations are dead there is room again. */
  lemma RoomAgain(st: Stores, held: Stores, st': Stores, tech: Id, bay: Id, start: int, end: int)
    requires Room(st, "y", tech, bay, start, end) && held.rows.Keys == st.rows.Keys + {"h"}
    requires held.claims.Keys == st.claims.Keys + {OccId(Tech, "h"), OccId(Bay, "h")}
    requires held.occs.Keys == st.occs.Keys + {OccId(Tech, "h"), OccId(Bay, "h")}
    requires forall x | x in st.occs && x.key != "h" :: held.occs[x] == st.occs[x]
    requires st'.claims.Keys == held.claims.Keys && st'.rows.Keys == held.rows.Keys && st'.occs.Keys == held.occs.Keys
    requires forall x | x in held.occs && x.key != "h" :: st'.occs[x] == held.occs[x]
    requires !Live(st'.occs, OccId(Tech, "h")) && !Live(st'.occs, OccId(Bay, "h"))
    ensures Room(st', "y", tech, bay, start, end)
  {
    forall x, side, r | x in st'.occs && Blocks(st'.occs, x, side, r, start, end)
      ensures Blocks(st.occs, x, side, r, start, end)
    {
      assert x.key != "h";
    }
  }

  /** Every call answered, nothing crashed, and still a double booking: the key of the second
      confirmer belongs to an earlier appointment. */
  lemma KeyReuseDoubleBooks(other: Body, body: Body, end: int, otherEnd: int) returns (s: State)
    requires body.start < end && other.start < otherEnd
    ensures Reached(INIT, s, true) && DoubleBooked(s.st, "h", "y")
  {
    assert Reached(INIT, INIT, true) by { assert Run(INIT, []) && Exec(INIT, []) == INIT; }
    hide Reached;
    var s1 := BookedDirectly(INIT, INIT, "1", "k", other, "z", "U", "C", otherEnd, true);
    assert "z" in Holders(s1.st, "k");
    s := HoldRaceBook(INIT, s1, body, end, "k", true);
  }

  /** Without any key, one spurious error of the compare-and-set does the same. */
  lemma SpuriousErrorDoubleBooks(body: Body, end: int) returns (s: State)
    requires body.start < end
    ensures Reached(INIT, s, false) && DoubleBooked(s.st, "h", "y")
  {
    assert Reached(INIT, INIT, false) by { assert Run(INIT, []) && Exec(INIT, []) == INIT; }
    s := HoldRaceBook(INIT, INIT, body, end, "", false);
  }
}
