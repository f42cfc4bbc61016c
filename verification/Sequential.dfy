/** What each request does when nothing fails and nobody else moves: its answer, and every value
    it leaves behind, said without the machine of Protocol.

    `chs` are the answers of the request's calls, one after the other. */
module Sequential {
  import opened Wrappers
  import opened Allocator
  import opened Stores
  import opened Protocol
  import opened Invariant
  import R = Reserve

  // ---- A request on its own -------------------------------------------------------------------

  /** From the stores st, with q at pc, the calls answered by `chs` take the request to its end. */
  ghost predicate Solo(st: Stores, q: Id, kind: Kind, pc: Pc, chs: seq<Choice>)
    decreases |chs|
  {
    if !Active(pc) then chs == [] else
      && chs != [] && Fits(kind, pc) && ChoiceOk(st, kind, pc, chs[0]) && chs[0].reply == Ok
      && var m := MoveAny(st, q, kind, pc, chs[0]);
         Solo(m.st, q, kind, m.pc, chs[1..])
  }

  ghost function End(st: Stores, q: Id, kind: Kind, pc: Pc, chs: seq<Choice>): Move
    requires Solo(st, q, kind, pc, chs)
    decreases |chs|
  {
    if !Active(pc) then Move(st, pc) else
      var m := MoveAny(st, q, kind, pc, chs[0]);
      End(m.st, q, kind, m.pc, chs[1..])
  }

  lemma SoloGoesOn(st: Stores, q: Id, kind: Kind, pc: Pc, chs: seq<Choice>)
    requires Active(pc) && Solo(st, q, kind, pc, chs)
    ensures chs != [] && chs[0].reply == Ok
  {
  }

  /** One call more. */
  lemma SoloCall(st: Stores, q: Id, kind: Kind, pc: Pc, chs: seq<Choice>) returns (m: Move, rest: seq<Choice>)
    requires Active(pc) && Solo(st, q, kind, pc, chs)
    ensures chs != [] && chs[0].reply == Ok && Fits(kind, pc) && ChoiceOk(st, kind, pc, chs[0]) && rest == chs[1..]
    ensures m == MoveAny(st, q, kind, pc, chs[0]) && Solo(m.st, q, kind, m.pc, rest)
    ensures End(st, q, kind, pc, chs) == End(m.st, q, kind, m.pc, rest)
  {
    hide MoveAny, ChoiceOk, Fits;
    m, rest := MoveAny(st, q, kind, pc, chs[0]), chs[1..];
  }

  function CallsOf(q: Id, chs: seq<Choice>): seq<Step> {
    if chs == [] then [] else [Call(q, chs[0])] + CallsOf(q, chs[1..])
  }

  /** Request q alone: it begins, and its calls, all answered, take it to its end. */
  ghost predicate Alone(s: State, q: Id, kind: Kind, chs: seq<Choice>) {
    var tr := [Begin(q, kind)] + CallsOf(q, chs);
    && Run(s, tr) && (forall ch | ch in chs :: ch.reply == Ok)
    && q in Exec(s, tr).reqs && !Active(Exec(s, tr).reqs[q].pc)
  }

  ghost function After(s: State, q: Id, kind: Kind, chs: seq<Choice>): State
    requires Alone(s, q, kind, chs)
  {
    Exec(s, [Begin(q, kind)] + CallsOf(q, chs))
  }

  lemma {:induction false} CallsAreSolo(s: State, q: Id, chs: seq<Choice>)
    requires Run(s, CallsOf(q, chs)) && q in s.reqs && forall ch | ch in chs :: ch.reply == Ok
    requires var s' := Exec(s, CallsOf(q, chs)); q in s'.reqs && !Active(s'.reqs[q].pc)
    ensures Solo(s.st, q, s.reqs[q].kind, s.reqs[q].pc, chs)
    ensures var s', m := Exec(s, CallsOf(q, chs)), End(s.st, q, s.reqs[q].kind, s.reqs[q].pc, chs);
            s'.st == m.st && s'.reqs[q].pc == m.pc
    decreases |chs|
  {
    hide MoveAny, ChoiceOk, Fits;
    if chs != [] {
      assert CallsOf(q, chs)[1..] == CallsOf(q, chs[1..]);
      assert forall ch | ch in chs[1..] :: ch in chs;
      CallsAreSolo(Apply(s, Call(q, chs[0])), q, chs[1..]);
    }
  }

  lemma AloneIsSolo(s: State, q: Id, kind: Kind, chs: seq<Choice>)
    requires Alone(s, q, kind, chs)
    ensures Solo(s.st, q, kind, StartPc(kind), chs)
    ensures var m := End(s.st, q, kind, StartPc(kind), chs);
            q in After(s, q, kind, chs).reqs && After(s, q, kind, chs).st == m.st
                && After(s, q, kind, chs).reqs[q].pc == m.pc
  {
    hide MoveAny, ChoiceOk, Fits;
    var tr := [Begin(q, kind)] + CallsOf(q, chs);
    assert tr[1..] == CallsOf(q, chs);
    CallsAreSolo(Apply(s, Begin(q, kind)), q, chs);
  }

  // ---- Cancel -------------------------------------------------------------------------------------

  /** Row r is CANCELLED, the occupations it names are released, and nothing else has changed. */
  ghost predicate CancelledOut(st: Stores, st': Stores, r: Id)
    requires r in st.rows
  {
    var row := st.rows[r];
    && st'.rows == st.rows[r := if row.status.Cancelled? then row else row.(status := Cancelled, expires := None)]
    && st'.occs.Keys == st.occs.Keys
    && (forall id | id in st.occs :: st'.occs[id] ==
          if Names(row, id) then st.occs[id].(status := OccReleased) else st.occs[id])
    && st'.now == st.now && st'.claims == st.claims && st'.birth == st.birth
  }

  lemma CancelSolo(st: Stores, q: Id, r: Id, chs: seq<Choice>)
    requires Solo(st, q, CancelReq(r), StartPc(CancelReq(r)), chs)
    ensures var m := End(st, q, CancelReq(r), StartPc(CancelReq(r)), chs);
            if r !in st.rows then m == Move(st, Done(NotFound)) && |chs| == 1
            else m.pc == Done(CancelDone(r, true, true)) && CancelledOut(st, m.st, r) && |chs| == 4
  {
    hide MoveReserve, MoveBook, MovePromote, MoveRelease, MoveHold, MoveSweep, Solo, End;
    hide ReleaseOpt, CancelRows, CancelledOut;
    if r in st.rows { CancelStores(st, r); }
    var kind := CancelReq(r);
    var m, rest := SoloCall(st, q, kind, CancelLoad, chs);
    if r in st.rows {
      m, rest := SoloCall(m.st, q, kind, m.pc, rest);
      m, rest := SoloCall(m.st, q, kind, m.pc, rest);
      m, rest := SoloCall(m.st, q, kind, m.pc, rest);
    }
    SoloOver(m.st, q, kind, m.pc, rest);
  }

  lemma CancelStores(st: Stores, r: Id)
    requires r in st.rows
    ensures var row := st.rows[r];
            CancelledOut(st, ReleaseOpt(ReleaseOpt(CancelRows(st, {r}), row.bayOcc, Ok), row.techOcc, Ok), r)
  {
    hide CancelRows, ReleaseOpt;
    CancelOneRow(st, r);
    var row, c := st.rows[r], CancelRows(st, {r});
    OneReleased(c, row.bayOcc);
    OneReleased(ReleaseOpt(c, row.bayOcc, Ok), row.techOcc);
  }

  lemma CancelOneRow(st: Stores, r: Id)
    requires r in st.rows
    ensures var row := st.rows[r];
            CancelRows(st, {r}) == st.(rows := st.rows[
              r := if row.status.Cancelled? then row else row.(status := Cancelled, expires := None)])
  {
    var row := st.rows[r];
    assert CancelRows(st, {r}).rows ==
           st.rows[r := if row.status.Cancelled? then row else row.(status := Cancelled, expires := None)];
  }

  lemma OneReleased(st: Stores, id: Option<OccId>)
    ensures var st' := ReleaseOpt(st, id, Ok);
            && st' == st.(occs := st'.occs) && st'.occs.Keys == st.occs.Keys
            && forall x | x in st.occs :: st'.occs[x] ==
                 if id == Some(x) then st.occs[x].(status := OccReleased) else st.occs[x]
  {
  }

  lemma SoloOver(st: Stores, q: Id, kind: Kind, pc: Pc, chs: seq<Choice>)
    requires !Active(pc) && Solo(st, q, kind, pc, chs)
    ensures chs == [] && End(st, q, kind, pc, chs) == Move(st, pc)
  {
  }

  /** DELETE of an appointment, alone and answered: four calls, the row CANCELLED, both its
      occupations released. Of an unknown one: not found, and nothing changed. */
  lemma CancelAlone(s: State, q: Id, r: Id, chs: seq<Choice>)
    requires Alone(s, q, CancelReq(r), chs)
    ensures var s' := After(s, q, CancelReq(r), chs);
            && q in s'.reqs
            && if r !in s.st.rows then s'.st == s.st && s'.reqs[q].pc == Done(NotFound)
               else s'.reqs[q].pc == Done(CancelDone(r, true, true)) && CancelledOut(s.st, s'.st, r)
  {
    hide Solo, End, After, CancelledOut, Alone;
    AloneIsSolo(s, q, CancelReq(r), chs);
    CancelSolo(s.st, q, r, chs);
  }

  // ---- Confirming a hold ----------------------------------------------------------------------------

  /** A Confirm of `id` succeeds now. */
  ghost predicate CanConfirm(st: Stores, id: OccId) {
    && id in st.occs
    && var o := st.occs[id];
       o.status.OccConfirmed? || (o.status.OccHeld? && (o.expires.None? || st.now < o.expires.value))
  }

  /** t and b are released, or were gone; nothing else has changed. */
  ghost predicate GaveBack(st: Stores, st': Stores, t: OccId, b: OccId) {
    && st'.rows == st.rows && st'.now == st.now && st'.birth == st.birth && st'.occs.Keys == st.occs.Keys
    && (forall id | id in {t, b} && id in st'.occs :: st'.occs[id].status.OccReleased?)
    && (forall id | id in st.occs && id !in {t, b} :: st'.occs[id] == st.occs[id])
  }

  /** Row r and its two occupations are CONFIRMED, and nothing else has changed. */
  ghost predicate BookedNow(st: Stores, st': Stores, r: Id, t: OccId, b: OccId, key: string, finger: string) {
    && r in st.rows && t in st.occs && b in st.occs
    && st'.rows == st.rows[r := st.rows[r].(
         status := Confirmed, expires := None, key := if key == "" then None else Some(key), finger := Some(finger))]
    && st'.occs == st.occs[t := st.occs[t].(status := OccConfirmed, expires := None)]
                          [b := st.occs[b].(status := OccConfirmed, expires := None)]
    && st'.now == st.now && st'.birth == st.birth
  }

  /** Another CONFIRMED row than r carries the key. */
  ghost predicate KeyElsewhere(st: Stores, r: Id, key: string) {
    key != "" && exists x :: x in st.rows && x != r && st.rows[x].status.Confirmed? && st.rows[x].key == Some(key)
  }

  function FingerOfHold(r: Id, who: Who): string {
    Fingerprint.Encode([r, who.dealership, who.customer, who.vehicle, who.service, ""])
  }

  /** What an answered Confirm does. */
  lemma ConfirmMoves(st: Stores, kind: Kind, r: Id, t: OccId, b: OccId, ch: Choice)
    requires Confirms(kind) && ch.reply == Ok
    ensures MovePromote(st, kind, ConfirmTech(r, t, b), ch) ==
            if CanConfirm(st, t) then Move(ConfirmOcc(st, t), ConfirmBay(r, t, b))
                else Move(st, RelBay(t, b, Unavailable))
    ensures MovePromote(st, kind, ConfirmBay(r, t, b), ch) ==
            if CanConfirm(st, b) then Move(ConfirmOcc(st, b), Flip(r, t, b)) else Move(st, RelBay(t, b, Unavailable))
  {
    hide ConfirmOcc;
  }

  /** What an answered update, and an answered re-read of a HELD row, do. */
  lemma FlipMoves(st: Stores, kind: Kind, r: Id, t: OccId, b: OccId, ch: Choice)
    requires Confirms(kind) && ch.reply == Ok && r in st.rows && st.rows[r].status.Held?
    ensures MovePromote(st, kind, Flip(r, t, b), ch) ==
            if KeyTaken(st, r, kind.key) then Move(st, Reread(r, t, b, true))
            else Move(PromoteRow(st, r, kind.key, PrintOf(st, kind, r)), FinalGet(r))
    ensures MovePromote(st, kind, Reread(r, t, b, true), ch) == Move(st, RelBay(t, b, Conflict))
  {
    hide KeyTaken, PrintOf;
  }

  /** From the update to the answer. */
  lemma FlipSolo(st: Stores, st2: Stores, q: Id, kind: Kind, r: Id, t: OccId, b: OccId, finger: string,
      chs: seq<Choice>)
    requires Confirms(kind) && Solo(st2, q, kind, Flip(r, t, b), chs)
    requires r in st.rows && st.rows[r].status.Held? && finger == PrintOf(st, kind, r) && finger != ""
    requires t in st.occs && b in st.occs && Around(st, st2, t, b)
    requires st2.occs == st.occs[t := st.occs[t].(status := OccConfirmed, expires := None)]
                                [b := st.occs[b].(status := OccConfirmed, expires := None)]
    ensures var m := End(st2, q, kind, Flip(r, t, b), chs);
            if KeyElsewhere(st, r, kind.key) then m.pc == Done(Conflict) && GaveBack(st, m.st, t, b)
            else m.pc == Done(Booked(r)) && BookedNow(st, m.st, r, t, b, kind.key, finger)
  {
    hide MoveReserve, MoveBook, MovePromote, MoveRelease, MoveHold, MoveCancel, MoveSweep, Solo, End, PrintOf;
    hide GaveBack, BookedNow, KeyTaken, KeyElsewhere, PromoteRow;
    SameKeys(st, st2, r, kind.key);
    SamePrint(st, st2, kind, r);
    SoloGoesOn(st2, q, kind, Flip(r, t, b), chs);
    FlipMoves(st2, kind, r, t, b, chs[0]);
    var m, rest := SoloCall(st2, q, kind, Flip(r, t, b), chs);
    if KeyElsewhere(st, r, kind.key) {
      SoloGoesOn(m.st, q, kind, m.pc, rest);
      FlipMoves(st2, kind, r, t, b, rest[0]);
      m, rest := SoloCall(m.st, q, kind, m.pc, rest);
      BackSolo(st, m.st, q, kind, t, b, Conflict, rest);
    } else {
      PromotedNow(st, st2, r, t, b, kind.key, finger);
      PromotedThere(st2, r, kind.key, finger);
      SoloGoesOn(m.st, q, kind, m.pc, rest);
      LastMove(m.st, kind, r, rest[0]);
      m, rest := SoloCall(m.st, q, kind, m.pc, rest);
      SoloOver(m.st, q, kind, m.pc, rest);
    }
  }

  lemma PromotedThere(st: Stores, r: Id, key: string, finger: string)
    requires r in st.rows
    ensures r in PromoteRow(st, r, key, finger).rows
  {
  }

  lemma LastMove(st: Stores, kind: Kind, r: Id, ch: Choice)
    requires Confirms(kind) && ch.reply == Ok && r in st.rows
    ensures MovePromote(st, kind, FinalGet(r), ch) == Move(st, Done(Booked(r)))
  {
  }

  /** From the first Confirm to the answer. */
  lemma PromoteSolo(st: Stores, q: Id, kind: Kind, r: Id, t: OccId, b: OccId, finger: string, chs: seq<Choice>)
    requires Confirms(kind) && Solo(st, q, kind, ConfirmTech(r, t, b), chs)
    requires r in st.rows && st.rows[r].status.Held? && t != b && finger == PrintOf(st, kind, r) && finger != ""
    requires CanConfirm(st, t) ==> t in st.claims
    requires CanConfirm(st, b) ==> b in st.claims
    ensures var m := End(st, q, kind, ConfirmTech(r, t, b), chs);
            if !CanConfirm(st, t) || !CanConfirm(st, b) then m.pc == Done(Unavailable) && GaveBack(st, m.st, t, b)
            else if KeyElsewhere(st, r, kind.key) then m.pc == Done(Conflict) && GaveBack(st, m.st, t, b)
            else m.pc == Done(Booked(r)) && BookedNow(st, m.st, r, t, b, kind.key, finger)
  {
    hide MoveReserve, MoveBook, MovePromote, MoveRelease, MoveHold, MoveCancel, MoveSweep, Solo, End, PrintOf;
    hide GaveBack, BookedNow, KeyElsewhere, ConfirmOcc;
    SoloGoesOn(st, q, kind, ConfirmTech(r, t, b), chs);
    ConfirmMoves(st, kind, r, t, b, chs[0]);
    var m, rest := SoloCall(st, q, kind, ConfirmTech(r, t, b), chs);
    if !CanConfirm(st, t) {
      BackSolo(st, m.st, q, kind, t, b, Unavailable, rest);
    } else {
      ConfirmedOne(st, t, b);
      SoloGoesOn(m.st, q, kind, m.pc, rest);
      ConfirmMoves(m.st, kind, r, t, b, rest[0]);
      m, rest := SoloCall(m.st, q, kind, m.pc, rest);
      if !CanConfirm(st, b) {
        BackSolo(st, m.st, q, kind, t, b, Unavailable, rest);
      } else {
        ConfirmedTwo(st, t, b);
        FlipSolo(st, m.st, q, kind, r, t, b, finger, rest);
      }
    }
  }

  /** Between st and st1 at most t and b have changed. */
  ghost predicate Around(st: Stores, st1: Stores, t: OccId, b: OccId) {
    && st1.rows == st.rows && st1.now == st.now && st1.birth == st.birth && st1.occs.Keys == st.occs.Keys
    && (forall id | id in st.occs && id !in {t, b} :: st1.occs[id] == st.occs[id])
  }

  lemma BackSolo(st: Stores, st1: Stores, q: Id, kind: Kind, t: OccId, b: OccId, res: Result, chs: seq<Choice>)
    requires Around(st, st1, t, b) && Solo(st1, q, kind, RelBay(t, b, res), chs)
    ensures var m := End(st1, q, kind, RelBay(t, b, res), chs);
            m.pc == Done(res) && GaveBack(st, m.st, t, b)
  {
    hide MoveReserve, MoveBook, MovePromote, MoveHold, MoveCancel, MoveSweep, Solo, End;
    var m, rest := SoloCall(st1, q, kind, RelBay(t, b, res), chs);
    m, rest := SoloCall(m.st, q, kind, m.pc, rest);
    SoloOver(m.st, q, kind, m.pc, rest);
  }

  lemma ConfirmedOne(st: Stores, t: OccId, b: OccId)
    requires CanConfirm(st, t) && t in st.claims && t != b
    ensures var st1 := ConfirmOcc(st, t);
            Around(st, st1, t, b) && (CanConfirm(st1, b) <==> CanConfirm(st, b)) && Confirmable(st.occs, st.now, t)
  {
  }

  lemma ConfirmedTwo(st: Stores, t: OccId, b: OccId)
    requires CanConfirm(st, t) && CanConfirm(st, b) && t in st.claims && b in st.claims && t != b
    ensures var st2 := ConfirmOcc(ConfirmOcc(st, t), b);
            && Around(st, st2, t, b)
            && st2.occs == st.occs[t := st.occs[t].(status := OccConfirmed, expires := None)]
                                  [b := st.occs[b].(status := OccConfirmed, expires := None)]
  {
  }

  lemma SameKeys(st: Stores, st': Stores, r: Id, key: string)
    requires st'.rows == st.rows
    ensures KeyTaken(st', r, key) <==> KeyElsewhere(st, r, key)
  {
  }

  lemma SamePrint(st: Stores, st': Stores, kind: Kind, r: Id)
    requires Confirms(kind) && st'.rows == st.rows && r in st.rows
    ensures PrintOf(st', kind, r) == PrintOf(st, kind, r)
  {
  }

  lemma PromotedNow(st: Stores, st2: Stores, r: Id, t: OccId, b: OccId, key: string, finger: string)
    requires r in st.rows && st.rows[r].status.Held? && !KeyTaken(st2, r, key) && finger != "" && t in st.occs
        && b in st.occs
    requires st2.rows == st.rows && st2.now == st.now && st2.birth == st.birth
    requires st2.occs == st.occs[t := st.occs[t].(status := OccConfirmed, expires := None)]
                                [b := st.occs[b].(status := OccConfirmed, expires := None)]
    ensures BookedNow(st, PromoteRow(st2, r, key, finger), r, t, b, key, finger)
  {
  }

  /** What POST /appointments with a holdId does, by the state of the hold. */
  ghost predicate HoldConfirmed(st: Stores, r: Id, key: string, res: Result, st': Stores) {
    if r !in st.rows then res == NotFound && st' == st
    else
      var row := st.rows[r];
      match row.status
      case Cancelled => res == Unavailable && st' == st
      case Confirmed => st' == st && res == if KeyElsewhere(st, r, key) then Conflict else Replayed(r)
      case Held =>
        && row.techOcc.Some? && row.bayOcc.Some?
        && var t, b := row.techOcc.value, row.bayOcc.value;
           if !CanConfirm(st, t) || !CanConfirm(st, b) then res == Unavailable && GaveBack(st, st', t, b)
           else if KeyElsewhere(st, r, key) then res == Conflict && GaveBack(st, st', t, b)
           else res == Booked(r) && BookedNow(st, st', r, t, b, key, FingerOfHold(r, row.who))
  }

  lemma LoadMoves(st: Stores, kind: Kind, ch: Choice)
    requires kind.PromoteReq? && ch.reply == Ok
    ensures MoveHold(st, kind, Load, ch) == Move(st,
              if kind.row !in st.rows then Done(NotFound) else
              match st.rows[kind.row].status
              case Cancelled => Done(Unavailable)
              case Confirmed => if kind.key == "" then Done(Replayed(kind.row)) else KeyCheck
              case Held =>
                if st.rows[kind.row].techOcc.None? || st.rows[kind.row].bayOcc.None? then Done(Unavailable)
                else ConfirmTech(kind.row, st.rows[kind.row].techOcc.value, st.rows[kind.row].bayOcc.value))
  {
  }

  lemma KeyCheckMoves(st: Stores, kind: Kind, ch: Choice)
    requires kind.PromoteReq? && kind.key != "" && ch.reply == Ok && UniqueKeys(st)
    requires kind.row in st.rows && st.rows[kind.row].status.Confirmed?
    ensures MoveHold(st, kind, KeyCheck, ch) ==
            Move(st, Done(if KeyElsewhere(st, kind.row, kind.key) then Conflict else Replayed(kind.row)))
  {
    var hit := ByKey(st, kind.key);
    assert forall x | x in Holders(st, kind.key) :: hit == Some(x);
    if KeyElsewhere(st, kind.row, kind.key) {
      var x :| x in st.rows && x != kind.row && st.rows[x].status.Confirmed? && st.rows[x].key == Some(kind.key);
      assert x in Holders(st, kind.key);
    } else if hit.Some? {
      assert hit.value in Holders(st, kind.key) && hit.value in st.rows;
    }
  }

  /** A HELD row's two occupations, as the invariant has them. */
  lemma HeldPair(st: Stores, r: Id)
    requires StoreInv(st) && r in st.rows && st.rows[r].status.Held?
    ensures st.rows[r].techOcc.Some? && st.rows[r].bayOcc.Some? && st.rows[r].techOcc != st.rows[r].bayOcc
    ensures st.rows[r].techOcc.value in st.claims && st.rows[r].bayOcc.value in st.claims
  {
    assert RowOk(st, r);
  }

  lemma HoldPrintIs(r: Id, who: Who)
    ensures HoldPrint(r, who) == FingerOfHold(r, who) && FingerOfHold(r, who) != ""
  {
    Fingerprint.PrintNotEmpty(r, who.dealership, who.customer, who.vehicle, who.service, "");
  }

  lemma HoldConfirmSolo(st: Stores, q: Id, key: string, r: Id, chs: seq<Choice>)
    requires Solo(st, q, PromoteReq(key, r), Load, chs) && StoreInv(st)
    ensures var m := End(st, q, PromoteReq(key, r), Load, chs);
            m.pc.Done? && HoldConfirmed(st, r, key, m.pc.res, m.st)
  {
    hide MoveReserve, MoveBook, MovePromote, MoveRelease, MoveHold, MoveCancel, MoveSweep, Solo, End, ClaimsOk, RowsOk;
    hide GaveBack, BookedNow, CanConfirm, KeyElsewhere, UniqueKeys, Exclusive;
    var kind := PromoteReq(key, r);
    SoloGoesOn(st, q, kind, Load, chs);
    LoadMoves(st, kind, chs[0]);
    var m, rest := SoloCall(st, q, kind, Load, chs);
    if r in st.rows && st.rows[r].status.Held? {
      HeldPair(st, r);
      HoldPrintIs(r, st.rows[r].who);
      PromoteSolo(st, q, kind, r, st.rows[r].techOcc.value, st.rows[r].bayOcc.value, FingerOfHold(r, st.rows[r].who),
          rest);
    } else if r in st.rows && st.rows[r].status.Confirmed? && key != "" {
      SoloGoesOn(st, q, kind, KeyCheck, rest);
      KeyCheckMoves(st, kind, rest[0]);
      m, rest := SoloCall(m.st, q, kind, m.pc, rest);
      SoloOver(m.st, q, kind, m.pc, rest);
    } else {
      SoloOver(m.st, q, kind, m.pc, rest);
      NoKeyElsewhere(st, r);
    }
  }

  lemma NoKeyElsewhere(st: Stores, r: Id)
    ensures !KeyElsewhere(st, r, "")
  {
  }

  /** POST /appointments with a holdId, alone and answered. */
  lemma ConfirmHoldAlone(s: State, q: Id, key: string, r: Id, chs: seq<Choice>)
    requires Alone(s, q, PromoteReq(key, r), chs) && Reachable(s)
    ensures var s' := After(s, q, PromoteReq(key, r), chs);
            q in s'.reqs && s'.reqs[q].pc.Done? && HoldConfirmed(s.st, r, key, s'.reqs[q].pc.res, s'.st)
  {
    hide Solo, End, After, Alone, HoldConfirmed, Reachable, Local, ClaimsOk, RowsOk;
    ReachableInv(s);
    AloneIsSolo(s, q, PromoteReq(key, r), chs);
    HoldConfirmSolo(s.st, q, key, r, chs);
  }

  // ---- Reserve ------------------------------------------------------------------------------------

  /** Who the claim queries of this request may pick: technicians, each with the end of the job, and
      bays; and the order in which they prefer them. */
  datatype Market = Market(techs: set<Cand>, bays: set<Id>, rank: Id -> int)

  function CandsFor(mk: Market, prior: Option<Claimed>): set<Cand> {
    if prior.None? then mk.techs else set b | b in mk.bays :: Cand(b, prior.value.end)
  }

  /** The pick of the claim query: the first free candidate, or none if there is none. */
  ghost predicate PicksFirst(st: Stores, kind: Kind, pc: Pc, ch: Choice, mk: Market) {
    pc.Pick? && Books(kind) ==>
      var free := R.FreeIn(st.occs, SideOf(pc.prior), CandsFor(mk, pc.prior), kind.body.start);
      && (ch.found <==> free != {})
      && (ch.found ==> R.First(free, Cand(ch.resource, if pc.prior.None? then ch.end else pc.prior.value.end), mk.rank))
  }

  ghost predicate Picks(st: Stores, q: Id, kind: Kind, pc: Pc, chs: seq<Choice>, mk: Market)
    requires Solo(st, q, kind, pc, chs)
    decreases |chs|
  {
    Active(pc) ==>
      && PicksFirst(st, kind, pc, chs[0], mk)
      && var m := MoveAny(st, q, kind, pc, chs[0]);
         Picks(m.st, q, kind, m.pc, chs[1..], mk)
  }

  /** One call more, in the market. */
  lemma PickCall(st: Stores, q: Id, kind: Kind, pc: Pc, chs: seq<Choice>, mk: Market)
      returns (m: Move, rest: seq<Choice>)
    requires Active(pc) && Solo(st, q, kind, pc, chs) && Picks(st, q, kind, pc, chs, mk)
    ensures chs != [] && chs[0].reply == Ok && Fits(kind, pc) && ChoiceOk(st, kind, pc, chs[0]) && rest == chs[1..]
    ensures PicksFirst(st, kind, pc, chs[0], mk)
    ensures m == MoveAny(st, q, kind, pc, chs[0]) && Solo(m.st, q, kind, m.pc, rest)
        && Picks(m.st, q, kind, m.pc, rest, mk)
    ensures End(st, q, kind, pc, chs) == End(m.st, q, kind, m.pc, rest)
  {
    hide MoveAny, ChoiceOk, Fits, PicksFirst;
    m, rest := MoveAny(st, q, kind, pc, chs[0]), chs[1..];
  }

  /** The stores with one more hold. */
  function WithClaim(st: Stores, occs: Table, q: Id, id: OccId, c: Cand, start: int): Stores {
    st.(occs := occs, claims := st.claims[id := Claim(c.resource, start, c.end, st.now, q, None, None, false)])
  }

  /** One attempt: it grants the first free candidate, or deletes the expired holds. */
  lemma AttemptSolo(st: Stores, q: Id, kind: Kind, prior: Option<Claimed>, n: nat, chs: seq<Choice>, mk: Market)
    returns (m: Move, rest: seq<Choice>, c: Option<Cand>, key: Id)
    requires Books(kind) && Solo(st, q, kind, Pick(prior, n), chs) && Picks(st, q, kind, Pick(prior, n), chs, mk)
    ensures Solo(m.st, q, kind, m.pc, rest) && Picks(m.st, q, kind, m.pc, rest, mk)
    ensures End(st, q, kind, Pick(prior, n), chs) == End(m.st, q, kind, m.pc, rest)
    ensures var free := R.FreeIn(st.occs, SideOf(prior), CandsFor(mk, prior), kind.body.start);
            var id := OccId(SideOf(prior), key);
            if free == {} then
              && c == None && m.st == st.(occs := Reap(st.occs, st.now, SideOf(prior)))
              && m.pc == if n < 3 then Pick(prior, n + 1) else ReserveFailed(prior)
            else
              && c.Some? && R.First(free, c.value, mk.rank) && id !in st.claims
              && m.st == WithClaim(st, st.occs[id := Hold(c.value.resource, kind.body.start, c.value.end, st.now)],
                                   q, id, c.value, kind.body.start)
              && m.pc == ReserveDone(prior, Claimed(id, c.value.resource, kind.body.start, c.value.end))
  {
    hide MoveBook, MovePromote, MoveRelease, MoveHold, MoveCancel, MoveSweep, Solo, End, Picks, R.First;
    var start := kind.body.start;
    var ch := chs;
    m, rest := PickCall(st, q, kind, Pick(prior, n), chs, mk);
    var found := ch[0];
    if found.found {
      c := Some(Cand(found.resource, if prior.None? then found.end else prior.value.end));
      var put := rest;
      m, rest := PickCall(m.st, q, kind, m.pc, rest, mk);
      key := put[0].key;
    } else {
      c, key := None, "";
      m, rest := PickCall(m.st, q, kind, m.pc, rest, mk);
    }
  }

  /** The machine's Reserve, alone, does what the allocator's Reserve does. */
  lemma ReserveSolo(st: Stores, q: Id, kind: Kind, prior: Option<Claimed>, chs: seq<Choice>, mk: Market)
    returns (m: Move, rest: seq<Choice>, c: Option<Cand>, key: Id)
    requires Books(kind) && Solo(st, q, kind, Pick(prior, 1), chs) && Picks(st, q, kind, Pick(prior, 1), chs, mk)
    ensures Solo(m.st, q, kind, m.pc, rest) && Picks(m.st, q, kind, m.pc, rest, mk)
    ensures End(st, q, kind, Pick(prior, 1), chs) == End(m.st, q, kind, m.pc, rest)
    ensures var id := OccId(SideOf(prior), key);
            && R.Served(st.occs, m.st.occs, SideOf(prior), CandsFor(mk, prior), kind.body.start,
                R.Call(st.now, mk.rank, key), c)
            && (c.Some? ==> id !in st.claims && m.st == WithClaim(st, m.st.occs, q, id, c.value, kind.body.start))
            && (c.None? ==> m.st == st.(occs := m.st.occs))
            && m.pc == if c.Some? then ReserveDone(prior, Claimed(id, c.value.resource, kind.body.start, c.value.end))
                       else ReserveFailed(prior)
  {
    hide Solo, End, Picks, R.First;
    var side, cands, start := SideOf(prior), CandsFor(mk, prior), kind.body.start;
    R.ReapedKeepsFree(st.occs, side, cands, start, st.now);
    R.ReapTwice(st.occs, st.now, side);
    m, rest, c, key := AttemptSolo(st, q, kind, prior, 1, chs, mk);
    if c.None? {
      m, rest, c, key := AttemptSolo(m.st, q, kind, prior, 2, rest, mk);
      if c.None? {
        m, rest, c, key := AttemptSolo(m.st, q, kind, prior, 3, rest, mk);
        forall x | x in cands
          ensures !R.Vacant(st.occs, side, x, start, st.now)
        {
          assert x !in R.FreeIn(Reap(st.occs, st.now, side), side, cands, start);
        }
      }
    }
  }

  // ---- Booking ------------------------------------------------------------------------------------

  /** What is left of the occupations after this request's reaps, but for its own two. */
  ghost predicate OthersKept(st: Stores, st': Stores, own: set<OccId>) {
    && (forall x | x in st'.occs && x !in own :: x in st.occs && st'.occs[x] == st.occs[x])
    && (forall x | x in st.occs && x !in st'.occs ::
          st.occs[x].status.OccHeld? && st.occs[x].expires.Some? && st.occs[x].expires.value <= st.now)
    && (forall x | x in own :: x !in st.claims)
  }

  /** Occupation `id` is a hold of 120 s for candidate c, or CONFIRMED for it. */
  ghost predicate Occupies(st: Stores, id: OccId, c: Cand, start: int, expires: Option<int>) {
    id in st.occs && st.occs[id] == Occ(c.resource, start, c.end, if expires.Some? then OccHeld else OccConfirmed,
        expires)
  }

  /** Row r is what was asked for, on technician t and bay b. */
  ghost predicate RowFor(st: Stores, r: Id, body: Body, t: Cand, tid: OccId, b: Cand, bid: OccId, row: Row) {
    && row.who == body.who && row.start == body.start && row.end == t.end
    && row.tech == t.resource && row.bay == b.resource && row.techOcc == Some(tid) && row.bayOcc == Some(bid)
  }

  /** The technician the query prefers, among those with no claim that counts at the time. */
  ghost predicate ChoosesTech(st: Stores, mk: Market, start: int, t: Option<Cand>) {
    if t.Some? then t.value in mk.techs && R.Unclaimed(st.occs, Tech, t.value.resource, start, t.value.end, st.now)
    else forall c | c in mk.techs :: !R.Unclaimed(st.occs, Tech, c.resource, start, c.end, st.now)
  }

  ghost predicate ChoosesBay(st: Stores, mk: Market, start: int, end: int, b: Option<Cand>) {
    if b.Some? then b.value.end == end && b.value.resource in mk.bays
                    && R.Unclaimed(st.occs, Bay, b.value.resource, start, end, st.now)
    else forall x | x in mk.bays :: !R.Unclaimed(st.occs, Bay, x, start, end, st.now)
  }

  lemma ServedChooses(t: Table, t': Table, side: Side, cands: set<Cand>, start: int, call: R.Call, c: Option<Cand>)
    requires R.Served(t, t', side, cands, start, call, c)
    ensures c.Some? ==> c.value in cands && R.Unclaimed(t, side, c.value.resource, start, c.value.end, call.now)
    ensures c.None? ==> forall x | x in cands :: !R.Unclaimed(t, side, x.resource, start, x.end, call.now)
    ensures c.Some? ==>
              && OccId(side, call.key) in t'
              && t'[OccId(side, call.key)] == Hold(c.value.resource, start, c.value.end, call.now)
    ensures forall x | x in t' && !(c.Some? && x == OccId(side, call.key)) :: x in t && t'[x] == t[x]
    ensures forall x | x in t && x !in t' :: Expired(t[x], call.now) && x.side == side
  {
    R.ReapedKeepsFree(t, side, cands, start, call.now);
    forall x | x in cands
      ensures R.Vacant(t, side, x, start, call.now) <==> R.Unclaimed(t, side, x.resource, start, x.end, call.now)
    {
      R.VacantIsUnclaimed(t, side, x, start, call.now);
    }
  }

  /** Claims on the other side do not count. */
  lemma OtherSide(t: Table, t': Table, id: OccId, side: Side, resource: Id, start: int, end: int, now: int)
    requires id.side != side
    requires forall x | x in t' && x != id :: x in t && t'[x] == t[x]
    requires forall x | x in t && x !in t' :: x.side != side
    ensures R.Unclaimed(t', side, resource, start, end, now) <==> R.Unclaimed(t, side, resource, start, end, now)
  {
  }

  ghost predicate RowsSame(st: Stores, st': Stores) {
    st'.rows == st.rows && st'.birth == st.birth && st'.now == st.now
  }

  /** The technician's Reserve. */
  lemma TechSolo(st: Stores, q: Id, kind: Kind, chs: seq<Choice>, mk: Market)
    returns (m: Move, rest: seq<Choice>, t: Option<Cand>, tid: OccId)
    requires Books(kind) && Solo(st, q, kind, Pick(None, 1), chs) && Picks(st, q, kind, Pick(None, 1), chs, mk)
    requires StoreInv(st)
    ensures Solo(m.st, q, kind, m.pc, rest) && Picks(m.st, q, kind, m.pc, rest, mk)
    ensures End(st, q, kind, Pick(None, 1), chs) == End(m.st, q, kind, m.pc, rest)
    ensures tid.side == Tech && ChoosesTech(st, mk, kind.body.start, t) && RowsSame(st, m.st)
    ensures forall x | x in m.st.occs && x != tid :: x in st.occs && m.st.occs[x] == st.occs[x]
    ensures forall x | x in st.occs && x !in m.st.occs :: Expired(st.occs[x], st.now) && x.side == Tech
    ensures t.None? ==> m.pc == Done(Unavailable) && m.st.claims == st.claims && tid !in m.st.occs
    ensures t.Some? ==>
              && m.pc == Pick(Some(Claimed(tid, t.value.resource, kind.body.start, t.value.end)), 1)
              && tid !in st.claims && m.st.claims.Keys == st.claims.Keys + {tid}
              && Occupies(m.st, tid, t.value, kind.body.start, Some(st.now + 120_000_000))
  {
    hide Solo, End, Picks, R.Served, R.Unclaimed, ClaimOk, RowsOk, Exclusive, UniqueKeys;
    var key;
    m, rest, t, key := ReserveSolo(st, q, kind, None, chs, mk);
    tid := OccId(Tech, key);
    ServedChooses(st.occs, m.st.occs, Tech, mk.techs, kind.body.start, R.Call(st.now, mk.rank, key), t);
    if t.None? { tid := AnId(m.st); }
  }

  /** Some id is not in use. */
  lemma AnId(st: Stores) returns (id: OccId)
    ensures id.side == Tech && id !in st.occs && id !in st.claims
  {
    var used := set x | x in st.occs.Keys + st.claims.Keys :: x.key;
    var key := Unused(used);
    id := OccId(Tech, key);
    assert forall x | x in st.occs.Keys + st.claims.Keys :: x.key in used;
  }

  lemma {:induction false} Longest(used: set<Id>) returns (n: nat)
    ensures forall x | x in used :: |x| <= n
    decreases |used|
  {
    if used == {} {
      n := 0;
    } else {
      var x :| x in used;
      n := Longest(used - {x});
      if n < |x| { n := |x|; }
    }
  }

  lemma Unused(used: set<Id>) returns (key: Id)
    ensures key !in used
  {
    var n := Longest(used);
    key := seq(n + 1, i => 'x');
  }

  /** Both Reserves, up to the insert or the refusal. */
  lemma PairSolo(st: Stores, q: Id, kind: Kind, chs: seq<Choice>, mk: Market)
    returns (m: Move, rest: seq<Choice>, t: Option<Cand>, tid: OccId, b: Option<Cand>, bid: OccId)
    requires Books(kind) && Solo(st, q, kind, Pick(None, 1), chs) && Picks(st, q, kind, Pick(None, 1), chs, mk)
    requires StoreInv(st)
    ensures Solo(m.st, q, kind, m.pc, rest) && End(st, q, kind, Pick(None, 1), chs) == End(m.st, q, kind, m.pc, rest)
    ensures RowsSame(st, m.st) && tid.side == Tech && bid.side == Bay
    ensures ChoosesTech(st, mk, kind.body.start, t)
    ensures t.None? ==> m.pc == Done(Unavailable) && OthersKept(st, m.st, {})
    ensures t.Some? ==> ChoosesBay(st, mk, kind.body.start, t.value.end, b)
    ensures t.Some? && b.None? ==>
              && m.pc == Done(Unavailable) && OthersKept(st, m.st, {tid})
              && tid in m.st.occs && m.st.occs[tid].status.OccReleased?
    ensures t.Some? && b.Some? ==>
              && m.pc == Insert(Claimed(tid, t.value.resource, kind.body.start, t.value.end),
                                Claimed(bid, b.value.resource, kind.body.start, t.value.end))
              && OthersKept(st, m.st, {tid, bid}) && {tid, bid} <= m.st.claims.Keys
              && Occupies(m.st, tid, t.value, kind.body.start, Some(st.now + 120_000_000))
              && Occupies(m.st, bid, b.value, kind.body.start, Some(st.now + 120_000_000))
  {
    hide Solo, End, Picks, R.Unclaimed, StoreInv, OthersKept, ChoosesBay, ChoosesTech, CandsFor;
    hide MoveAny, ChoiceOk, Fits, PicksFirst;
    b, bid := None, OccId(Bay, "");
    m, rest, t, tid := TechSolo(st, q, kind, chs, mk);
    var st1, prior := m.st, m.pc;
    if t.None? {
      KeptOnce(st, st1, tid);
    } else {
      m, rest, b, bid := BaySolo(st1, q, kind, prior.prior, rest, mk);
      BayChosen(st, st1, tid, mk, kind.body.start, t.value.end, prior.prior, b);
      OccsClaimed(st);
      KeptTwice(st, st1, m.st, tid, bid, b.Some?);
      if b.None? {
        var st2, calls := m.st, rest;
        m, rest := PickCall(m.st, q, kind, m.pc, rest, mk);
        TechGivenBack(st, st2, kind, tid, q, calls[0], m);
      }
    }
  }

  /** The bay's Reserve. */
  lemma BaySolo(st: Stores, q: Id, kind: Kind, prior: Option<Claimed>, chs: seq<Choice>, mk: Market)
    returns (m: Move, rest: seq<Choice>, b: Option<Cand>, bid: OccId)
    requires Books(kind) && prior.Some? && Solo(st, q, kind, Pick(prior, 1), chs)
        && Picks(st, q, kind, Pick(prior, 1), chs, mk)
    ensures Solo(m.st, q, kind, m.pc, rest) && Picks(m.st, q, kind, m.pc, rest, mk)
    ensures End(st, q, kind, Pick(prior, 1), chs) == End(m.st, q, kind, m.pc, rest)
    ensures bid.side == Bay && RowsSame(st, m.st)
    ensures forall x | x in m.st.occs && !(b.Some? && x == bid) :: x in st.occs && m.st.occs[x] == st.occs[x]
    ensures forall x | x in st.occs && x !in m.st.occs :: Expired(st.occs[x], st.now) && x.side == Bay
    ensures b.Some? ==>
              b.value in CandsFor(mk, prior)
              && R.Unclaimed(st.occs, Bay, b.value.resource, kind.body.start, b.value.end, st.now)
    ensures b.None? ==> forall c | c in CandsFor(mk, prior) ::
        !R.Unclaimed(st.occs, Bay, c.resource, kind.body.start, c.end, st.now)
    ensures b.None? ==> m.pc == RelTech(prior.value.id, Unavailable) && m.st.claims == st.claims
    ensures b.Some? ==>
              && m.pc == Insert(prior.value, Claimed(bid, b.value.resource, kind.body.start, b.value.end))
              && bid !in st.claims && m.st.claims.Keys == st.claims.Keys + {bid}
              && Occupies(m.st, bid, b.value, kind.body.start, Some(st.now + 120_000_000))
  {
    hide Solo, End, Picks, R.Served, R.Unclaimed;
    var key;
    m, rest, b, key := ReserveSolo(st, q, kind, prior, chs, mk);
    bid := OccId(Bay, key);
    ServedChooses(st.occs, m.st.occs, Bay, CandsFor(mk, prior), kind.body.start, R.Call(st.now, mk.rank, key), b);
  }

  lemma KeptOnce(st: Stores, st1: Stores, tid: OccId)
    requires tid !in st1.occs
    requires forall x | x in st1.occs && x != tid :: x in st.occs && st1.occs[x] == st.occs[x]
    requires forall x | x in st.occs && x !in st1.occs :: Expired(st.occs[x], st.now)
    ensures OthersKept(st, st1, {})
  {
  }

  lemma KeptTwice(st: Stores, st1: Stores, st2: Stores, tid: OccId, bid: OccId, both: bool)
    requires tid !in st.claims && tid.side == Tech && bid.side == Bay && st.occs.Keys <= st.claims.Keys
    requires both ==> bid !in st1.claims && st1.claims.Keys == st.claims.Keys + {tid}
    requires st1.now == st.now && tid in st1.occs
    requires forall x | x in st1.occs && x != tid :: x in st.occs && st1.occs[x] == st.occs[x]
    requires forall x | x in st.occs && x !in st1.occs :: Expired(st.occs[x], st.now)
    requires forall x | x in st2.occs && !(both && x == bid) :: x in st1.occs && st2.occs[x] == st1.occs[x]
    requires forall x | x in st1.occs && x !in st2.occs :: Expired(st1.occs[x], st1.now) && x.side == Bay
    ensures OthersKept(st, st2, if both then {tid, bid} else {tid})
    ensures tid in st2.occs && st2.occs[tid] == st1.occs[tid]
  {
    forall x | x in st.occs && x !in st2.occs
      ensures Expired(st.occs[x], st.now)
    {
      if x in st1.occs { assert st1.occs[x] == st.occs[x]; }
    }
  }

  lemma OccsClaimed(st: Stores)
    requires StoreInv(st)
    ensures st.occs.Keys <= st.claims.Keys
  {
  }

  /** The technician's claim is given back. */
  lemma TechGivenBack(st: Stores, st2: Stores, kind: Kind, tid: OccId, q: Id, ch: Choice, m: Move)
    requires OthersKept(st, st2, {tid}) && tid in st2.occs && RowsSame(st, st2) && Books(kind) && ch.reply == Ok
    requires Fits(kind, RelTech(tid, Unavailable)) && ChoiceOk(st2, kind, RelTech(tid, Unavailable), ch)
    requires m == MoveAny(st2, q, kind, RelTech(tid, Unavailable), ch)
    ensures m.pc == Done(Unavailable) && OthersKept(st, m.st, {tid}) && RowsSame(st, m.st)
    ensures tid in m.st.occs && m.st.occs[tid].status.OccReleased?
  {
    hide MoveReserve, MoveBook, MovePromote, MoveHold, MoveCancel, MoveSweep;
  }

  lemma BayChosen(st: Stores, st1: Stores, tid: OccId, mk: Market, start: int, end: int, prior: Option<Claimed>,
      b: Option<Cand>)
    requires tid.side == Tech && st1.now == st.now && prior.Some? && prior.value.end == end
    requires forall x | x in st1.occs && x != tid :: x in st.occs && st1.occs[x] == st.occs[x]
    requires forall x | x in st.occs && x !in st1.occs :: x.side == Tech
    requires b.Some? ==> b.value in CandsFor(mk, prior)
                         && R.Unclaimed(st1.occs, Bay, b.value.resource, start, b.value.end, st1.now)
    requires b.None? ==> forall c | c in CandsFor(mk, prior) ::
        !R.Unclaimed(st1.occs, Bay, c.resource, start, c.end, st1.now)
    ensures ChoosesBay(st, mk, start, end, b)
  {
    forall x | x in mk.bays
      ensures R.Unclaimed(st1.occs, Bay, x, start, end, st.now) <==> R.Unclaimed(st.occs, Bay, x, start, end, st.now)
      ensures Cand(x, end) in CandsFor(mk, prior)
    {
      OtherSide(st.occs, st1.occs, tid, Bay, x, start, end, st.now);
    }
  }

  function FingerOfBody(body: Body): string {
    Fingerprint.Encode(["", body.who.dealership, body.who.customer, body.who.vehicle, body.who.service, body.startText])
  }

  /** What a booking request does: t and b are what its two Reserves chose, r the row it made. */
  ghost predicate BookingDone(st: Stores, kind: Kind, mk: Market, res: Result, st': Stores,
                              t: Option<Cand>, tid: OccId, b: Option<Cand>, bid: OccId, r: Id)
  {
    && Books(kind) && tid.side == Tech && bid.side == Bay && st'.now == st.now
    && ChoosesTech(st, mk, kind.body.start, t)
    && (t.Some? ==> ChoosesBay(st, mk, kind.body.start, t.value.end, b))
    && if t.None? then
         res == Unavailable && st'.rows == st.rows && OthersKept(st, st', {})
       else if b.None? then
         && res == Unavailable && st'.rows == st.rows && OthersKept(st, st', {tid})
         && tid in st'.occs && st'.occs[tid].status.OccReleased?
       else
         && r !in st.rows && r in st'.rows && st'.rows == st.rows[r := st'.rows[r]]
         && OthersKept(st, st', {tid, bid})
         && var row := st'.rows[r];
            && RowFor(st, r, kind.body, t.value, tid, b.value, bid, row)
            && if kind.HoldReq? then
                 && res == Created(r) && row.status.Held? && row.expires == Some(st.now + 120_000_000)
                 && row.key == None && row.finger == None
                 && Occupies(st', tid, t.value, kind.body.start, Some(st.now + 120_000_000))
                 && Occupies(st', bid, b.value, kind.body.start, Some(st.now + 120_000_000))
               else
                 && res == Booked(r) && row.status.Confirmed? && row.expires == None
                 && row.key == (if kind.key == "" then None else Some(kind.key))
                     && row.finger == Some(FingerOfBody(kind.body))
                 && Occupies(st', tid, t.value, kind.body.start, None)
                 && Occupies(st', bid, b.value, kind.body.start, None)
  }

  lemma BodyPrintIs(body: Body)
    ensures DirectPrint(body) == FingerOfBody(body) && FingerOfBody(body) != ""
  {
    Fingerprint.PrintNotEmpty("", body.who.dealership, body.who.customer, body.who.vehicle, body.who.service,
        body.startText);
  }

  /** What the answered insert leaves. */
  lemma InsertMoves(st: Stores, q: Id, kind: Kind, t: Claimed, b: Claimed, ch: Choice)
    requires Books(kind) && ch.reply == Ok && ch.key !in st.rows && {t.id, b.id} <= st.claims.Keys
    ensures var m := MoveBook(st, q, kind, Insert(t, b), ch);
            && m.pc == (if kind.HoldReq? then Done(Created(ch.key)) else ConfirmTech(ch.key, t.id, b.id))
            && m.st.occs == st.occs && m.st.now == st.now && m.st.claims.Keys == st.claims.Keys
            && m.st.rows == st.rows[ch.key := Row(kind.body.who, t.resource, b.resource, Some(t.id), Some(b.id),
                 kind.body.start, t.end, Held, Some(st.now + 120_000_000), None, None)]
  {
  }

  /** No CONFIRMED row carries the key. */
  ghost predicate KeyUnused(st: Stores, key: string) {
    key == "" || forall x | x in st.rows && st.rows[x].status.Confirmed? :: st.rows[x].key != Some(key)
  }

  lemma BookSolo(st: Stores, q: Id, kind: Kind, chs: seq<Choice>, mk: Market)
    returns (t: Option<Cand>, tid: OccId, b: Option<Cand>, bid: OccId, r: Id)
    requires Books(kind) && Solo(st, q, kind, Pick(None, 1), chs) && Picks(st, q, kind, Pick(None, 1), chs, mk)
    requires StoreInv(st) && (kind.DirectReq? ==> KeyUnused(st, kind.key))
    ensures var m := End(st, q, kind, Pick(None, 1), chs);
            m.pc.Done? && BookingDone(st, kind, mk, m.pc.res, m.st, t, tid, b, bid, r)
  {
    hide Solo, End, Picks, StoreInv, OthersKept, ChoosesBay, ChoosesTech, MoveReserve, MovePromote, MoveRelease;
    hide MoveHold, MoveCancel, MoveSweep, MoveBook, FingerOfBody;
    var m, rest;
    r := "";
    m, rest, t, tid, b, bid := PairSolo(st, q, kind, chs, mk);
    if t.None? || b.None? {
      SoloOver(m.st, q, kind, m.pc, rest);
    } else {
      var st1, calls := m.st, rest;
      SoloGoesOn(m.st, q, kind, m.pc, rest);
      m, rest := SoloCall(m.st, q, kind, m.pc, rest);
      r := calls[0].key;
      InsertMoves(st1, q, kind, Claimed(tid, t.value.resource, kind.body.start, t.value.end),
                  Claimed(bid, b.value.resource, kind.body.start, t.value.end), calls[0]);
      if kind.HoldReq? {
        SoloOver(m.st, q, kind, m.pc, rest);
        SameOccs(st, st1, m.st, {tid, bid});
      } else {
        DirectEnds(st, st1, m.st, q, kind, t.value, tid, b.value, bid, r, rest);
      }
    }
  }

  lemma SameOccs(st: Stores, st1: Stores, st2: Stores, own: set<OccId>)
    requires OthersKept(st, st1, own) && st2.occs == st1.occs
    ensures OthersKept(st, st2, own)
  {
  }

  /** The Confirms and the update of a direct booking go through. */
  lemma DirectEnds(st: Stores, st1: Stores, st2: Stores, q: Id, kind: Kind, t: Cand, tid: OccId, b: Cand, bid: OccId,
      r: Id, chs: seq<Choice>)
    requires kind.DirectReq? && KeyUnused(st, kind.key) && Solo(st2, q, kind, ConfirmTech(r, tid, bid), chs)
    requires tid.side == Tech && bid.side == Bay && st1.now == st.now && st2.now == st.now && st2.occs == st1.occs
    requires OthersKept(st, st1, {tid, bid}) && {tid, bid} <= st2.claims.Keys && r !in st.rows
    requires Occupies(st1, tid, t, kind.body.start, Some(st.now + 120_000_000))
    requires Occupies(st1, bid, b, kind.body.start, Some(st.now + 120_000_000))
    requires st2.rows == st.rows[r := Row(kind.body.who, t.resource, b.resource, Some(tid), Some(bid),
               kind.body.start, t.end, Held, Some(st.now + 120_000_000), None, None)]
    ensures var m := End(st2, q, kind, ConfirmTech(r, tid, bid), chs);
            && m.pc == Done(Booked(r)) && m.st.now == st.now && OthersKept(st, m.st, {tid, bid})
            && r in m.st.rows && m.st.rows == st.rows[r := m.st.rows[r]]
            && m.st.rows[r] == st2.rows[r].(status := Confirmed, expires := None,
                 key := if kind.key == "" then None else Some(kind.key), finger := Some(FingerOfBody(kind.body)))
            && Occupies(m.st, tid, t, kind.body.start, None) && Occupies(m.st, bid, b, kind.body.start, None)
  {
    hide Solo, End, FingerOfBody, MoveAny, DirectPrint;
    BodyPrintIs(kind.body);
    assert !KeyElsewhere(st2, r, kind.key);
    PromoteSolo(st2, q, kind, r, tid, bid, FingerOfBody(kind.body), chs);
  }

  /** The claim queries of the request pick from the market, as the SQL does. */
  ghost predicate InMarket(s: State, q: Id, kind: Kind, chs: seq<Choice>, mk: Market) {
    Solo(s.st, q, kind, StartPc(kind), chs) && Picks(s.st, q, kind, StartPc(kind), chs, mk)
  }

  /** POST /holds, alone and answered: it succeeds if and only if some technician, and then some bay
      for the whole job, has no claim that counts; it leaves one HELD row and two holds, all for
      120 s; or nothing live of its own. */
  lemma CreateHoldAlone(s: State, q: Id, body: Body, chs: seq<Choice>, mk: Market)
    returns (t: Option<Cand>, tid: OccId, b: Option<Cand>, bid: OccId, r: Id)
    requires Alone(s, q, HoldReq(body), chs) && InMarket(s, q, HoldReq(body), chs, mk) && Reachable(s)
    ensures var s' := After(s, q, HoldReq(body), chs);
            && q in s'.reqs && s'.reqs[q].pc.Done?
            && BookingDone(s.st, HoldReq(body), mk, s'.reqs[q].pc.res, s'.st, t, tid, b, bid, r)
  {
    hide Solo, End, Picks, After, Alone, BookingDone, Reachable, Local, StoreInv;
    ReachableInv(s);
    AloneIsSolo(s, q, HoldReq(body), chs);
    t, tid, b, bid, r := BookSolo(s.st, q, HoldReq(body), chs, mk);
  }

  /** The CONFIRMED row under the key answers, and nothing changes. */
  ghost predicate AnsweredByKey(st: Stores, key: string, body: Body, r: Id, res: Result, st': Stores) {
    && key != "" && r in st.rows && st.rows[r].status.Confirmed? && st.rows[r].key == Some(key)
    && st' == st && res == if st.rows[r].finger == Some(FingerOfBody(body)) then Replayed(r) else Conflict
  }

  lemma LookupSolo(st: Stores, q: Id, key: string, body: Body, chs: seq<Choice>, mk: Market)
    returns (m: Move, rest: seq<Choice>, r: Id)
    requires key != "" && Solo(st, q, DirectReq(key, body), Lookup, chs)
        && Picks(st, q, DirectReq(key, body), Lookup, chs, mk)
    ensures var kind := DirectReq(key, body);
            && Solo(m.st, q, kind, m.pc, rest) && Picks(m.st, q, kind, m.pc, rest, mk)
            && End(st, q, kind, Lookup, chs) == End(m.st, q, kind, m.pc, rest) && m.st == st
            && if KeyUnused(st, key) then m.pc == Pick(None, 1)
               else m.pc.Done? && AnsweredByKey(st, key, body, r, m.pc.res, st)
  {
    hide MoveReserve, MovePromote, MoveRelease, MoveHold, MoveCancel, MoveSweep, Solo, End, Picks, FingerOfBody,
        DirectPrint;
    BodyPrintIs(body);
    m, rest := PickCall(st, q, DirectReq(key, body), Lookup, chs, mk);
    var hit := ByKey(st, key);
    r := if hit.Some? then hit.value else "";
    if hit.Some? {
      assert r in Holders(st, key) && !KeyUnused(st, key);
    } else {
      assert forall x | x in st.rows && st.rows[x].status.Confirmed? :: x !in Holders(st, key);
      assert KeyUnused(st, key);
    }
  }

  /** POST /appointments without a hold, alone and answered: a CONFIRMED row under the key answers
      with a replay, or with a conflict if the fields differ, and nothing changes; else it books if
      and only if some technician, and then some bay for the whole job, has no claim that counts, and
      leaves one CONFIRMED row with both its occupations; or nothing live of its own. */
  lemma ConfirmAlone(s: State, q: Id, key: string, body: Body, chs: seq<Choice>, mk: Market)
    returns (t: Option<Cand>, tid: OccId, b: Option<Cand>, bid: OccId, r: Id)
    requires Alone(s, q, DirectReq(key, body), chs) && InMarket(s, q, DirectReq(key, body), chs, mk) && Reachable(s)
    ensures var s' := After(s, q, DirectReq(key, body), chs);
            && q in s'.reqs && s'.reqs[q].pc.Done?
            && var res := s'.reqs[q].pc.res;
               if KeyUnused(s.st, key) then BookingDone(s.st, DirectReq(key, body), mk, res, s'.st, t, tid, b, bid, r)
               else AnsweredByKey(s.st, key, body, r, res, s'.st)
  {
    hide Solo, End, Picks, After, Alone, BookingDone, Reachable, Local, StoreInv, AnsweredByKey;
    ReachableInv(s);
    var kind := DirectReq(key, body);
    AloneIsSolo(s, q, kind, chs);
    t, tid, b, bid, r := None, OccId(Tech, ""), None, OccId(Bay, ""), "";
    if key == "" {
      t, tid, b, bid, r := BookSolo(s.st, q, kind, chs, mk);
    } else {
      var m, rest;
      m, rest, r := LookupSolo(s.st, q, key, body, chs, mk);
      if KeyUnused(s.st, key) {
        t, tid, b, bid, r := BookSolo(s.st, q, kind, rest, mk);
      } else {
        SoloOver(m.st, q, kind, m.pc, rest);
      }
    }
  }
}
