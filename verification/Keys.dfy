/** When the unique index refuses no promotion, honest errors alone are enough for the linking
    invariant of every row; and when it refuses none. */
module Keys {
  import opened Wrappers
  import opened Allocator
  import opened Stores
  import opened Protocol
  import opened Invariant
  import opened Linking
  import opened SoleConfirmer

  /** Errors that tell the truth, whatever they are about. */
  ghost predicate Truthful(s: State, step: Step)
    requires Enabled(s, step)
  {
    step.Call? ==>
      var pc, ch := s.reqs[step.q].pc, step.ch;
      && (pc.ConfirmTech? || pc.ConfirmBay? || pc.Reread? ==> ch.reply == Ok)
      && (pc.Flip? ==> ch.reply != Failed)
      && (pc.Insert? ==> ch.reply != Lost)
  }

  /** ... and no row is promoted under a key that another CONFIRMED row carries. */
  ghost predicate Honest(s: State, step: Step)
    requires Enabled(s, step)
  {
    && Truthful(s, step)
    && (step.Call? ==>
          var kind, pc := s.reqs[step.q].kind, s.reqs[step.q].pc;
          pc.Flip? && pc.row in s.st.rows && s.st.rows[pc.row].status.Held? ==> !KeyTaken(s.st, pc.row, kind.key))
  }

  ghost predicate HonestRun(s: State, tr: seq<Step>)
    requires Run(s, tr)
    decreases |tr|
  {
    tr == [] || (Honest(s, tr[0]) && HonestRun(Apply(s, tr[0]), tr[1..]))
  }

  lemma {:induction false} HonestIsGenuine(s: State, tr: seq<Step>, r: Id)
    requires Run(s, tr) && HonestRun(s, tr)
    ensures GenuineRun(s, tr, r)
    decreases |tr|
  {
    hide Apply, ChoiceOk, KeyTaken;
    if tr != [] {
      HonestIsGenuine(Apply(s, tr[0]), tr[1..], r);
      assert Genuine(s, tr[0], r);
    }
  }

  /** With honest errors, and no promotion under a key another CONFIRMED row carries, any number
      of concurrent holds, confirms, cancels, sweeps, reaps and crashes leaves every CONFIRMED row
      holding both its occupations, and no two of them overlapping on a technician or a bay. */
  lemma HonestNoDoubleBooking(tr: seq<Step>, x: Id, y: Id)
    requires Run(INIT, tr) && HonestRun(INIT, tr) && x != y
    ensures Linked(Exec(INIT, tr).st, x)
    ensures var rows := Exec(INIT, tr).st.rows;
            && x in rows && y in rows && rows[x].status.Confirmed? && rows[y].status.Confirmed?
            && (rows[x].tech == rows[y].tech || rows[x].bay == rows[y].bay)
            ==> rows[x].end <= rows[y].start || rows[y].end <= rows[x].start
  {
    HonestIsGenuine(INIT, tr, x);
    HonestIsGenuine(INIT, tr, y);
    hide HonestRun, Linked, GenuineRun, Inv, LinkInv;
    GenuineRunLinks(tr, x);
    NoDoubleBooking(tr, x, y);
  }

  // ---- What clients have to do for it -------------------------------------------------------

  function KeyOf(kind: Kind): string {
    if Confirms(kind) then kind.key else ""
  }

  /** A request that is confirming its row under a key. */
  predicate Uses(req: Req, key: string) {
    (req.pc.ConfirmTech? || req.pc.ConfirmBay? || req.pc.Flip?) && KeyOf(req.kind) == key && key != ""
  }

  /** Nobody uses, and no CONFIRMED row carries, the key for a row other than r. */
  ghost predicate KeyFreeFor(s: State, key: string, r: Id) {
    && (forall x | x in s.st.rows && s.st.rows[x].status.Confirmed? && s.st.rows[x].key == Some(key) :: x == r)
    && (forall p | p in s.reqs && Uses(s.reqs[p], key) :: s.reqs[p].pc.row == r)
  }

  /** A client begins to confirm a row under a key only when the key's earlier attempts are over,
      and none of them is CONFIRMED on another row. A retry after a failure is welcome. */
  ghost predicate OneAttempt(s: State, step: Step)
    requires Enabled(s, step)
  {
    step.Call? ==>
      var req' := Apply(s, step).reqs[step.q];
      req'.pc.ConfirmTech? && KeyOf(req'.kind) != "" ==> KeyFreeFor(s, KeyOf(req'.kind), req'.pc.row)
  }

  /** Everybody who uses a key uses it for one row, the one that may be CONFIRMED under it. */
  ghost predicate KeysApart(s: State) {
    forall q | q in s.reqs && Uses(s.reqs[q], KeyOf(s.reqs[q].kind)) ::
      KeyFreeFor(s, KeyOf(s.reqs[q].kind), s.reqs[q].pc.row)
  }

  /** A key that a step adds to the CONFIRMED rows comes from the request that flips the row. */
  ghost predicate KeysFrom(st: Stores, st': Stores, kind: Kind, pc: Pc) {
    forall x | x in st'.rows && st'.rows[x].status.Confirmed? && st'.rows[x].key.Some? ::
      || (x in st.rows && st.rows[x].status.Confirmed? && st'.rows[x].key == st.rows[x].key)
      || (pc.Flip? && x == pc.row && KeyOf(kind) != "" && st'.rows[x].key == Some(KeyOf(kind)))
  }

  lemma FlipKeys(st: Stores, kind: Kind, pc: Pc, ch: Choice)
    requires pc.Flip? && Confirms(kind)
    ensures KeysFrom(st, MovePromote(st, kind, pc, ch).st, kind, pc)
  {
    hide PrintOf, KeyTaken;
  }

  lemma OtherKeys(st: Stores, q: Id, kind: Kind, pc: Pc, ch: Choice)
    requires Fits(kind, pc) && ChoiceOk(st, kind, pc, ch) && WritesRows(pc) && !pc.Flip?
    ensures KeysFrom(st, MoveAny(st, q, kind, pc, ch).st, kind, pc)
  {
    hide Items, NextItem, MoveReserve, MovePromote, MoveRelease, MoveHold;
  }

  lemma CallKeys(st: Stores, q: Id, kind: Kind, pc: Pc, ch: Choice)
    requires Fits(kind, pc) && ChoiceOk(st, kind, pc, ch)
    ensures KeysFrom(st, MoveAny(st, q, kind, pc, ch).st, kind, pc)
  {
    hide MoveReserve, MoveBook, MovePromote, MoveRelease, MoveHold, MoveCancel, MoveSweep;
    if pc.Flip? { FlipKeys(st, kind, pc, ch); }
    else if WritesRows(pc) { OtherKeys(st, q, kind, pc, ch); }
    else { RowsSame(st, q, kind, pc, ch); }
  }

  /** A request that goes on confirming does so for the same row. */
  lemma NextUse(st: Stores, q: Id, kind: Kind, pc: Pc, ch: Choice)
    requires Fits(kind, pc) && ChoiceOk(st, kind, pc, ch)
    ensures var pc' := MoveAny(st, q, kind, pc, ch).pc;
            pc'.ConfirmBay? || pc'.Flip? ==>
              Confirms(kind) && (pc.ConfirmTech? || pc.ConfirmBay?) && pc'.row == pc.row
  {
    hide MoveSweep, ByKey, PrintOf;
    if Sweeps(pc) { QuietSweep(st, pc, ch); }
  }

  lemma ApartStep(s: State, step: Step)
    requires Enabled(s, step) && OneAttempt(s, step) && KeysApart(s)
    ensures KeysApart(Apply(s, step))
  {
    hide MoveAny, ChoiceOk, Fits;
    var s' := Apply(s, step);
    if step.Call? {
      var kind, pc, ch := s.reqs[step.q].kind, s.reqs[step.q].pc, step.ch;
      CallKeys(s.st, step.q, kind, pc, ch);
      NextUse(s.st, step.q, kind, pc, ch);
      forall q | q in s'.reqs && Uses(s'.reqs[q], KeyOf(s'.reqs[q].kind))
        ensures KeyFreeFor(s', KeyOf(s'.reqs[q].kind), s'.reqs[q].pc.row)
      {
        ApartFor(s, s', step, q);
      }
    }
  }

  lemma ApartFor(s: State, s': State, step: Step, q: Id)
    requires Enabled(s, step) && s' == Apply(s, step) && step.Call? && OneAttempt(s, step) && KeysApart(s)
    requires KeysFrom(s.st, s'.st, s.reqs[step.q].kind, s.reqs[step.q].pc)
    requires var pc, pc' := s.reqs[step.q].pc, s'.reqs[step.q].pc;
             pc'.ConfirmBay? || pc'.Flip? ==>
               Confirms(s.reqs[step.q].kind) && (pc.ConfirmTech? || pc.ConfirmBay?) && pc'.row == pc.row
    requires q in s'.reqs && Uses(s'.reqs[q], KeyOf(s'.reqs[q].kind))
    ensures KeyFreeFor(s', KeyOf(s'.reqs[q].kind), s'.reqs[q].pc.row)
  {
    hide MoveAny, ChoiceOk, Fits;
    var key, r := KeyOf(s'.reqs[q].kind), s'.reqs[q].pc.row;
    // q was confirming r already, or has just begun to, with nobody else on the key
    assert KeyFreeFor(s, key, r);
    forall p | p in s'.reqs && Uses(s'.reqs[p], key)
      ensures s'.reqs[p].pc.row == r
    {
      if p == step.q && s'.reqs[p].pc.ConfirmTech? {
        if p != q { assert Uses(s.reqs[q], key); }
      } else {
        assert Uses(s.reqs[p], key);
      }
    }
    forall x | x in s'.st.rows && s'.st.rows[x].status.Confirmed? && s'.st.rows[x].key == Some(key)
      ensures x == r
    {
      if s.reqs[step.q].pc.Flip? && x == s.reqs[step.q].pc.row && KeyOf(s.reqs[step.q].kind) == key {
        assert Uses(s.reqs[step.q], key);
      }
    }
  }

  ghost predicate OneAttemptRun(s: State, tr: seq<Step>)
    requires Run(s, tr)
    decreases |tr|
  {
    tr == [] || (Truthful(s, tr[0]) && OneAttempt(s, tr[0]) && OneAttemptRun(Apply(s, tr[0]), tr[1..]))
  }

  /** If every key is tried for one row at a time the unique index refuses no promotion. */
  lemma {:induction false} OneAttemptIsHonest(s: State, tr: seq<Step>)
    requires Run(s, tr) && OneAttemptRun(s, tr) && KeysApart(s)
    ensures HonestRun(s, tr)
    decreases |tr|
  {
    hide Apply, ChoiceOk;
    if tr != [] {
      ApartStep(s, tr[0]);
      OneAttemptIsHonest(Apply(s, tr[0]), tr[1..]);
      if tr[0].Call? && s.reqs[tr[0].q].pc.Flip? { KeyNotTaken(s, tr[0].q); }
    }
  }

  lemma KeyNotTaken(s: State, q: Id)
    requires KeysApart(s) && q in s.reqs && s.reqs[q].pc.Flip? && Confirms(s.reqs[q].kind)
    ensures !KeyTaken(s.st, s.reqs[q].pc.row, s.reqs[q].kind.key)
  {
    var key := KeyOf(s.reqs[q].kind);
    if key != "" { assert Uses(s.reqs[q], key); }
  }

  /** So honest errors and one attempt at a time for each key rule double bookings out. */
  lemma OneAttemptNoDoubleBooking(tr: seq<Step>, x: Id, y: Id)
    requires Run(INIT, tr) && OneAttemptRun(INIT, tr) && x != y
    ensures Linked(Exec(INIT, tr).st, x)
    ensures var rows := Exec(INIT, tr).st.rows;
            && x in rows && y in rows && rows[x].status.Confirmed? && rows[y].status.Confirmed?
            && (rows[x].tech == rows[y].tech || rows[x].bay == rows[y].bay)
            ==> rows[x].end <= rows[y].start || rows[y].end <= rows[x].start
  {
    hide OneAttemptRun, HonestRun, Linked;
    OneAttemptIsHonest(INIT, tr);
    HonestNoDoubleBooking(tr, x, y);
  }
}
