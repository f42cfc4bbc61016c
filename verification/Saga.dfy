/** The booking saga is all or nothing, over every failure point it can see. */
module Saga {
  import opened Wrappers
  import opened Allocator
  import opened Stores
  import opened Protocol
  import opened Invariant

  predicate Succeeds(pc: Pc) {
    pc.FinalGet? || (pc.Done? && (pc.res.Created? || pc.res.Booked? || pc.res.Replayed?))
  }

  /** The claims a handler still has in hand. */
  function Tracked(pc: Pc): set<OccId> {
    match pc
    case Pick(prior, _) => PriorId(prior)
    case Put(prior, _, _, _, _) => PriorId(prior)
    case Reaping(prior, _) => PriorId(prior)
    case Insert(t, b) => {t.id, b.id}
    case ConfirmTech(_, t, b) => {t, b}
    case ConfirmBay(_, t, b) => {t, b}
    case Flip(_, t, b) => {t, b}
    case Reread(_, t, b, _) => {t, b}
    case RelBay(t, b, _) => {t, b}
    case RelTech(t, _) => {t}
    case _ => {}
  }

  function PriorId(prior: Option<Claimed>): set<OccId> {
    if prior.None? then {} else {prior.value.id}
  }

  ghost predicate OwnedBy(st: Stores, q: Id, id: OccId) {
    id in st.claims && st.claims[id].owner == q
  }

  /** Every claim q made is dead, or in hand, or its Reserve's answer was lost. */
  ghost predicate Accounted(st: Stores, q: Id, tracked: set<OccId>) {
    forall id | OwnedBy(st, q, id) :: Dead(st, id) || st.claims[id].lost || id in tracked
  }

  ghost predicate SagaOk(s: State, q: Id) {
    && (forall id | id in s.st.claims :: s.st.claims[id].owner in s.reqs)
    && (q in s.reqs && Books(s.reqs[q].kind) && !Succeeds(s.reqs[q].pc) && !s.reqs[q].pc.Crashed? ==>
          Accounted(s.st, q, Tracked(s.reqs[q].pc)))
  }

  /** q's own Releases take effect, and q's last read succeeds. Nothing is asked of q's
      other calls, nor of anybody else's. */
  ghost predicate Calm(s: State, step: Step, q: Id) {
    step.Call? && step.q == q && q in s.reqs ==>
      && (s.reqs[q].pc.RelBay? || s.reqs[q].pc.RelTech? ==> step.ch.reply != Failed)
      && (s.reqs[q].pc.FinalGet? ==> step.ch.reply == Ok)
  }

  ghost predicate CalmRun(s: State, tr: seq<Step>, q: Id)
    requires Run(s, tr)
    decreases |tr|
  {
    tr == [] || (Calm(s, tr[0], q) && CalmRun(Apply(s, tr[0]), tr[1..], q))
  }

  lemma AccountedKept(st: Stores, st': Stores, q: Id, tracked: set<OccId>, tracked': set<OccId>, actor: Option<Id>)
    requires Evolve(st, st', actor) && Accounted(st, q, tracked)
    requires forall id | OwnedBy(st', q, id) && id !in st.claims :: st'.claims[id].lost || id in tracked'
    requires forall id | id in tracked && id !in tracked' :: Dead(st', id)
    ensures Accounted(st', q, tracked')
  {
    forall id | OwnedBy(st', q, id)
      ensures Dead(st', id) || st'.claims[id].lost || id in tracked'
    {
      if id in st.claims {
        assert ClaimEvolves(st, st', id, actor);
        assert OwnedBy(st, q, id);
      }
    }
  }

  /** Outside Put no claim is added, and one leaves the hand only by dying or by success. */
  lemma HandKept(st: Stores, q: Id, kind: Kind, pc: Pc, ch: Choice)
    requires Active(pc) && Books(kind) && Fits(kind, pc) && ChoiceOk(st, kind, pc, ch) && !pc.Put?
    requires pc.RelBay? || pc.RelTech? ==> ch.reply != Failed
    requires pc.FinalGet? ==> ch.reply == Ok && pc.row in st.rows
    ensures var m := MoveAny(st, q, kind, pc, ch);
            && m.st.claims.Keys == st.claims.Keys
            && (Succeeds(m.pc) || forall id | id in Tracked(pc) && id !in Tracked(m.pc) :: Dead(m.st, id))
  {
    hide MoveReserve, MoveBook, MovePromote, MoveRelease, MoveHold, MoveCancel, MoveSweep, Tracked, Dead;
    if Promotes(pc) { HandPromote(st, kind, pc, ch); }
    else if pc.RelBay? || pc.RelTech? { HandRelease(st, pc, ch); }
    else { HandForward(st, q, kind, pc, ch); }
  }

  lemma HandPromote(st: Stores, kind: Kind, pc: Pc, ch: Choice)
    requires Confirms(kind) && Promotes(pc) && (pc.FinalGet? ==> ch.reply == Ok && pc.row in st.rows)
    ensures var m := MovePromote(st, kind, pc, ch);
            && m.st.claims.Keys == st.claims.Keys
            && (Succeeds(m.pc) || Tracked(pc) <= Tracked(m.pc))
  {
    hide KeyTaken, PrintOf;
  }

  lemma HandRelease(st: Stores, pc: Pc, ch: Choice)
    requires (pc.RelBay? || pc.RelTech?) && ch.reply != Failed
    ensures var m := MoveRelease(st, pc, ch);
            m.st.claims == st.claims && forall id | id in Tracked(pc) && id !in Tracked(m.pc) :: Dead(m.st, id)
  {
  }

  lemma HandForward(st: Stores, q: Id, kind: Kind, pc: Pc, ch: Choice)
    requires Books(kind) && (pc.Pick? || pc.Reaping? || pc.Lookup? || pc.Insert?) && Fits(kind, pc)
        && ChoiceOk(st, kind, pc, ch)
    ensures var m := MoveAny(st, q, kind, pc, ch);
            && m.st.claims.Keys == st.claims.Keys
            && !m.pc.FinalGet? && (Succeeds(m.pc) || Tracked(pc) <= Tracked(m.pc))
  {
    hide MovePromote, MoveRelease, MoveHold, MoveCancel, MoveSweep, DirectPrint;
  }

  /** Put: a new claim is in hand or lost. */
  lemma HandPut(st: Stores, q: Id, kind: Kind, pc: Pc, ch: Choice)
    requires Books(kind) && pc.Put? && ChoiceOk(st, kind, pc, ch)
    ensures var m := MoveReserve(st, q, kind, pc, ch);
            && (forall id | OwnedBy(m.st, q, id) && id !in st.claims :: m.st.claims[id].lost || id in Tracked(m.pc))
            && Tracked(pc) <= Tracked(m.pc)
  {
  }

  lemma OwnCallAccounted(st: Stores, q: Id, kind: Kind, pc: Pc, ch: Choice)
    requires StoreInv(st) && Active(pc) && Books(kind) && Local(st, q, kind, pc) && Fits(kind, pc)
        && ChoiceOk(st, kind, pc, ch)
    requires Succeeds(pc) || Accounted(st, q, Tracked(pc))
    requires pc.RelBay? || pc.RelTech? ==> ch.reply != Failed
    requires pc.FinalGet? ==> ch.reply == Ok
    ensures var m := MoveAny(st, q, kind, pc, ch);
            Succeeds(m.pc) || Accounted(m.st, q, Tracked(m.pc))
  {
    hide ClaimOk, RowOk, Evolve, StoreInv, Tracked, Accounted, MoveReserve, MoveBook, MoveRelease, MoveHold,
        MoveCancel, MoveSweep;
    var m := MoveAny(st, q, kind, pc, ch);
    CallOk(st, q, kind, pc, ch);
    if pc.Put? { HandPut(st, q, kind, pc, ch); } else { HandKept(st, q, kind, pc, ch); }
    if !Succeeds(m.pc) && !Succeeds(pc) {
      AccountedKept(st, m.st, q, Tracked(pc), Tracked(m.pc), Some(q));
    }
  }

  lemma SagaStep(s: State, step: Step, q: Id)
    requires Inv(s) && Enabled(s, step) && SagaOk(s, q) && Calm(s, step, q)
    ensures SagaOk(Apply(s, step), q)
  {
    hide StoreInv, Local, MoveAny, ChoiceOk, Tracked, ClaimEvolves, RowEvolves, Accounted;
    var s' := Apply(s, step);
    StepInv(s, step);
    forall id | id in s'.st.claims
      ensures s'.st.claims[id].owner in s'.reqs
    {
      OwnerKnown(s, s', step, id);
    }
    if q in s.reqs && Books(s.reqs[q].kind) && !Succeeds(s'.reqs[q].pc) && !s'.reqs[q].pc.Crashed? {
      if ActorOf(step) == Some(q) {
        OwnCallAccounted(s.st, q, s.reqs[q].kind, s.reqs[q].pc, step.ch);
      } else {
        OthersAccounted(s.st, s'.st, q, Tracked(s.reqs[q].pc), ActorOf(step));
      }
    } else if q in s'.reqs && q !in s.reqs {
      FreshAccounted(s, q, Tracked(s'.reqs[q].pc));
    }
  }

  lemma OwnerKnown(s: State, s': State, step: Step, id: OccId)
    requires Enabled(s, step) && s' == Apply(s, step) && Evolve(s.st, s'.st, ActorOf(step))
    requires forall x | x in s.st.claims :: s.st.claims[x].owner in s.reqs
    requires id in s'.st.claims
    ensures s'.st.claims[id].owner in s'.reqs
  {
    hide MoveAny, ChoiceOk;
    if id in s.st.claims { assert ClaimEvolves(s.st, s'.st, id, ActorOf(step)); }
  }

  lemma OthersAccounted(st: Stores, st': Stores, q: Id, tracked: set<OccId>, actor: Option<Id>)
    requires Evolve(st, st', actor) && actor != Some(q) && Accounted(st, q, tracked)
    ensures Accounted(st', q, tracked)
  {
    AccountedKept(st, st', q, tracked, tracked, actor);
  }

  lemma FreshAccounted(s: State, q: Id, tracked: set<OccId>)
    requires forall id | id in s.st.claims :: s.st.claims[id].owner in s.reqs
    requires q !in s.reqs
    ensures Accounted(s.st, q, tracked)
  {
  }

  lemma {:induction false} SagaRun(s: State, tr: seq<Step>, q: Id)
    requires Inv(s) && SagaOk(s, q) && Run(s, tr) && CalmRun(s, tr, q)
    ensures Inv(Exec(s, tr)) && SagaOk(Exec(s, tr), q)
    decreases |tr|
  {
    hide Inv, Enabled, Apply, SagaOk, Calm;
    if tr != [] {
      StepInv(s, tr[0]);
      SagaStep(s, tr[0], q);
      SagaRun(Apply(s, tr[0]), tr[1..], q);
    }
  }

  /** CreateHold and confirmWithoutHold are all or nothing. Whatever fails around it, when q
      returns an error every occupation reserved for it is dead, except one whose Reserve
      answer never arrived; and such a one is HELD, stored on no row, and gone at its TTL. */
  lemma AllOrNothing(tr: seq<Step>, q: Id, id: OccId)
    requires Run(INIT, tr) && CalmRun(INIT, tr, q)
    requires var s := Exec(INIT, tr);
             && q in s.reqs && Books(s.reqs[q].kind) && s.reqs[q].pc.Done? && !Succeeds(s.reqs[q].pc)
             && OwnedBy(s.st, q, id)
    ensures var s := Exec(INIT, tr);
            || Dead(s.st, id)
            || (&& s.st.claims[id].lost && s.st.occs[id].status.OccHeld?
                && s.st.occs[id].expires == Some(s.st.claims[id].at + TTL)
                && forall r | r in s.st.rows :: !Names(s.st.rows[r], id))
  {
    hide StoreInv, Local, Enabled, Apply, CalmRun, Accounted;
    var s := Exec(INIT, tr);
    BeginsClean(q);
    SagaRun(INIT, tr, q);
    Leftover(s.st, q, id);
  }

  lemma BeginsClean(q: Id)
    ensures Inv(INIT) && SagaOk(INIT, q)
  {
  }

  lemma Leftover(st: Stores, q: Id, id: OccId)
    requires StoreInv(st) && Accounted(st, q, {}) && OwnedBy(st, q, id)
    ensures || Dead(st, id)
            || (&& st.claims[id].lost && st.occs[id].status.OccHeld?
                && st.occs[id].expires == Some(st.claims[id].at + TTL)
                && forall r | r in st.rows :: !Names(st.rows[r], id))
  {
    assert ClaimOk(st, id);
    forall r | r in st.rows && Names(st.rows[r], id)
      ensures st.claims[id].row == Some(r)
    {
      assert RowOk(st, r);
    }
  }

  /** Only a claim of its own is ever released by a booking request: a same-key loser gives
      back its own pair and never the winner's. */
  lemma ReleasesOnlyItsOwn(s: State, q: Id, ch: Choice, id: OccId)
    requires Inv(s) && q in s.reqs && Books(s.reqs[q].kind) && Enabled(s, Call(q, ch))
    requires Live(s.st.occs, id)
    requires id in Apply(s, Call(q, ch)).st.occs && !Live(Apply(s, Call(q, ch)).st.occs, id)
    ensures OwnedBy(s.st, q, id)
  {
    hide ClaimOk, RowOk, Exclusive, UniqueKeys;
    assert Local(s.st, q, s.reqs[q].kind, s.reqs[q].pc);
  }

  /** So a direct booking that loses the race for its key has given up everything it held. */
  lemma SameKeyLoserHoldsNothing(tr: seq<Step>, q: Id, id: OccId)
    requires Run(INIT, tr) && CalmRun(INIT, tr, q)
    requires var s := Exec(INIT, tr);
             && q in s.reqs && s.reqs[q].kind.DirectReq? && s.reqs[q].pc == Done(Conflict)
             && OwnedBy(s.st, q, id) && !s.st.claims[id].lost
    ensures Dead(Exec(INIT, tr).st, id)
  {
    AllOrNothing(tr, q, id);
  }

  // ---- Calm is exact, call by call -------------------------------------------------------------

  /** Request q has let go of a claim that is still live, without succeeding. */
  ghost predicate Abandons(s: State, q: Id, id: OccId)
    requires q in s.reqs
  {
    Live(s.st.occs, id) && id !in Tracked(s.reqs[q].pc) && !Succeeds(s.reqs[q].pc)
  }

  lemma ReleaseBayExact(st: Stores, pc: Pc, ch: Choice)
    requires pc.RelBay? && Live(st.occs, pc.bay) && pc.tech != pc.bay
    ensures var m := MoveRelease(st, pc, ch);
            && m.pc == RelTech(pc.tech, pc.res) && Tracked(m.pc) == {pc.tech}
            && (Live(m.st.occs, pc.bay) <==> ch.reply == Failed)
  {
  }

  /** The bay's Release. */
  lemma CalmExactAtRelBay(s: State, q: Id, ch: Choice)
    requires Inv(s) && q in s.reqs && Books(s.reqs[q].kind) && s.reqs[q].pc.RelBay?
    requires Enabled(s, Call(q, ch)) && Live(s.st.occs, s.reqs[q].pc.bay)
    ensures Abandons(Apply(s, Call(q, ch)), q, s.reqs[q].pc.bay) <==> !Calm(s, Call(q, ch), q)
  {
    var pc := s.reqs[q].pc;
    SidesDiffer(s, q);
    hide StoreInv, Local, MoveRelease, ChoiceOk, Tracked;
    ReleaseBayExact(s.st, pc, ch);
  }

  lemma SidesDiffer(s: State, q: Id)
    requires Inv(s) && q in s.reqs && s.reqs[q].pc.RelBay?
    ensures s.reqs[q].pc.tech != s.reqs[q].pc.bay
  {
    hide StoreInv;
    assert Local(s.st, q, s.reqs[q].kind, s.reqs[q].pc);
  }

  /** The technician's Release, the last call of a request that compensates. */
  lemma CalmExactAtRelTech(s: State, q: Id, ch: Choice)
    requires Inv(s) && q in s.reqs && Books(s.reqs[q].kind) && s.reqs[q].pc.RelTech?
    requires Enabled(s, Call(q, ch)) && Live(s.st.occs, s.reqs[q].pc.tech)
    ensures Apply(s, Call(q, ch)).reqs[q].pc.Done?
    ensures Abandons(Apply(s, Call(q, ch)), q, s.reqs[q].pc.tech) <==> !Calm(s, Call(q, ch), q)
  {
    hide StoreInv, Local, ChoiceOk, MoveRelease, MoveReserve, MoveBook, MovePromote, MoveHold, MoveCancel, MoveSweep;
    ErrorResult(s, q);
    ReleaseTechExact(s.st, s.reqs[q].pc, ch);
  }

  lemma ReleaseTechExact(st: Stores, pc: Pc, ch: Choice)
    requires pc.RelTech? && Live(st.occs, pc.tech)
    ensures var m := MoveRelease(st, pc, ch);
            m.pc == Done(pc.res) && (Live(m.st.occs, pc.tech) <==> ch.reply == Failed)
  {
  }

  lemma ErrorResult(s: State, q: Id)
    requires Inv(s) && q in s.reqs && s.reqs[q].pc.RelTech?
    ensures IsError(s.reqs[q].pc.res)
  {
    hide StoreInv;
    assert Local(s.st, q, s.reqs[q].kind, s.reqs[q].pc);
  }

  /** The last read, for either occupation of the row. */
  lemma CalmExactAtFinalGet(s: State, q: Id, ch: Choice, id: OccId)
    requires Inv(s) && q in s.reqs && Books(s.reqs[q].kind) && s.reqs[q].pc.FinalGet?
    requires Enabled(s, Call(q, ch)) && Live(s.st.occs, id)
    requires s.reqs[q].pc.row in s.st.birth && Names(s.st.birth[s.reqs[q].pc.row], id)
    ensures Apply(s, Call(q, ch)).reqs[q].pc.Done?
    ensures Abandons(Apply(s, Call(q, ch)), q, id) <==> !Calm(s, Call(q, ch), q)
  {
    hide StoreInv, Local, ChoiceOk;
    hide MoveReserve, MoveBook, MovePromote, MoveRelease, MoveHold, MoveCancel, MoveSweep;
    RowThere(s, q);
    LastRead(s.st, s.reqs[q].kind, s.reqs[q].pc, ch);
  }

  lemma LastRead(st: Stores, kind: Kind, pc: Pc, ch: Choice)
    requires Confirms(kind) && pc.FinalGet? && pc.row in st.rows
    ensures MovePromote(st, kind, pc, ch) == Move(st, Done(if ch.reply == Ok then Booked(pc.row) else NotFound))
  {
  }

  lemma RowThere(s: State, q: Id)
    requires Inv(s) && q in s.reqs && s.reqs[q].pc.FinalGet?
    ensures s.reqs[q].pc.row in s.st.rows
  {
    hide StoreInv;
    assert Local(s.st, q, s.reqs[q].kind, s.reqs[q].pc);
  }

  /** The occupation a call is about, if Calm demands anything of the call. */
  ghost predicate AtStake(st: Stores, pc: Pc, id: OccId) {
    || (pc.RelBay? && id == pc.bay)
    || (pc.RelTech? && id == pc.tech)
    || (pc.FinalGet? && pc.row in st.birth && Names(st.birth[pc.row], id))
  }

  /** Each demand of Calm is exact, for the technician and for the bay: at every call it speaks of,
      the request lets go of a live occupation without succeeding if and only if the demand is
      broken. */
  lemma CalmIsExact(s: State, q: Id, ch: Choice, id: OccId)
    requires Inv(s) && q in s.reqs && Books(s.reqs[q].kind) && Enabled(s, Call(q, ch))
    requires AtStake(s.st, s.reqs[q].pc, id) && Live(s.st.occs, id)
    ensures Abandons(Apply(s, Call(q, ch)), q, id) <==> !Calm(s, Call(q, ch), q)
  {
    hide StoreInv, Local, Enabled, Apply, Abandons, Calm;
    var pc := s.reqs[q].pc;
    if pc.RelBay? { CalmExactAtRelBay(s, q, ch); }
    else if pc.RelTech? { CalmExactAtRelTech(s, q, ch); }
    else { CalmExactAtFinalGet(s, q, ch, id); }
  }

  // ---- Calm is exact, over runs ------------------------------------------------------------------

  /** The step is a call of booking request q of which Calm demands something for the sake of the
      live occupation `id`. */
  ghost predicate Decides(s: State, step: Step, q: Id, id: OccId) {
    && step.Call? && step.q == q && q in s.reqs && Books(s.reqs[q].kind)
    && AtStake(s.st, s.reqs[q].pc, id) && Live(s.st.occs, id)
  }

  /** The call has no effect, or fails. */
  ghost predicate EverFails(s: State, tr: seq<Step>, q: Id, id: OccId)
    requires Run(s, tr)
    decreases |tr|
  {
    tr != [] && ((Decides(s, tr[0], q, id) && !Calm(s, tr[0], q)) || EverFails(Apply(s, tr[0]), tr[1..], q, id))
  }

  /** The call leaves the occupation live and out of the request's hands. */
  ghost predicate EverLetsGo(s: State, tr: seq<Step>, q: Id, id: OccId)
    requires Run(s, tr)
    decreases |tr|
  {
    && tr != []
    && (|| (Decides(s, tr[0], q, id) && Abandons(Apply(s, tr[0]), q, id))
        || EverLetsGo(Apply(s, tr[0]), tr[1..], q, id))
  }

  lemma {:induction false} LetsGoIffFails(s: State, tr: seq<Step>, q: Id, id: OccId)
    requires Run(s, tr) && Inv(s)
    ensures EverLetsGo(s, tr, q, id) <==> EverFails(s, tr, q, id)
    decreases |tr|
  {
    hide Inv, Enabled, Apply, Calm, Abandons, AtStake;
    if tr != [] {
      StepInv(s, tr[0]);
      if Decides(s, tr[0], q, id) { CalmIsExact(s, q, tr[0].ch, id); }
      LetsGoIffFails(Apply(s, tr[0]), tr[1..], q, id);
    }
  }

  /** Request q still has `id` in hand: as a local variable, or as a half of the row it has booked. */
  ghost predicate InHand(st: Stores, pc: Pc, id: OccId) {
    id in Tracked(pc) || (pc.FinalGet? && pc.row in st.birth && Names(st.birth[pc.row], id))
  }

  predicate Ended(pc: Pc) {
    pc.Crashed? || (pc.Done? && (pc.res.Created? || pc.res.Booked? || pc.res.Replayed?))
  }

  /** Claim `id` of q is dead, or of a lost answer, or in hand, or a call of q about it has failed. */
  ghost predicate ClaimOf(s: State, q: Id, id: OccId, failed: bool) {
    && (forall x | x in s.st.claims :: s.st.claims[x].owner in s.reqs)
    && (q in s.reqs && Books(s.reqs[q].kind) && OwnedBy(s.st, q, id) && !Ended(s.reqs[q].pc) ==>
          Dead(s.st, id) || s.st.claims[id].lost || InHand(s.st, s.reqs[q].pc, id) || failed)
  }

  lemma FlipHand(st: Stores, q: Id, kind: Kind, pc: Pc, ch: Choice, id: OccId)
    requires Promotes(pc) && Confirms(kind) && Local(st, q, kind, pc) && id in Tracked(pc)
    ensures var m := MovePromote(st, kind, pc, ch); InHand(m.st, m.pc, id)
  {
    hide PrintOf, KeyTaken;
  }

  /** A live claim in hand stays in hand, unless q ends well, releases it, or fails to. */
  lemma HandOrFails(st: Stores, q: Id, kind: Kind, pc: Pc, ch: Choice, id: OccId)
    requires Active(pc) && Books(kind) && Fits(kind, pc) && ChoiceOk(st, kind, pc, ch) && Local(st, q, kind, pc)
    requires InHand(st, pc, id) && !pc.Put?
    ensures var m := MoveAny(st, q, kind, pc, ch);
            || InHand(m.st, m.pc, id) || Ended(m.pc) || Dead(m.st, id)
            || (AtStake(st, pc, id) && if pc.FinalGet? then ch.reply != Ok else ch.reply == Failed)
  {
    hide MoveReserve, MoveBook, MovePromote, MoveRelease, MoveHold, MoveCancel, MoveSweep, LocalReserve, LocalRelease;
    if pc.FinalGet? {
      LastRead(st, kind, pc, ch);
    } else if Promotes(pc) {
      FlipHand(st, q, kind, pc, ch, id);
    } else if pc.RelBay? || pc.RelTech? {
      ReleaseHand(st, pc, ch, id);
    } else {
      HandForward(st, q, kind, pc, ch);
    }
  }

  lemma ReleaseHand(st: Stores, pc: Pc, ch: Choice, id: OccId)
    requires (pc.RelBay? || pc.RelTech?) && id in Tracked(pc)
    ensures var m := MoveRelease(st, pc, ch);
            id in Tracked(m.pc) || Dead(m.st, id) || (AtStake(st, pc, id) && ch.reply == Failed)
  {
  }

  lemma CallKeepsClaims(st: Stores, q: Id, kind: Kind, pc: Pc, ch: Choice)
    requires Active(pc) && Books(kind) && Fits(kind, pc) && ChoiceOk(st, kind, pc, ch) && !pc.Put?
    ensures MoveAny(st, q, kind, pc, ch).st.claims.Keys == st.claims.Keys
  {
    hide MoveHold, MoveCancel, MoveSweep, KeyTaken, PrintOf, DirectPrint;
  }

  lemma OwnCallClaim(st: Stores, q: Id, kind: Kind, pc: Pc, ch: Choice, id: OccId)
    requires Active(pc) && Books(kind) && Fits(kind, pc) && ChoiceOk(st, kind, pc, ch) && Local(st, q, kind, pc)
    requires OwnedBy(st, q, id) ==> Dead(st, id) || st.claims[id].lost || InHand(st, pc, id)
    requires Evolve(st, MoveAny(st, q, kind, pc, ch).st, Some(q))
    ensures var m := MoveAny(st, q, kind, pc, ch);
            OwnedBy(m.st, q, id) && !Ended(m.pc) ==>
              || Dead(m.st, id) || m.st.claims[id].lost || InHand(m.st, m.pc, id)
              || (AtStake(st, pc, id) && Live(st.occs, id) && if pc.FinalGet? then ch.reply != Ok
                  else ch.reply == Failed)
  {
    hide MoveReserve, MoveAny, Local, ChoiceOk, Tracked, AtStake;
    var m := MoveAny(st, q, kind, pc, ch);
    if id in st.claims { assert ClaimEvolves(st, m.st, id, Some(q)); }
    if pc.Put? {
      PutHand(st, q, kind, pc, ch);
    } else {
      CallKeepsClaims(st, q, kind, pc, ch);
      if InHand(st, pc, id) { HandOrFails(st, q, kind, pc, ch, id); }
    }
  }

  lemma PutHand(st: Stores, q: Id, kind: Kind, pc: Pc, ch: Choice)
    requires Books(kind) && Fits(kind, pc) && pc.Put? && ChoiceOk(st, kind, pc, ch)
    ensures var m := MoveAny(st, q, kind, pc, ch);
            && (forall id | OwnedBy(m.st, q, id) && id !in st.claims :: m.st.claims[id].lost || id in Tracked(m.pc))
            && Tracked(pc) <= Tracked(m.pc)
  {
    hide MoveReserve;
    HandPut(st, q, kind, pc, ch);
  }

  lemma StepClaim(s: State, step: Step, q: Id, id: OccId, failed: bool)
    requires Enabled(s, step) && ClaimOf(s, q, id, failed) && Inv(s)
    ensures ClaimOf(Apply(s, step), q, id, failed || (Decides(s, step, q, id) && !Calm(s, step, q)))
  {
    hide StoreInv, Local, MoveAny, ChoiceOk, Tracked, ClaimEvolves, RowEvolves, AtStake;
    var s' := Apply(s, step);
    RowsBorn(s);
    StepInv(s, step);
    forall x | x in s'.st.claims
      ensures s'.st.claims[x].owner in s'.reqs
    {
      OwnerKnown(s, s', step, x);
    }
    if q in s.reqs && Books(s.reqs[q].kind) && !failed && !Ended(s.reqs[q].pc) {
      if ActorOf(step) == Some(q) {
        OwnCallClaim(s.st, q, s.reqs[q].kind, s.reqs[q].pc, step.ch, id);
        if AtStake(s.st, s.reqs[q].pc, id) { StakeTells(s.st, s.reqs[q].pc, id); }
      } else if OwnedBy(s'.st, q, id) {
        OthersClaim(s.st, s'.st, q, s.reqs[q].pc, id, ActorOf(step));
      }
    } else if q !in s.reqs {
      NoClaimBefore(s, s', step, q, id);
    }
  }

  lemma NoClaimBefore(s: State, s': State, step: Step, q: Id, id: OccId)
    requires Enabled(s, step) && s' == Apply(s, step) && Evolve(s.st, s'.st, ActorOf(step)) && q !in s.reqs
    requires forall x | x in s.st.claims :: s.st.claims[x].owner in s.reqs
    ensures !OwnedBy(s'.st, q, id)
  {
    hide MoveAny, ChoiceOk;
    if id in s.st.claims { assert ClaimEvolves(s.st, s'.st, id, ActorOf(step)); }
  }

  lemma OthersClaim(st: Stores, st': Stores, q: Id, pc: Pc, id: OccId, actor: Option<Id>)
    requires Evolve(st, st', actor) && actor != Some(q) && OwnedBy(st', q, id) && st.rows.Keys == st.birth.Keys
    requires OwnedBy(st, q, id) ==> Dead(st, id) || st.claims[id].lost || InHand(st, pc, id)
    ensures Dead(st', id) || st'.claims[id].lost || InHand(st', pc, id)
  {
    hide Tracked;
    if id in st.claims { assert ClaimEvolves(st, st', id, actor); }
    if pc.FinalGet? && pc.row in st.rows { assert RowEvolves(st, st', pc.row); }
  }

  lemma StakeTells(st: Stores, pc: Pc, id: OccId)
    requires AtStake(st, pc, id)
    ensures pc.RelBay? || pc.RelTech? || pc.FinalGet?
  {
  }

  lemma RowsBorn(s: State)
    requires Inv(s)
    ensures s.st.rows.Keys == s.st.birth.Keys
  {
  }

  lemma {:induction false} RunClaim(s: State, tr: seq<Step>, q: Id, id: OccId, failed: bool)
    requires Run(s, tr) && ClaimOf(s, q, id, failed) && Inv(s)
    ensures ClaimOf(Exec(s, tr), q, id, failed || EverFails(s, tr, q, id))
    decreases |tr|
  {
    hide Inv, Enabled, Apply, ClaimOf, Decides, Calm;
    if tr != [] {
      StepClaim(s, tr[0], q, id, failed);
      StepInv(s, tr[0]);
      RunClaim(Apply(s, tr[0]), tr[1..], q, id, failed || (Decides(s, tr[0], q, id) && !Calm(s, tr[0], q)));
    }
  }

  /** Exactly what a booking request that ends in an error leaves behind, claim by claim and under
      any faults: an answered claim it has not lived to see dead is one that a call of its own about
      that claim (its Release, or the last read) has failed to settle; and right after such a call,
      if the claim was live just before, it is live and out of the request's hands if and only if the
      call had no effect or failed. */
  lemma LeftBehindExactly(tr: seq<Step>, q: Id, id: OccId)
    requires Run(INIT, tr)
    requires var s := Exec(INIT, tr);
             && q in s.reqs && Books(s.reqs[q].kind) && s.reqs[q].pc.Done? && !Succeeds(s.reqs[q].pc)
             && OwnedBy(s.st, q, id) && !s.st.claims[id].lost
    ensures Dead(Exec(INIT, tr).st, id) || EverFails(INIT, tr, q, id)
    ensures EverLetsGo(INIT, tr, q, id) <==> EverFails(INIT, tr, q, id)
  {
    hide EverFails, EverLetsGo, Decides;
    NoClaimsYet(q, id);
    RunClaim(INIT, tr, q, id, false);
    LetsGoIffFails(INIT, tr, q, id);
  }

  lemma NoClaimsYet(q: Id, id: OccId)
    ensures Inv(INIT) && ClaimOf(INIT, q, id, false)
  {
  }
}
