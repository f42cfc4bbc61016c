/** The handlers of the booking service, call by call, as the code writes them.

    `Booking` runs one request in the middle of any run of the protocol: its methods make one
    call after another on the databases, keep what the code keeps in local variables, and
    branch where the code branches, while other requests, in flight before it began or begun
    since, the reapers and the clock take any steps between two of its calls. The ghost field
    `pc` follows the state machine of Protocol; every handler is proved to be that machine,
    and what holds of every run then holds of what the handler returns. */
module Service {
  import opened Wrappers
  import opened Allocator
  import opened Stores
  import opened Protocol
  import opened Invariant
  import opened Linking
  import opened Undercut
  import Convergence
  import Linearization
  import Safety
  import Saga
  import Sequential

  /** The rest of the world: the steps others take before the request's call number n, the
      stores these leave, and how the call is answered. */
  datatype Env = Env(between: nat -> seq<Step>, met: nat -> Stores, choice: nat -> Choice)

  /** The others' steps and the request's calls, up to call number k. */
  function Trace(env: Env, q: Id, k: nat): seq<Step> {
    if k == 0 then [] else Trace(env, q, k - 1) + env.between(k - 1) + [Call(q, env.choice(k - 1))]
  }

  /** The run as a whole: what happened before request q began, its beginning, and so far. */
  function Story(history: seq<Step>, q: Id, kind: Kind, env: Env, k: nat): seq<Step> {
    history + [Begin(q, kind)] + Trace(env, q, k)
  }

  /** From s, others can take the steps before call number k and leave the stores the call
      meets, in which the call can be answered as it is. */
  ghost predicate Meets(env: Env, q: Id, s: State, k: nat) {
    && Run(s, env.between(k)) && (forall step | step in env.between(k) :: ByOthers(step, q))
    && Exec(s, env.between(k)).st == env.met(k)
    && Enabled(Exec(s, env.between(k)), Call(q, env.choice(k)))
  }

  /** The world goes on around the request for as long as it makes calls. */
  ghost predicate Schedule(history: seq<Step>, q: Id, kind: Kind, env: Env) {
    forall k :: InFlight(history, q, kind, env, k) ==> Meets(env, q, Exec(INIT, Story(history, q, kind, env, k)), k)
  }

  ghost predicate InFlight(history: seq<Step>, q: Id, kind: Kind, env: Env, k: nat) {
    var tr := Story(history, q, kind, env, k);
    Run(INIT, tr) && q in Exec(INIT, tr).reqs && Active(Exec(INIT, tr).reqs[q].pc)
  }

  /** After k calls request q is at `pc` and has left the stores st. */
  ghost predicate Owes(history: seq<Step>, q: Id, kind: Kind, env: Env, k: nat, pc: Pc, st: Stores) {
    var tr := Story(history, q, kind, env, k);
    && Schedule(history, q, kind, env) && Run(INIT, tr)
    && q in Exec(INIT, tr).reqs && Exec(INIT, tr).reqs[q] == Req(kind, pc) && Exec(INIT, tr).st == st
  }

  /** No row disappears or changes its customer, vehicle, service or dealership. */
  ghost predicate WhoKept(st: Stores, st': Stores) {
    forall r | r in st.rows :: r in st'.rows && st'.rows[r].who == st.rows[r].who
  }

  /** Whatever others do in between, rows keep their customer and keys stay unique. */
  lemma BetweenKeeps(tr: seq<Step>, between: seq<Step>)
    requires Run(INIT, tr) && Run(Exec(INIT, tr), between)
    ensures var st, st' := Exec(INIT, tr).st, Exec(Exec(INIT, tr), between).st;
            WhoKept(st, st') && UniqueKeys(st')
  {
    hide Local;
    var s := Exec(INIT, tr);
    RunInv(INIT, tr);
    EvolveRefl(s.st, None);
    assert Safety.Later(s.st, s.st);
    Safety.RunLaterFrom(s.st, s, between);
    forall r | r in s.st.rows
      ensures r in Exec(s, between).st.rows && Exec(s, between).st.rows[r].who == s.st.rows[r].who
    {
      assert RowEvolves(s.st, Exec(s, between).st, r);
    }
  }

  /** The next call is the machine's next move, in the stores the others have left. */
  lemma NextCall(history: seq<Step>, q: Id, kind: Kind, env: Env, k: nat, pc: Pc, st: Stores)
    requires Owes(history, q, kind, env, k, pc, st) && Active(pc)
    ensures var met, ch := env.met(k), env.choice(k);
            && Fits(kind, pc) && ChoiceOk(met, kind, pc, ch)
            && WhoKept(st, met) && UniqueKeys(met)
            && var m := MoveAny(met, q, kind, pc, ch);
               Owes(history, q, kind, env, k + 1, m.pc, m.st)
  {
    hide MoveAny, ChoiceOk, Fits, UniqueKeys, WhoKept, Schedule;
    var tr, between, step := Story(history, q, kind, env, k), env.between(k), Call(q, env.choice(k));
    var s := Exec(INIT, tr);
    NowMeets(history, q, kind, env, k);
    var s1 := Exec(s, between);
    Untouched(s, between, q);
    BetweenKeeps(tr, between);
    RunAppend(INIT, tr, between);
    One(s1, step);
    RunAppend(INIT, tr + between, [step]);
    assert Story(history, q, kind, env, k + 1) == tr + between + [step];
  }

  lemma NowMeets(history: seq<Step>, q: Id, kind: Kind, env: Env, k: nat)
    requires Schedule(history, q, kind, env) && InFlight(history, q, kind, env, k)
    ensures Meets(env, q, Exec(INIT, Story(history, q, kind, env, k)), k)
  {
  }

  // ---- Every run is a schedule ---------------------------------------------------------------

  /** Others' steps and the request's calls, taken from two lists. */
  function Woven(q: Id, parts: seq<seq<Step>>, chs: seq<Choice>, k: nat): seq<Step>
    requires k <= |parts| == |chs|
  {
    if k == 0 then [] else Woven(q, parts, chs, k - 1) + parts[k - 1] + [Call(q, chs[k - 1])]
  }

  /** The run up to what others do before call number k. */
  function Before(history: seq<Step>, q: Id, kind: Kind, parts: seq<seq<Step>>, chs: seq<Choice>, k: nat): seq<Step>
    requires k < |parts| == |chs|
  {
    history + [Begin(q, kind)] + Woven(q, parts, chs, k) + parts[k]
  }

  /** `env` plays the given run, and then nothing. */
  ghost predicate Plays(env: Env, history: seq<Step>, q: Id, kind: Kind, parts: seq<seq<Step>>, chs: seq<Choice>)
    requires |parts| == |chs|
  {
    && (forall k: nat | k < |parts| :: env.between(k) == parts[k])
    && (forall k: nat | k < |parts| :: env.choice(k) == chs[k])
    && (forall k: nat | k < |parts| && Run(INIT, Before(history, q, kind, parts, chs, k)) ::
          env.met(k) == Exec(INIT, Before(history, q, kind, parts, chs, k)).st)
    && env.between(|parts|) == []
  }

  lemma PlayerExists(history: seq<Step>, q: Id, kind: Kind, parts: seq<seq<Step>>, chs: seq<Choice>) returns (env: Env)
    requires |parts| == |chs|
    ensures Plays(env, history, q, kind, parts, chs)
  {
    hide Run, Exec;
    var met := (k: nat) =>
      if k < |parts| && Run(INIT, Before(history, q, kind, parts, chs, k))
      then Exec(INIT, Before(history, q, kind, parts, chs, k)).st else EMPTY;
    env := Env((k: nat) => if k < |parts| then parts[k] else [], met,
               (k: nat) => if k < |chs| then chs[k] else Choice(Ok, "", false, "", 0, []));
  }

  lemma {:induction false} WovenTrace(env: Env, history: seq<Step>, q: Id, kind: Kind,
                                      parts: seq<seq<Step>>, chs: seq<Choice>, k: nat)
    requires k <= |parts| == |chs| && Plays(env, history, q, kind, parts, chs)
    ensures Trace(env, q, k) == Woven(q, parts, chs, k)
  {
    hide Run, Exec;
    if k > 0 { WovenTrace(env, history, q, kind, parts, chs, k - 1); }
  }

  lemma {:induction false} TracePrefix(env: Env, q: Id, k: nat, n: nat)
    requires k <= n
    ensures Trace(env, q, k) <= Trace(env, q, n)
  {
    if k < n { TracePrefix(env, q, k, n - 1); }
  }

  /** Nothing is asked of the world but to be a run: for any run whatever of the protocol in which
      request q begins and makes all its calls, what happens around q is a schedule. */
  lemma EveryRunIsScheduled(history: seq<Step>, q: Id, kind: Kind, parts: seq<seq<Step>>, chs: seq<Choice>)
    returns (env: Env)
    requires |parts| == |chs| && forall i, step | 0 <= i < |parts| && step in parts[i] :: ByOthers(step, q)
    requires var tr := history + [Begin(q, kind)] + Woven(q, parts, chs, |parts|);
             Run(INIT, tr) && q in Exec(INIT, tr).reqs && !Active(Exec(INIT, tr).reqs[q].pc)
    ensures Schedule(history, q, kind, env) && Trace(env, q, |parts|) == Woven(q, parts, chs, |parts|)
  {
    hide Meets, Plays, Enabled, Apply;
    env := PlayerExists(history, q, kind, parts, chs);
    WovenTrace(env, history, q, kind, parts, chs, |parts|);
    forall k: nat | InFlight(history, q, kind, env, k)
      ensures Meets(env, q, Exec(INIT, Story(history, q, kind, env, k)), k)
    {
      if k < |parts| {
        MeetsInRun(env, history, q, kind, parts, chs, k);
      } else {
        LastCallMade(env, history, q, kind, parts, chs, k);
      }
    }
  }

  lemma MeetsInRun(env: Env, history: seq<Step>, q: Id, kind: Kind, parts: seq<seq<Step>>, chs: seq<Choice>, k: nat)
    requires k < |parts| == |chs| && Plays(env, history, q, kind, parts, chs)
    requires forall i, step | 0 <= i < |parts| && step in parts[i] :: ByOthers(step, q)
    requires Run(INIT, history + [Begin(q, kind)] + Woven(q, parts, chs, |parts|))
    requires InFlight(history, q, kind, env, k)
    ensures Meets(env, q, Exec(INIT, Story(history, q, kind, env, k)), k)
  {
    hide Apply, ByOthers, Enabled, Run, Exec;
    var tr, call := Story(history, q, kind, env, k), Call(q, chs[k]);
    WovenTrace(env, history, q, kind, parts, chs, k);
    var rest := StoryCut(env, history, q, kind, parts, chs, k);
    RunCut(tr, parts[k], call, rest);
    assert Before(history, q, kind, parts, chs, k) == tr + parts[k];
  }

  lemma StoryCut(env: Env, history: seq<Step>, q: Id, kind: Kind, parts: seq<seq<Step>>, chs: seq<Choice>, k: nat)
    returns (rest: seq<Step>)
    requires k < |parts| == |chs| && Plays(env, history, q, kind, parts, chs)
    ensures history + [Begin(q, kind)] + Woven(q, parts, chs, |parts|) ==
            Story(history, q, kind, env, k) + parts[k] + [Call(q, chs[k])] + rest
  {
    hide Run, Exec;
    WovenTrace(env, history, q, kind, parts, chs, |parts|);
    TracePrefix(env, q, k + 1, |parts|);
    rest := Trace(env, q, |parts|)[|Trace(env, q, k + 1)|..];
    assert Trace(env, q, |parts|) == Trace(env, q, k) + parts[k] + [Call(q, chs[k])] + rest;
  }

  lemma RunCut(tr: seq<Step>, part: seq<Step>, step: Step, rest: seq<Step>)
    requires Run(INIT, tr + part + [step] + rest)
    ensures Run(INIT, tr) && Run(Exec(INIT, tr), part) && Enabled(Exec(Exec(INIT, tr), part), step)
    ensures Run(INIT, tr + part) && Exec(INIT, tr + part) == Exec(Exec(INIT, tr), part)
  {
    hide Apply, Enabled;
    RunPrefix(INIT, tr + part + [step], rest);
    RunPrefix(INIT, tr + part, [step]);
    RunPrefix(INIT, tr, part);
    RunOne(Exec(INIT, tr + part), step);
  }

  lemma RunOne(s: State, step: Step)
    requires Run(s, [step])
    ensures Enabled(s, step)
  {
    assert [step][0] == step;
  }

  lemma ActiveCalls(s: State, q: Id, ch: Choice)
    requires Enabled(s, Call(q, ch))
    ensures q in s.reqs && Active(s.reqs[q].pc)
  {
  }

  /** After its last call the request makes no other. */
  lemma LastCallMade(env: Env, history: seq<Step>, q: Id, kind: Kind, parts: seq<seq<Step>>, chs: seq<Choice>, k: nat)
    requires |parts| == |chs| <= k && Plays(env, history, q, kind, parts, chs)
    requires var tr := history + [Begin(q, kind)] + Woven(q, parts, chs, |parts|);
             Run(INIT, tr) && q in Exec(INIT, tr).reqs && !Active(Exec(INIT, tr).reqs[q].pc)
    ensures !InFlight(history, q, kind, env, k)
  {
    hide Apply, Enabled, Run, Exec;
    var n := |parts|;
    WovenTrace(env, history, q, kind, parts, chs, n);
    var done, call := Story(history, q, kind, env, n), Call(q, env.choice(n));
    if k > n && Run(INIT, Story(history, q, kind, env, k)) {
      var rest := StoryGoesOn(env, history, q, kind, n, k);
      RunCut(done, [], call, rest);
      ExecNone(Exec(INIT, done));
      ActiveCalls(Exec(INIT, done), q, env.choice(n));
    }
  }

  lemma ExecNone(s: State)
    ensures Run(s, []) && Exec(s, []) == s
  {
  }

  lemma StoryGoesOn(env: Env, history: seq<Step>, q: Id, kind: Kind, n: nat, k: nat) returns (rest: seq<Step>)
    requires n < k && env.between(n) == []
    ensures Story(history, q, kind, env, k) == Story(history, q, kind, env, n) + [] + [Call(q, env.choice(n))] + rest
  {
    TracePrefix(env, q, n + 1, k);
    rest := Trace(env, q, k)[|Trace(env, q, n + 1)|..];
    assert Trace(env, q, k) == Trace(env, q, n) + [Call(q, env.choice(n))] + rest;
  }

  // ---- What the answers mean -----------------------------------------------------------------

  /** The request's own Releases took effect and its last read succeeded. */
  ghost predicate CalmStory(history: seq<Step>, q: Id, kind: Kind, env: Env, k: nat) {
    var tr := Story(history, q, kind, env, k);
    Run(INIT, tr) && Saga.CalmRun(INIT, tr, q)
  }

  /** Everything the request reserved is dead, but for a Reserve whose answer was lost. */
  ghost predicate HoldsNothing(st: Stores, q: Id) {
    forall id | Saga.OwnedBy(st, q, id) :: Dead(st, id) || st.claims[id].lost
  }

  lemma ErrorHoldsNothing(history: seq<Step>, q: Id, kind: Kind, env: Env, k: nat, res: Result, st: Stores)
    requires Owes(history, q, kind, env, k, Done(res), st) && CalmStory(history, q, kind, env, k)
    requires Books(kind) && !Saga.Succeeds(Done(res))
    ensures HoldsNothing(st, q)
  {
    hide Schedule, Run, Exec, Saga.CalmRun;
    forall id | Saga.OwnedBy(st, q, id)
      ensures Dead(st, id) || st.claims[id].lost
    {
      Saga.AllOrNothing(Story(history, q, kind, env, k), q, id);
    }
  }

  lemma AnswerOk(history: seq<Step>, q: Id, kind: Kind, env: Env, k: nat, res: Result, st: Stores)
    requires Owes(history, q, kind, env, k, Done(res), st)
    ensures ResultOk(st, kind, res)
  {
    hide Schedule, StoreInv, ResultOk, Enabled, Apply;
    var tr := Story(history, q, kind, env, k);
    assert Reachable(Exec(INIT, tr));
    ReachableInv(Exec(INIT, tr));
    assert Local(st, q, kind, Done(res));
  }

  /** The answer's place among the operations of the calendar. */
  ghost predicate Explains(history: seq<Step>, q: Id, kind: Kind, env: Env, k: nat, res: Result) {
    var tr := Story(history, q, kind, env, k);
    Run(INIT, tr) && Linearization.Explained(tr, q, res)
  }

  lemma AnswerFits(history: seq<Step>, q: Id, kind: Kind, env: Env, k: nat, res: Result, st: Stores)
    requires Owes(history, q, kind, env, k, Done(res), st)
    ensures Linearization.Means(st, q, kind, res) && Explains(history, q, kind, env, k, res)
  {
    hide Schedule, Run, Exec, Linearization.Means, Linearization.Explained;
    Linearization.AnswersMean(Story(history, q, kind, env, k), q);
    Linearization.EveryAnswerExplained(Story(history, q, kind, env, k), q);
  }

  /** No compensation in the run reached an occupation of row r. */
  ghost predicate Spared(history: seq<Step>, q: Id, kind: Kind, env: Env, k: nat, r: Id) {
    var tr := Story(history, q, kind, env, k);
    Run(INIT, tr) && !Undercut.Undercut(INIT, tr, r)
  }

  predicate IsBooked(st: Stores, r: Id) {
    r in st.rows && st.rows[r].status.Confirmed?
  }

  lemma BookedHoldsBoth(history: seq<Step>, q: Id, kind: Kind, env: Env, k: nat, pc: Pc, st: Stores, r: Id)
    requires Owes(history, q, kind, env, k, pc, st) && IsBooked(st, r)
    ensures Linked(st, r) <==> Spared(history, q, kind, env, k, r)
  {
    hide Schedule, Run, Exec, Linked, Undercut.Undercut;
    LinkedIffNotUndercut(Story(history, q, kind, env, k), r);
  }

  /** Row r is CONFIRMED under the key. */
  predicate HoldsKey(st: Stores, key: string, r: Id) {
    r in st.rows && st.rows[r].status.Confirmed? && st.rows[r].key == Some(key)
  }

  /** Row r is CANCELLED and both its occupations are dead. */
  ghost predicate Gone(st: Stores, r: Id) {
    IsCancelled(st, r) && DeadHalf(st, r, Tech) && DeadHalf(st, r, Bay)
  }

  ghost predicate GoneForGood(history: seq<Step>, q: Id, kind: Kind, env: Env, k: nat, r: Id) {
    var tr := Story(history, q, kind, env, k);
    Run(INIT, tr) && forall more | Run(Exec(INIT, tr), more) :: Gone(Exec(Exec(INIT, tr), more).st, r)
  }

  lemma CancelledForGood(history: seq<Step>, q: Id, kind: Kind, env: Env, k: nat, r: Id, st: Stores)
    requires Owes(history, q, kind, env, k, Done(CancelDone(r, true, true)), st)
    ensures GoneForGood(history, q, kind, env, k, r)
  {
    hide Schedule, DeadHalf;
    var tr := Story(history, q, kind, env, k);
    var s := Exec(INIT, tr);
    assert Reachable(s);
    forall more | Run(s, more)
      ensures Gone(Exec(s, more).st, r)
    {
      assert Safety.Follows(s, Exec(s, more));
      Safety.CancelIsFinal(s, Exec(s, more), q, r);
    }
  }

  /** The given half of row r is dead, and stays so. */
  ghost predicate HalfGone(history: seq<Step>, q: Id, kind: Kind, env: Env, k: nat, r: Id, side: Side) {
    var tr := Story(history, q, kind, env, k);
    Run(INIT, tr) && forall more | Run(Exec(INIT, tr), more) :: DeadHalf(Exec(Exec(INIT, tr), more).st, r, side)
  }

  /** Call number k of a cancel, a Release, takes effect. */
  lemma HalfReleased(history: seq<Step>, q: Id, kind: Kind, env: Env, k: nat, pc: Pc, st: Stores)
    requires Owes(history, q, kind, env, k, pc, st) && kind.CancelReq? && (pc.CancelBay? || pc.CancelTech?)
    requires env.choice(k).reply != Failed
    ensures HalfGone(history, q, kind, env, k + 1, kind.row, if pc.CancelBay? then Bay else Tech)
  {
    hide MoveAny, ChoiceOk, Fits, Schedule, DeadHalf, Reachable, Safety.Follows, Undercut.Undercut;
    var tr, between, step := Story(history, q, kind, env, k), env.between(k), Call(q, env.choice(k));
    var s := Exec(INIT, tr);
    NowMeets(history, q, kind, env, k);
    Untouched(s, between, q);
    RunAppend(INIT, tr, between);
    var s1 := Exec(s, between);
    One(s1, step);
    RunAppend(INIT, tr + between, [step]);
    assert Story(history, q, kind, env, k + 1) == tr + between + [step];
    ReachedBy(tr + between);
    var s2 := Apply(s1, step);
    ReachedBy(tr + between + [step]);
    forall more | Run(s2, more)
      ensures DeadHalf(Exec(s2, more).st, kind.row, if pc.CancelBay? then Bay else Tech)
    {
      FollowsBy(s2, more);
      Safety.CancelReleaseKills(s1, Exec(s2, more), q, env.choice(k));
    }
  }

  lemma ReachedBy(tr: seq<Step>)
    requires Run(INIT, tr)
    ensures Reachable(Exec(INIT, tr))
  {
  }

  lemma FollowsBy(s: State, tr: seq<Step>)
    requires Reachable(s) && Run(s, tr)
    ensures Safety.Follows(s, Exec(s, tr))
  {
  }

  lemma HalfStaysGone(history: seq<Step>, q: Id, kind: Kind, env: Env, k: nat, n: nat, r: Id, side: Side)
    requires HalfGone(history, q, kind, env, k, r, side) && k <= n && Run(INIT, Story(history, q, kind, env, n))
    ensures HalfGone(history, q, kind, env, n, r, side)
  {
    hide Enabled, Apply, DeadHalf;
    var tr, tr' := Story(history, q, kind, env, k), Story(history, q, kind, env, n);
    TracePrefix(env, q, k, n);
    var rest := tr'[|tr|..];
    assert tr' == tr + rest;
    RunPrefix(INIT, tr, rest);
    forall more | Run(Exec(INIT, tr'), more)
      ensures DeadHalf(Exec(Exec(INIT, tr'), more).st, r, side)
    {
      RunAppend(Exec(INIT, tr), rest, more);
    }
  }

  /** What a confirm of hold r answers, without any further call or write, if the read of call c finds
      no HELD row: not found; a CANCELLED row is unavailable; a CONFIRMED one is replayed, unless the
      next call finds the key on another CONFIRMED row. */
  ghost predicate HoldAnswer(env: Env, c: nat, calls: nat, key: string, r: Id, res: Result, st: Stores) {
    var met, next := env.met(c), env.met(c + 1);
    if env.choice(c).reply != Ok || r !in met.rows then calls == c + 1 && st == met && res == NotFound
    else
      match met.rows[r].status
      case Held => true
      case Cancelled => calls == c + 1 && st == met && res == Unavailable
      case Confirmed =>
        if key == "" then calls == c + 1 && st == met && res == Replayed(r)
        else
          && calls == c + 2 && st == next
          && res == if env.choice(c + 1).reply != Ok then Internal
                    else if exists x :: x != r && HoldsKey(next, key, x) then Conflict else Replayed(r)
  }

  /** What a cancel of row r answers: it reads the row in call c, updates it in the next, and releases
      the bay and then the technician in the two after that. */
  predicate CancelAnswer(env: Env, c: nat, calls: nat, r: Id, res: Result) {
    var found := env.choice(c).reply == Ok && r in env.met(c).rows;
    if !found then calls == c + 1 && res == NotFound
    else if env.choice(c + 1).reply != Ok then calls == c + 2 && res == Unavailable
    else
      && calls == c + 4 && res.CancelDone? && res.row == r
      && (env.choice(c + 2).reply == Ok ==> res.bayOk) && (env.choice(c + 3).reply == Ok ==> res.techOk)
  }

  /** And what it does: a Release that takes effect, answered or not, kills its half for good. */
  ghost predicate CancelEffects(history: seq<Step>, q: Id, kind: Kind, env: Env, c: nat, calls: nat)
    requires kind.CancelReq?
  {
    && (calls > c + 2 && env.choice(c + 2).reply != Failed ==> HalfGone(history, q, kind, env, calls, kind.row, Bay))
    && (calls > c + 3 && env.choice(c + 3).reply != Failed ==> HalfGone(history, q, kind, env, calls, kind.row, Tech))
  }

  lemma OwesRun(history: seq<Step>, q: Id, kind: Kind, env: Env, k: nat, pc: Pc, st: Stores)
    requires Owes(history, q, kind, env, k, pc, st)
    ensures Run(INIT, Story(history, q, kind, env, k))
  {
  }

  /** The sweep met ticks and reaps at most and no error, and its queries returned full batches. */
  ghost predicate Undisturbed(history: seq<Step>, q: Id, env: Env, k: nat) {
    Run(INIT, history) && Convergence.FullSweep(Exec(INIT, history), [Begin(q, SweepReq)] + Trace(env, q, k), q)
  }

  lemma UndisturbedIsPass(history: seq<Step>, q: Id, env: Env, k: nat, pc: Pc, st: Stores)
    requires Owes(history, q, SweepReq, env, k, pc, st) && Undisturbed(history, q, env, k)
    ensures Convergence.AgedPass(Exec(INIT, history).st, st)
  {
    hide Schedule, Run, Exec, Convergence.AgedPass, Convergence.GoodCalls;
    var sweep := [Begin(q, SweepReq)] + Trace(env, q, k);
    RunAppend(INIT, history, sweep);
    assert history + sweep == Story(history, q, SweepReq, env, k);
    Convergence.FullSweepIsPass(Exec(INIT, history), sweep, q);
  }

  /** One request of the booking service. */
  class Booking {
    const q: Id
    const kind: Kind
    const env: Env
    ghost const history: seq<Step>
    var st: Stores
    var calls: nat
    ghost var pc: Pc

    /** What has happened so far is a run of the protocol, with the request at `pc`. */
    ghost predicate Valid() reads this {
      Owes(history, q, kind, env, calls, pc, st)
    }

    constructor (q: Id, kind: Kind, env: Env, st: Stores, ghost history: seq<Step>)
      requires Run(INIT, history) && Exec(INIT, history).st == st && q !in Exec(INIT, history).reqs
      requires Schedule(history, q, kind, env)
      ensures Valid() && this.q == q && this.kind == kind && this.env == env && this.history == history
      ensures this.st == st && pc == StartPc(kind) && calls == 0
    {
      hide Schedule;
      var none := 0;
      One(Exec(INIT, history), Begin(q, kind));
      RunAppend(INIT, history, [Begin(q, kind)]);
      assert Story(history, q, kind, env, 0) == history + [Begin(q, kind)];
      this.q, this.kind, this.env, this.history, this.st, this.calls := q, kind, env, history, st, none;
      this.pc := StartPc(kind);
    }

    /** The stores as the next call meets them, and how it is answered; `pc` makes its move. */
    method Meet() returns (ch: Choice)
      requires Valid() && Active(pc)
      modifies this`st, this`calls, this`pc
      ensures calls == old(calls) + 1 && st == env.met(old(calls)) && ch == env.choice(old(calls))
      ensures Fits(kind, old(pc)) && ChoiceOk(st, kind, old(pc), ch)
      ensures var m := MoveAny(st, q, kind, old(pc), ch);
              pc == m.pc && Owes(history, q, kind, env, calls, pc, m.st)
      ensures WhoKept(old(st), st) && UniqueKeys(st)
    {
      hide Owes, ChoiceOk, MoveAny, WhoKept, UniqueKeys, Fits;
      NextCall(history, q, kind, env, calls, pc, st);
      ch := env.choice(calls);
      ghost var m := MoveAny(env.met(calls), q, kind, pc, ch);
      calls, st := calls + 1, env.met(calls);
      pc := m.pc;
    }

    // ---- The allocators' statements ------------------------------------------------------

    /** The pick of the claim statement: None on an error, else what the query found. */
    method Pick(prior: Option<Claimed>, n: nat) returns (r: Option<Option<Cand>>)
      requires Valid() && Books(kind) && pc == Protocol.Pick(prior, n)
      modifies this`st, this`calls, this`pc
      ensures Valid()
      ensures r.None? ==> pc == ReserveFailed(prior)
      ensures r == Some(None) ==> pc == Reaping(prior, n)
      ensures r.Some? && r.value.Some? ==>
                pc.Put? && pc == Protocol.Put(prior, n, r.value.value.resource, if prior.None? then r.value.value.end
                    else prior.value.end, pc.seen)
    {
      hide Owes, ChoiceOk, MovePromote, MoveRelease, MoveBook, MoveHold, MoveCancel, MoveSweep;
      var ch := Meet();
      if ch.reply != Ok { return None; }
      return Some((if ch.found then Some(Cand(ch.resource, ch.end)) else None));
    }

    /** The insert of the claim statement; the exclusion constraint may refuse it. */
    method Put(prior: Option<Claimed>, n: nat, resource: Id, end: int) returns (ok: bool, r: Option<Claimed>)
      requires Valid() && Books(kind) && pc.Put? && pc == Protocol.Put(prior, n, resource, end, pc.seen)
      modifies this`st, this`calls, this`pc
      ensures Valid()
      ensures !ok ==> r.None? && pc == ReserveFailed(prior)
      ensures ok && r.None? ==> pc == Reaping(prior, n)
      ensures r.Some? ==> pc == ReserveDone(prior, r.value)
    {
      hide Owes, ChoiceOk, MovePromote, MoveRelease, MoveBook, MoveHold, MoveCancel, MoveSweep;
      var ch := Meet();
      var id := OccId(SideOf(prior), ch.key);
      if ch.reply == Failed { return false, None; }
      if !Free(st.occs, id.side, resource, kind.body.start, end) { return true, None; }
      st := InsertOcc(st, id, resource, kind.body.start, end, q, ch.reply == Lost);
      if ch.reply == Lost { return false, None; }
      return true, Some(Claimed(id, resource, kind.body.start, end));
    }

    method DeleteExpired(prior: Option<Claimed>, n: nat) returns (ok: bool)
      requires Valid() && Books(kind) && pc == Reaping(prior, n)
      modifies this`st, this`calls, this`pc
      ensures Valid()
      ensures pc == if ok && n < MAX_ATTEMPTS then Protocol.Pick(prior, n + 1) else ReserveFailed(prior)
      ensures calls == old(calls) + 1 && ok == (env.choice(old(calls)).reply == Ok)
      ensures var met, gone := env.met(old(calls)), env.choice(old(calls)).reply != Failed;
              forall id :: id in st.occs <==>
                id in met.occs && !(gone && id.side == SideOf(prior) && Expired(met.occs[id], met.now))
      ensures forall id | id in st.occs :: st.occs[id] == env.met(old(calls)).occs[id]
    {
      hide WhoKept, UniqueKeys, Owes, ChoiceOk, MovePromote, MoveRelease, MoveBook, MoveHold, MoveCancel,
          MoveSweep;
      var ch := Meet();
      if ch.reply != Failed { st := ReapOccs(st, SideOf(prior)); }
      return ch.reply == Ok;
    }

    /** Reserve: claim, and delete expired holds between attempts. */
    method Reserve(prior: Option<Claimed>) returns (r: Option<Claimed>)
      requires Valid() && Books(kind) && pc == Protocol.Pick(prior, 1)
      modifies this`st, this`calls, this`pc
      ensures Valid()
      ensures pc == if r.Some? then ReserveDone(prior, r.value) else ReserveFailed(prior)
    {
      hide Owes;
      var attempt := 1;
      while attempt <= MAX_ATTEMPTS
        invariant Valid() && 1 <= attempt <= MAX_ATTEMPTS + 1
        invariant pc == if attempt <= MAX_ATTEMPTS then Protocol.Pick(prior, attempt) else ReserveFailed(prior)
      {
        var picked := Pick(prior, attempt);
        if picked.None? { return None; }
        if picked.value.Some? {
          var c := picked.value.value;
          var ok, claimed := Put(prior, attempt, c.resource, if prior.None? then c.end else prior.value.end);
          if !ok || claimed.Some? { return claimed; }
        }
        var ok := DeleteExpired(prior, attempt);
        if !ok { return None; }
        attempt := attempt + 1;
      }
      return None;
    }

    method ConfirmTech(row: Id, t: OccId, b: OccId) returns (ok: bool)
      requires Valid() && Confirms(kind) && pc == Protocol.ConfirmTech(row, t, b)
      modifies this`st, this`calls, this`pc
      ensures Valid() && WhoKept(old(st), st)
      ensures pc == if ok then Protocol.ConfirmBay(row, t, b) else RelBay(t, b, Unavailable)
    {
      hide Owes, ChoiceOk, MoveReserve, MoveRelease, MoveBook, MoveHold, MoveCancel, MoveSweep;
      var ch := Meet();
      ok := ch.reply == Ok && Confirmable(st.occs, st.now, t);
      if ch.reply != Failed { st := ConfirmOcc(st, t); }
    }

    method ConfirmBay(row: Id, t: OccId, b: OccId) returns (ok: bool)
      requires Valid() && Confirms(kind) && pc == Protocol.ConfirmBay(row, t, b)
      modifies this`st, this`calls, this`pc
      ensures Valid() && WhoKept(old(st), st)
      ensures pc == if ok then Flip(row, t, b) else RelBay(t, b, Unavailable)
    {
      hide Owes, ChoiceOk, MoveReserve, MoveRelease, MoveBook, MoveHold, MoveCancel, MoveSweep;
      var ch := Meet();
      ok := ch.reply == Ok && Confirmable(st.occs, st.now, b);
      if ch.reply != Failed { st := ConfirmOcc(st, b); }
    }

    method ReleaseBay(t: OccId, b: OccId, res: Result)
      requires Valid() && Fits(kind, pc) && pc == RelBay(t, b, res)
      modifies this`st, this`calls, this`pc
      ensures Valid() && pc == RelTech(t, res)
    {
      hide ReleaseOcc, WhoKept, UniqueKeys, Owes, ChoiceOk, MoveReserve, MovePromote, MoveBook, MoveHold, MoveCancel,
          MoveSweep;
      var ch := Meet();
      if ch.reply != Failed { st := ReleaseOcc(st, b); }
    }

    method ReleaseTech(t: OccId, res: Result)
      requires Valid() && Fits(kind, pc) && pc == RelTech(t, res)
      modifies this`st, this`calls, this`pc
      ensures Valid() && pc == Done(res)
    {
      hide ReleaseOcc, WhoKept, UniqueKeys, Owes, ChoiceOk, MoveReserve, MovePromote, MoveBook, MoveHold, MoveCancel,
          MoveSweep;
      var ch := Meet();
      if ch.reply != Failed { st := ReleaseOcc(st, t); }
    }

    // ---- The booking store's statements ----------------------------------------------------

    method InsertHeld(t: Claimed, b: Claimed) returns (r: Option<Id>)
      requires Valid() && Books(kind) && pc == Insert(t, b)
      modifies this`st, this`calls, this`pc
      ensures Valid()
      ensures r.None? ==> pc == RelBay(t.id, b.id, Unavailable)
      ensures r.Some? ==> pc == if kind.HoldReq? then Done(Created(r.value))
          else Protocol.ConfirmTech(r.value, t.id, b.id)
    {
      hide InsertRow, WhoKept, UniqueKeys, Owes, ChoiceOk, MoveReserve, MovePromote, MoveRelease, MoveHold,
          MoveCancel, MoveSweep;
      var ch := Meet();
      var id := ch.key;
      if ch.reply == Failed { return None; }
      st := InsertRow(st, id, kind.body.who, t.id, t.resource, b.id, b.resource, kind.body.start, t.end);
      return if ch.reply == Ok then Some(id) else None;
    }

    /** The compare-and-set; `unique` if the index refused the key. */
    method Promote(row: Id, t: OccId, b: OccId, finger: string) returns (ok: bool, unique: bool)
      requires Valid() && Confirms(kind) && pc == Flip(row, t, b)
      requires kind.DirectReq? ==> finger == DirectPrint(kind.body)
      requires kind.PromoteReq? ==> row in st.rows && finger == HoldPrint(row, st.rows[row].who)
      modifies this`st, this`calls, this`pc
      ensures Valid()
      ensures pc == if ok then FinalGet(row) else Reread(row, t, b, unique)
    {
      hide Owes, ChoiceOk, MoveReserve, MoveRelease, MoveBook, MoveHold, MoveCancel, MoveSweep;
      var ch := Meet();
      if ch.reply == Failed || row !in st.rows { return false, false; }
      ok := ch.reply == Ok && CanPromote(st, row, kind.key);
      unique := ch.reply == Ok && !ok && st.rows[row].status.Held?;
      st := PromoteRow(st, row, kind.key, finger);
    }

    /** Get, after a failed Promote. */
    method GetAgain(row: Id, t: OccId, b: OccId, unique: bool) returns (status: Option<RowStatus>)
      requires Valid() && Confirms(kind) && pc == Reread(row, t, b, unique)
      modifies this`st, this`calls, this`pc
      ensures Valid()
      ensures pc == if status == Some(Confirmed) then FinalGet(row)
                    else RelBay(t, b, if status == Some(Held) && unique then Conflict else Unavailable)
    {
      hide Owes, ChoiceOk, MoveReserve, MoveRelease, MoveBook, MoveHold, MoveCancel, MoveSweep;
      var ch := Meet();
      return if ch.reply == Ok && row in st.rows then Some(st.rows[row].status) else None;
    }

    /** Get, for the answer. */
    method GetLast(row: Id) returns (ok: bool)
      requires Valid() && Confirms(kind) && pc == FinalGet(row)
      modifies this`st, this`calls, this`pc
      ensures Valid() && pc == Done(if ok then Booked(row) else NotFound)
    {
      hide Owes, ChoiceOk, MoveReserve, MoveRelease, MoveBook, MoveHold, MoveCancel, MoveSweep;
      var ch := Meet();
      return ch.reply == Ok && row in st.rows;
    }

    // ---- saga.go -----------------------------------------------------------------------------

    method ReleaseBoth(t: OccId, b: OccId, res: Result)
      requires Valid() && Fits(kind, pc) && (Books(kind) || Confirms(kind)) && pc == RelBay(t, b, res)
      modifies this`st, this`calls, this`pc
      ensures Valid() && pc == Done(res)
    {
      ReleaseBay(t, b, res);
      ReleaseTech(t, res);
    }

    method ReserveSaga() returns (r: Option<(Claimed, Claimed)>)
      requires Valid() && Books(kind) && pc == Protocol.Pick(None, 1)
      modifies this`st, this`calls, this`pc
      ensures Valid()
      ensures pc == if r.Some? then Insert(r.value.0, r.value.1) else Done(Unavailable)
    {
      var t := Reserve(None);
      if t.None? { return None; }
      var b := Reserve(t);
      if b.None? {
        ReleaseTech(t.value.id, Unavailable);
        return None;
      }
      return Some((t.value, b.value));
    }

    method ConfirmBoth(row: Id, t: OccId, b: OccId) returns (ok: bool)
      requires Valid() && Confirms(kind) && pc == Protocol.ConfirmTech(row, t, b)
      modifies this`st, this`calls, this`pc
      ensures Valid() && WhoKept(old(st), st)
      ensures pc == if ok then Flip(row, t, b) else RelBay(t, b, Unavailable)
    {
      ok := ConfirmTech(row, t, b);
      if ok { ok := ConfirmBay(row, t, b); }
    }

    // ---- service.go --------------------------------------------------------------------------

    /** promoteConfirmed: None is success. */
    method PromoteConfirmed(row: Id, t: OccId, b: OccId, finger: string) returns (error: Option<Result>)
      requires Valid() && Confirms(kind) && pc == Protocol.ConfirmTech(row, t, b)
      requires kind.DirectReq? ==> finger == DirectPrint(kind.body)
      requires kind.PromoteReq? ==> row in st.rows && finger == HoldPrint(row, st.rows[row].who)
      modifies this`st, this`calls, this`pc
      ensures Valid()
      ensures pc == if error.Some? then Done(error.value) else FinalGet(row)
    {
      var ok := ConfirmBoth(row, t, b);
      if !ok {
        ReleaseBoth(t, b, Unavailable);
        return Some(Unavailable);
      }
      var flipped, unique := Promote(row, t, b, finger);
      if !flipped {
        var status := GetAgain(row, t, b, unique);
        if status.None? {
          ReleaseBoth(t, b, Unavailable);
          return Some(Unavailable);
        }
        match status.value {
          case Confirmed =>
            return None;
          case Cancelled =>
            ReleaseBoth(t, b, Unavailable);
            return Some(Unavailable);
          case Held =>
            if unique {
              ReleaseBoth(t, b, Conflict);
              return Some(Conflict);
            }
            ReleaseBoth(t, b, Unavailable);
            return Some(Unavailable);
        }
      }
      return None;
    }

    /** The calls of CreateHold, in the order of the code. */
    method CreateHoldCalls() returns (res: Result)
      requires Valid() && kind.HoldReq? && pc == StartPc(kind)
      modifies this`st, this`calls, this`pc
      ensures Valid() && pc == Done(res)
    {
      var pair := ReserveSaga();
      if pair.None? { return Unavailable; }
      var (t, b) := pair.value;
      var row := InsertHeld(t, b);
      if row.None? {
        ReleaseBoth(t.id, b.id, Unavailable);
        return Unavailable;
      }
      return Created(row.value);
    }

    /** POST /holds, after the prechecks. */
    method CreateHold() returns (res: Result)
      requires Valid() && kind.HoldReq? && pc == StartPc(kind)
      modifies this`st, this`calls, this`pc
      ensures Valid() && pc == Done(res)
      ensures ResultOk(st, kind, res) && Linearization.Means(st, q, kind, res)
      ensures Explains(history, q, kind, env, calls, res)
      ensures CalmStory(history, q, kind, env, calls) && !Saga.Succeeds(Done(res)) ==> HoldsNothing(st, q)
    {
      hide Owes, ResultOk, CalmStory, HoldsNothing, Linked, Spared, GoneForGood, Linearization.Means, Explains;
      res := CreateHoldCalls();
      AnswerOk(history, q, kind, env, calls, res, st);
      AnswerFits(history, q, kind, env, calls, res, st);
      if CalmStory(history, q, kind, env, calls) && !Saga.Succeeds(Done(res)) {
        ErrorHoldsNothing(history, q, kind, env, calls, res, st);
      }
    }

    /** GetConfirmedByIdempotencyKey and the comparison of fingerprints. */
    method Replay() returns (error: Option<Result>, hit: Option<Id>)
      requires Valid() && kind.DirectReq? && pc == Lookup
      modifies this`st, this`calls, this`pc
      ensures Valid()
      ensures pc == if error.Some? then Done(error.value) else if hit.Some? then Done(Replayed(hit.value))
          else Protocol.Pick(None, 1)
      ensures calls == old(calls) + 1 && st == env.met(old(calls)) && (error.None? || hit.None?)
      ensures env.choice(old(calls)).reply == Ok ==>
                forall r | HoldsKey(st, kind.key, r) ::
                  if st.rows[r].finger == Some(DirectPrint(kind.body)) then hit == Some(r) else error == Some(Conflict)
    {
      hide Owes, ChoiceOk, MoveReserve, MovePromote, MoveRelease, MoveHold, MoveCancel, MoveSweep;
      var ch := Meet();
      if ch.reply != Ok { return Some(Internal), None; }
      var holders := Holders(st, kind.key);
      assert forall r | HoldsKey(st, kind.key, r) :: r in holders;
      if holders == {} { return None, None; }
      var holder :| holder in holders;
      if st.rows[holder].finger != Some(DirectPrint(kind.body)) { return Some(Conflict), None; }
      return None, Some(holder);
    }

    /** The calls of ConfirmWithoutHold, in the order of the code. */
    method ConfirmWithoutHoldCalls() returns (res: Result)
      requires Valid() && kind.DirectReq? && pc == StartPc(kind)
      modifies this`st, this`calls, this`pc
      ensures Valid() && pc == Done(res)
      ensures kind.key != "" && env.choice(old(calls)).reply == Ok ==>
                forall r | HoldsKey(env.met(old(calls)), kind.key, r) ::
                  && calls == old(calls) + 1 && st == env.met(old(calls))
                  && res == if st.rows[r].finger == Some(DirectPrint(kind.body)) then Replayed(r) else Conflict
    {
      hide DirectPrint;
      if kind.key != "" {
        var error, hit := Replay();
        if error.Some? { return error.value; }
        if hit.Some? { return Replayed(hit.value); }
      }
      var pair := ReserveSaga();
      if pair.None? { return Unavailable; }
      var (t, b) := pair.value;
      var row := InsertHeld(t, b);
      if row.None? {
        ReleaseBoth(t.id, b.id, Unavailable);
        return Unavailable;
      }
      var error := PromoteConfirmed(row.value, t.id, b.id, DirectPrint(kind.body));
      if error.Some? { return error.value; }
      var ok := GetLast(row.value);
      return if ok then Booked(row.value) else NotFound;
    }

    /** POST /appointments without a hold, after the prechecks. If the first call is answered and finds
        a row CONFIRMED under the key, there is no other call and no store changes: the row is
        replayed if the fields agree with its fingerprint, and the answer is a conflict if not. */
    method ConfirmWithoutHold() returns (res: Result)
      requires Valid() && kind.DirectReq? && pc == StartPc(kind)
      modifies this`st, this`calls, this`pc
      ensures Valid() && pc == Done(res)
      ensures kind.key != "" && env.choice(old(calls)).reply == Ok ==>
                forall r | HoldsKey(env.met(old(calls)), kind.key, r) ::
                  && calls == old(calls) + 1 && st == env.met(old(calls))
                  && res == if st.rows[r].finger == Some(Sequential.FingerOfBody(kind.body)) then Replayed(r)
                      else Conflict
      ensures ResultOk(st, kind, res) && Linearization.Means(st, q, kind, res)
      ensures Explains(history, q, kind, env, calls, res)
      ensures CalmStory(history, q, kind, env, calls) && !Saga.Succeeds(Done(res)) ==> HoldsNothing(st, q)
      ensures res.Booked? && IsBooked(st, res.row) ==>
                (Linked(st, res.row) <==> Spared(history, q, kind, env, calls, res.row))
    {
      hide Owes, ResultOk, CalmStory, HoldsNothing, Linked, Spared, GoneForGood, Linearization.Means, Explains;
      hide DirectPrint, Sequential.FingerOfBody;
      Sequential.BodyPrintIs(kind.body);
      res := ConfirmWithoutHoldCalls();
      AnswerOk(history, q, kind, env, calls, res, st);
      AnswerFits(history, q, kind, env, calls, res, st);
      if CalmStory(history, q, kind, env, calls) && !Saga.Succeeds(Done(res)) {
        ErrorHoldsNothing(history, q, kind, env, calls, res, st);
      }
      if res.Booked? && IsBooked(st, res.row) { BookedHoldsBoth(history, q, kind, env, calls, pc, st, res.row); }
    }

    /** Get of the hold to promote. */
    method GetHold() returns (row: Option<Row>)
      requires Valid() && kind.PromoteReq? && pc == Load
      modifies this`st, this`calls, this`pc
      ensures Valid()
      ensures row.Some? ==> kind.row in st.rows && st.rows[kind.row] == row.value
      ensures pc == if row.None? then Done(NotFound) else
                    match row.value.status
                    case Confirmed => if kind.key == "" then Done(Replayed(kind.row)) else KeyCheck
                    case Cancelled => Done(Unavailable)
                    case Held => if row.value.techOcc.None? || row.value.bayOcc.None? then Done(Unavailable)
                                 else Protocol.ConfirmTech(kind.row, row.value.techOcc.value, row.value.bayOcc.value)
      ensures calls == old(calls) + 1 && st == env.met(old(calls))
      ensures row.Some? <==> env.choice(old(calls)).reply == Ok && kind.row in st.rows
    {
      hide Owes, ChoiceOk, MoveReserve, MovePromote, MoveRelease, MoveBook, MoveCancel, MoveSweep;
      var ch := Meet();
      return if ch.reply == Ok && kind.row in st.rows then Some(st.rows[kind.row]) else None;
    }

    /** Does another CONFIRMED appointment carry the key? None on an error. */
    method KeyElsewhere() returns (r: Option<bool>)
      requires Valid() && kind.PromoteReq? && pc == KeyCheck
      modifies this`st, this`calls, this`pc
      ensures Valid()
      ensures pc == Done(if r.None? then Internal else if r.value then Conflict else Replayed(kind.row))
      ensures calls == old(calls) + 1 && st == env.met(old(calls))
      ensures r.Some? <==> env.choice(old(calls)).reply == Ok
      ensures r.Some? ==> (r.value <==> exists x :: x != kind.row && HoldsKey(st, kind.key, x))
    {
      hide Owes, ChoiceOk, MoveReserve, MovePromote, MoveRelease, MoveBook, MoveCancel, MoveSweep;
      var ch := Meet();
      if ch.reply != Ok { return None; }
      var holders := Holders(st, kind.key);
      assert forall x :: x in holders <==> HoldsKey(st, kind.key, x);
      if holders == {} { return Some(false); }
      var holder :| holder in holders;
      assert holder in st.rows && HoldsKey(st, kind.key, holder);
      return Some(holder != kind.row);
    }

    /** The calls of ConfirmHold, in the order of the code. */
    method ConfirmHoldCalls() returns (res: Result)
      requires Valid() && kind.PromoteReq? && pc == StartPc(kind)
      modifies this`st, this`calls, this`pc
      ensures Valid() && pc == Done(res)
      ensures HoldAnswer(env, old(calls), calls, kind.key, kind.row, res, st)
    {
      var row := GetHold();
      if row.None? { return NotFound; }
      match row.value.status {
        case Confirmed =>
          if kind.key != "" {
            var elsewhere := KeyElsewhere();
            if elsewhere.None? { return Internal; }
            if elsewhere.value { return Conflict; }
          }
          return Replayed(kind.row);
        case Cancelled =>
          return Unavailable;
        case Held =>
      }
      if row.value.techOcc.None? || row.value.bayOcc.None? { return Unavailable; }
      var finger := HoldPrint(kind.row, row.value.who);
      var error := PromoteConfirmed(kind.row, row.value.techOcc.value, row.value.bayOcc.value, finger);
      if error.Some? { return error.value; }
      var ok := GetLast(kind.row);
      return if ok then Booked(kind.row) else NotFound;
    }

    /** POST /appointments with a holdId. */
    method ConfirmHold() returns (res: Result)
      requires Valid() && kind.PromoteReq? && pc == StartPc(kind)
      modifies this`st, this`calls, this`pc
      ensures Valid() && pc == Done(res)
      ensures HoldAnswer(env, old(calls), calls, kind.key, kind.row, res, st)
      ensures ResultOk(st, kind, res) && Linearization.Means(st, q, kind, res)
      ensures Explains(history, q, kind, env, calls, res)
      ensures res.Booked? && IsBooked(st, res.row) ==>
                (Linked(st, res.row) <==> Spared(history, q, kind, env, calls, res.row))
    {
      hide Owes, ResultOk, CalmStory, HoldsNothing, Linked, Spared, GoneForGood, Linearization.Means, Explains;
      hide HoldAnswer;
      res := ConfirmHoldCalls();
      AnswerOk(history, q, kind, env, calls, res, st);
      AnswerFits(history, q, kind, env, calls, res, st);
      if res.Booked? && IsBooked(st, res.row) { BookedHoldsBoth(history, q, kind, env, calls, pc, st, res.row); }
    }

    // ---- Cancel --------------------------------------------------------------------------------

    method GetForCancel() returns (row: Option<Row>)
      requires Valid() && kind.CancelReq? && pc == CancelLoad
      modifies this`st, this`calls, this`pc
      ensures Valid()
      ensures pc == if row.None? then Done(NotFound) else CancelCas(row.value.techOcc, row.value.bayOcc)
      ensures calls == old(calls) + 1
      ensures row.Some? <==> env.choice(old(calls)).reply == Ok && kind.row in env.met(old(calls)).rows
    {
      hide Owes, ChoiceOk, MoveReserve, MovePromote, MoveRelease, MoveBook, MoveHold, MoveSweep;
      var ch := Meet();
      return if ch.reply == Ok && kind.row in st.rows then Some(st.rows[kind.row]) else None;
    }

    method CancelRow(t: Option<OccId>, b: Option<OccId>) returns (ok: bool)
      requires Valid() && kind.CancelReq? && pc == CancelCas(t, b)
      modifies this`st, this`calls, this`pc
      ensures Valid()
      ensures pc == if ok then CancelBay(t, b) else Done(Unavailable)
      ensures calls == old(calls) + 1 && ok == (env.choice(old(calls)).reply == Ok)
    {
      hide Owes, ChoiceOk, MoveReserve, MovePromote, MoveRelease, MoveBook, MoveHold, MoveSweep;
      var ch := Meet();
      if ch.reply != Failed { st := CancelRows(st, {kind.row}); }
      return ch.reply == Ok;
    }

    /** Cancel's Release of an occupation id that may be NULL. */
    method ReleaseCancelledRow(id: Option<OccId>) returns (ok: bool)
      requires Valid() && (pc.CancelBay? || pc.CancelTech?) && kind.CancelReq? && Fits(kind, pc)
      requires id == if pc.CancelBay? then pc.bayId else pc.techId
      modifies this`st, this`calls, this`pc
      ensures Valid()
      ensures old(pc).CancelBay? ==> pc == CancelTech(old(pc).techId, ok)
      ensures old(pc).CancelTech? ==> pc == Done(CancelDone(kind.row, old(pc).bayOk, ok))
      ensures calls == old(calls) + 1 && (env.choice(old(calls)).reply == Ok ==> ok)
      ensures env.choice(old(calls)).reply != Failed ==>
                HalfGone(history, q, kind, env, calls, kind.row, if old(pc).CancelBay? then Bay else Tech)
    {
      hide ReleaseOpt, WhoKept, UniqueKeys, Owes, ChoiceOk, MoveReserve, MovePromote, MoveRelease, MoveBook, MoveHold,
          MoveSweep, HalfGone;
      if env.choice(calls).reply != Failed { HalfReleased(history, q, kind, env, calls, pc, st); }
      var ch := Meet();
      st := ReleaseOpt(st, id, ch.reply);
      return id.None? || ch.reply == Ok;
    }

    /** The calls of Cancel, in the order of the code. */
    method CancelCalls() returns (res: Result)
      requires Valid() && kind.CancelReq? && pc == StartPc(kind)
      modifies this`st, this`calls, this`pc
      ensures Valid() && pc == Done(res)
      ensures CancelAnswer(env, old(calls), calls, kind.row, res)
      ensures CancelEffects(history, q, kind, env, old(calls), calls)
    {
      hide Owes, HalfGone;
      var row := GetForCancel();
      if row.None? { return NotFound; }
      var ok := CancelRow(row.value.techOcc, row.value.bayOcc);
      if !ok { return Unavailable; }
      var bayOk := ReleaseCancelledRow(row.value.bayOcc);
      var techOk := ReleaseCancelledRow(row.value.techOcc);
      OwesRun(history, q, kind, env, calls, pc, st);
      if env.choice(calls - 2).reply != Failed { HalfStaysGone(history, q, kind, env, calls - 1, calls, kind.row,
          Bay); }
      return CancelDone(kind.row, bayOk, techOk);
    }

    /** DELETE /appointments/{id} */
    method Cancel() returns (res: Result)
      requires Valid() && kind.CancelReq? && pc == StartPc(kind)
      modifies this`st, this`calls, this`pc
      ensures Valid() && pc == Done(res)
      ensures CancelAnswer(env, old(calls), calls, kind.row, res)
      ensures CancelEffects(history, q, kind, env, old(calls), calls)
      ensures ResultOk(st, kind, res) && Linearization.Means(st, q, kind, res)
      ensures Explains(history, q, kind, env, calls, res)
      ensures res == CancelDone(kind.row, true, true) ==> GoneForGood(history, q, kind, env, calls, kind.row)
    {
      hide Owes, ResultOk, CalmStory, HoldsNothing, Linked, Spared, GoneForGood, Linearization.Means, Explains;
      hide CancelAnswer, CancelEffects;
      res := CancelCalls();
      AnswerOk(history, q, kind, env, calls, res, st);
      AnswerFits(history, q, kind, env, calls, res, st);
      if res == CancelDone(kind.row, true, true) { CancelledForGood(history, q, kind, env, calls, kind.row, st); }
    }

    // ---- Recovery ------------------------------------------------------------------------------

    /** CAS of expired HELD rows to CANCELLED. */
    method SweepBatch() returns (r: Option<seq<Item>>)
      requires Valid() && kind.SweepReq? && pc == Protocol.SweepBatch
      modifies this`st, this`calls, this`pc
      ensures Valid()
      ensures pc == if r.Some? then NextItem(r.value, true) else Done(Swept)
    {
      hide WhoKept, UniqueKeys, Owes, MoveReserve, MovePromote, MoveRelease, MoveBook, MoveHold, MoveCancel;
      var ch := Meet();
      if ch.reply == Failed { return None; }
      var rows := ch.rows;
      st := CancelRows(st, set r | r in rows);
      return if ch.reply == Ok then Some(Items(st, rows)) else None;
    }

    method ListCancelledNeedingRelease() returns (r: Option<seq<Item>>)
      requires Valid() && kind.SweepReq? && pc == SweepList
      modifies this`st, this`calls, this`pc
      ensures Valid()
      ensures pc == if r.Some? then NextItem(r.value, false) else Done(Swept)
    {
      hide WhoKept, UniqueKeys, Owes, MoveReserve, MovePromote, MoveRelease, MoveBook, MoveHold, MoveCancel;
      var ch := Meet();
      return if ch.reply == Ok then Some(Items(st, ch.rows)) else None;
    }

    method ClearOccupationIDs(todo: seq<Item>, more: bool)
      requires Valid() && kind.SweepReq? && todo != [] && pc == SweepClear(todo, more)
      modifies this`st, this`calls, this`pc
      ensures Valid() && pc == NextItem(todo[1..], more)
    {
      hide ClearRow, WhoKept, UniqueKeys, Owes, ChoiceOk, MoveReserve, MovePromote, MoveRelease, MoveBook, MoveHold,
          MoveCancel;
      var ch := Meet();
      if ch.reply != Failed { st := ClearRow(st, todo[0].row); }
    }

    /** The sweeper's Release of an occupation id that may be NULL. */
    method ReleaseSwept(id: Option<OccId>) returns (ok: bool)
      requires Valid() && (pc.SweepBay? || pc.SweepTech?) && Fits(kind, pc) && pc.todo != []
      requires id == if pc.SweepBay? then pc.todo[0].bay else pc.todo[0].tech
      modifies this`st, this`calls, this`pc
      ensures Valid()
      ensures old(pc).SweepBay? ==> pc == SweepTech(old(pc).todo, ok, old(pc).more)
      ensures old(pc).SweepTech? ==> pc == (if old(pc).bayOk && ok then SweepClear(old(pc).todo, old(pc).more)
          else NextItem(old(pc).todo[1..], old(pc).more))
    {
      hide ReleaseOpt, WhoKept, UniqueKeys, Owes, ChoiceOk, MoveReserve, MovePromote, MoveRelease, MoveBook, MoveHold,
          MoveCancel;
      var ch := Meet();
      st := ReleaseOpt(st, id, ch.reply);
      return id.None? || ch.reply == Ok;
    }

    /** Bay, then technician, and clear only when both Releases succeeded. */
    method ReleaseCancelled(items: seq<Item>, more: bool)
      requires Valid() && kind.SweepReq? && pc == NextItem(items, more)
      modifies this`st, this`calls, this`pc
      ensures Valid() && pc == if more then SweepList else Done(Swept)
    {
      for i := 0 to |items|
        invariant Valid() && pc == NextItem(items[i..], more)
      {
        var it := items[i];
        assert items[i..][1..] == items[i + 1..];
        if it.bay.None? && it.tech.None? { continue; }
        var bayOk := ReleaseSwept(it.bay);
        var techOk := ReleaseSwept(it.tech);
        if !bayOk || !techOk { continue; }
        ClearOccupationIDs(items[i..], more);
      }
    }

    /** The calls of SweepOnce, in the order of the code. */
    method SweepOnceCalls()
      requires Valid() && kind.SweepReq? && pc == StartPc(kind)
      modifies this`st, this`calls, this`pc
      ensures Valid() && pc == Done(Swept)
    {
      var rows := SweepBatch();
      if rows.None? { return; }
      ReleaseCancelled(rows.value, true);
      var pending := ListCancelledNeedingRelease();
      if pending.None? { return; }
      ReleaseCancelled(pending.value, false);
    }

    /** One sweepOnce: undisturbed and answered, it is a pass of Recovery over the stores it found, but
        for the clock and the reaped holds. */
    method SweepOnce()
      requires Valid() && kind.SweepReq? && pc == StartPc(kind)
      modifies this`st, this`calls, this`pc
      ensures Valid() && pc == Done(Swept)
      ensures Undisturbed(history, q, env, calls) ==> Convergence.AgedPass(Exec(INIT, history).st, st)
    {
      hide Owes, Undisturbed, Convergence.AgedPass;
      SweepOnceCalls();
      if Undisturbed(history, q, env, calls) { UndisturbedIsPass(history, q, env, calls, pc, st); }
    }
  }
}
