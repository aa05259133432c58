/**
 A change the assistant proposes runs only on the customer's own say, once. Any number of requests handle the
 same pending action at the same time; each is a sequence of separate database accesses, and the schedule may
 interleave them in any way or abandon a request half-way.
 */
module Actions {
  import opened Sums

  const LIFETIME: int := 1_800
  const CODE_LIFETIME: int := 300
  const RESEND_AFTER: int := 30
  const MAX_ATTEMPTS: int := 3

  datatype Status = Pending | Running | Done | Failed | Cancelled | Expired | Locked

  datatype Needs = NeedsApproval | NeedsCode

  /** The stored security code: its hash stands for the code itself. */
  datatype Code = Code(hash: string, expiresAt: int, attempts: int, lastSentAt: int)

  datatype Request = Approve | Verify(entered: string) | Cancel | Resend

  /** Where a request is between two database accesses. */
  datatype Point =
    | Start
    | ReadCode                    // the action was read as pending; the code row comes next
    | WriteAttempts(count: int)   // a wrong code: about to store the count it saw plus one
    | ReadSent                    // a new code was asked for; when the last one was sent comes next
    | Sending                     // about to store a new code
    | Cancelling | Expiring | Locking | Claiming   // about to compare-and-set the status
    | Won                         // the claim went through; the change runs next
    | Ran(result: Status)         // the change was run or refused; the final write comes next
    | Finished

  datatype Handler = Handler(request: Request, at: Point)

  /** What one access takes from outside: the time, the switch for changes, the account, the change's own outcome. */
  datatype Env = Env(now: int, changesOn: bool, accountFound: bool, succeeds: bool, newHash: string)

  /**
   `issued` keeps the hash of every code ever stored, `examined` how many wrong codes were compared with the one
   stored now, and `effects` how often the change was run.
   */
  datatype World = World(
    needs: Needs, createdAt: int, status: Status, code: Code, issued: set<string>, examined: nat, effects: nat,
    handlers: seq<Handler>)

  // ----- One access -----

  function Goto(w: World, h: nat, at: Point): World
    requires h < |w.handlers|
  {
    w.(handlers := w.handlers[h := w.handlers[h].(at := at)])
  }

  /** `filter(status="pending").update(status=to)`: only a pending action moves. */
  function CompareAndSet(w: World, to: Status): World {
    if w.status.Pending? then w.(status := to) else w
  }

  function AtStart(w: World, h: nat, env: Env): World
    requires h < |w.handlers|
  {
    match w.handlers[h].request
    case Approve =>
      if w.needs.NeedsCode? then Goto(w, h, Finished)
      else if env.now - w.createdAt > LIFETIME then Goto(w, h, Expiring)
      else if !env.changesOn then Goto(w, h, Finished)
      else Goto(w, h, Claiming)
    case Verify(_) => Goto(w, h, if w.needs.NeedsCode? && w.status.Pending? then ReadCode else Finished)
    case Cancel => Goto(w, h, Cancelling)
    case Resend => Goto(w, h, if w.needs.NeedsCode? && w.status.Pending? then ReadSent else Finished)
  }

  function AtReadCode(w: World, h: nat, env: Env): World
    requires h < |w.handlers|
  {
    if env.now > w.code.expiresAt || env.now - w.createdAt > LIFETIME then Goto(w, h, Expiring)
    else if w.code.attempts >= MAX_ATTEMPTS then Goto(w, h, Finished)
    else if w.handlers[h].request == Verify(w.code.hash) then Goto(w, h, Claiming)
    else Goto(w, h, WriteAttempts(w.code.attempts + 1)).(examined := w.examined + 1)
  }

  function Step(w: World, h: nat, env: Env): World {
    if h >= |w.handlers| then w
    else
      match w.handlers[h].at
      case Start => AtStart(w, h, env)
      case ReadCode => AtReadCode(w, h, env)
      case WriteAttempts(count) =>
        Goto(w, h, if MAX_ATTEMPTS - count <= 0 then Locking else Finished).(code := w.code.(attempts := count))
      case ReadSent => Goto(w, h, if env.now - w.code.lastSentAt >= RESEND_AFTER then Sending else Finished)
      case Sending =>
        Goto(w, h, Finished)
        .(code := Code(env.newHash, env.now + CODE_LIFETIME, 0, env.now), issued := w.issued + {env.newHash}, examined := 0)
      case Cancelling => Goto(CompareAndSet(w, Cancelled), h, Finished)
      case Expiring => Goto(CompareAndSet(w, Expired), h, Finished)
      case Locking => Goto(CompareAndSet(w, Locked), h, Finished)
      case Claiming =>
        if w.status.Pending? then Goto(CompareAndSet(w, Running), h, Won) else Goto(w, h, Finished)
      case Won =>
        if !env.accountFound then Goto(w, h, Ran(Failed))
        else Goto(w, h, Ran(if env.succeeds then Done else Failed)).(effects := w.effects + 1)
      case Ran(result) => Goto(w, h, Finished).(status := result)
      case Finished => w
  }

  datatype Move = Move(h: nat, env: Env)

  function Run(w: World, schedule: seq<Move>): World {
    if schedule == [] then w
    else
      var last := schedule[|schedule| - 1];
      Step(Run(w, schedule[..|schedule| - 1]), last.h, last.env)
  }

  /** A newly proposed action with any requests about to be handled. */
  predicate Proposed(w: World) {
    && w.status.Pending? && w.effects == 0 && w.issued == {w.code.hash}
    && w.code.attempts == 0 && w.examined == 0
    && forall h :: 0 <= h < |w.handlers| ==> w.handlers[h].at.Start?
  }

  // ----- What every access keeps -----

  /** Requests that won the claim and have not written their result yet. */
  ghost function Holds(): Handler -> int {
    (h: Handler) => if h.at.Won? || h.at.Ran? then 1 else 0
  }

  /** The consent a change asks for: one of the codes sent for it, or a plain approval where no code is needed. */
  ghost predicate Warrants(needs: Needs, issued: set<string>, request: Request) {
    if needs.NeedsCode? then request.Verify? && request.entered in issued else request.Approve?
  }

  /** A request past its checks carries the consent. */
  ghost predicate Consented(w: World, h: Handler) {
    && (h.at.ReadCode? ==> w.needs.NeedsCode? && h.request.Verify?)
    && (h.at.Claiming? || h.at.Won? || h.at.Ran? ==> Warrants(w.needs, w.issued, h.request))
  }

  ghost predicate HandlerOk(w: World, h: Handler) {
    && Consented(w, h)
    && (h.at.Won? ==> w.effects == 0)
    && (h.at.Ran? ==> (h.at.result.Done? && w.effects == 1) || (h.at.result.Failed? && w.effects <= 1))
  }

  ghost predicate SomeoneConsented(w: World) {
    exists h :: 0 <= h < |w.handlers| && Warrants(w.needs, w.issued, w.handlers[h].request)
  }

  ghost predicate Safe(w: World) {
    && SumBy(w.handlers, Holds()) == (if w.status.Running? then 1 else 0)
    && (forall h :: 0 <= h < |w.handlers| ==> HandlerOk(w, w.handlers[h]))
    && w.code.hash in w.issued
    && w.effects <= 1 && (w.effects == 1 ==> SomeoneConsented(w))
    && (w.status.Done? ==> w.effects == 1)
    && (w.status.Pending? || w.status.Cancelled? || w.status.Expired? || w.status.Locked? ==> w.effects == 0)
  }

  /** No access changes what was asked for, and codes once sent stay sent. */
  lemma ConsentLasts(w: World, v: World)
    requires v.needs == w.needs && w.issued <= v.issued && |v.handlers| == |w.handlers|
    requires forall h :: 0 <= h < |w.handlers| ==> v.handlers[h].request == w.handlers[h].request
    ensures SomeoneConsented(w) ==> SomeoneConsented(v)
  {
    if SomeoneConsented(w) {
      var h :| 0 <= h < |w.handlers| && Warrants(w.needs, w.issued, w.handlers[h].request);
      assert Warrants(v.needs, v.issued, v.handlers[h].request);
    }
  }

  /** Only the holder of the claim can be between winning and writing. */
  lemma OneHolder(w: World, h: nat, g: nat)
    requires Safe(w) && h < |w.handlers| && g < |w.handlers| && h != g
    requires Holds()(w.handlers[h]) == 1
    ensures w.status.Running? && Holds()(w.handlers[g]) == 0
  {
    SumByMember(w.handlers, h, Holds());
    if Holds()(w.handlers[g]) == 1 {
      if h < g {
        SumByTwoMembers(w.handlers, h, g, Holds());
      } else {
        SumByTwoMembers(w.handlers, g, h, Holds());
      }
    }
  }

  /** Moving one request on changes the number of holders by its own change. */
  lemma GotoHolds(w: World, h: nat, at: Point)
    requires h < |w.handlers|
    ensures
      SumBy(Goto(w, h, at).handlers, Holds())
      == SumBy(w.handlers, Holds()) - Holds()(w.handlers[h]) + (if at.Won? || at.Ran? then 1 else 0)
  {
    SumByUpdate(w.handlers, h, w.handlers[h].(at := at), Holds());
  }

  lemma OthersIdle(w: World, h: nat)
    requires Safe(w) && h < |w.handlers| && Holds()(w.handlers[h]) == 1
    ensures w.status.Running?
    ensures forall g :: 0 <= g < |w.handlers| && g != h ==> !w.handlers[g].at.Won? && !w.handlers[g].at.Ran?
  {
    SumByMember(w.handlers, h, Holds());
    forall g | 0 <= g < |w.handlers| && g != h ensures Holds()(w.handlers[g]) == 0 {
      OneHolder(w, h, g);
    }
  }

  lemma NobodyHolds(w: World)
    requires Safe(w) && !w.status.Running?
    ensures forall g :: 0 <= g < |w.handlers| ==> !w.handlers[g].at.Won? && !w.handlers[g].at.Ran?
  {
    forall g | 0 <= g < |w.handlers| ensures Holds()(w.handlers[g]) == 0 {
      SumByMember(w.handlers, g, Holds());
    }
  }

  lemma ClaimKeeps(w: World, h: nat, env: Env)
    requires Safe(w) && h < |w.handlers| && w.handlers[h].at.Claiming?
    ensures Safe(Step(w, h, env))
  {
    assert HandlerOk(w, w.handlers[h]);
    if w.status.Pending? {
      NobodyHolds(w);
      GotoHolds(CompareAndSet(w, Running), h, Won);
    } else {
      GotoHolds(w, h, Finished);
    }
    var v := Step(w, h, env);
    ConsentLasts(w, v);
    forall g | 0 <= g < |v.handlers| ensures HandlerOk(v, v.handlers[g]) {
      assert HandlerOk(w, w.handlers[g]);
    }
  }

  lemma HolderKeeps(w: World, h: nat, env: Env)
    requires Safe(w) && h < |w.handlers| && (w.handlers[h].at.Won? || w.handlers[h].at.Ran?)
    ensures Safe(Step(w, h, env))
  {
    OthersIdle(w, h);
    assert HandlerOk(w, w.handlers[h]);
    var v := Step(w, h, env);
    GotoHolds(w, h, v.handlers[h].at);
    assert Warrants(v.needs, v.issued, v.handlers[h].request);
    forall g | 0 <= g < |v.handlers| ensures HandlerOk(v, v.handlers[g]) {
      assert HandlerOk(w, w.handlers[g]);
    }
  }

  /** An access that neither claims nor belongs to the holder runs nothing and at most closes a pending action. */
  lemma OtherShape(w: World, h: nat, env: Env)
    requires h < |w.handlers| && Consented(w, w.handlers[h]) && w.code.hash in w.issued
    requires !w.handlers[h].at.Claiming? && !w.handlers[h].at.Won? && !w.handlers[h].at.Ran?
    ensures
      var v := Step(w, h, env);
      && |v.handlers| == |w.handlers| && v.handlers == Goto(w, h, v.handlers[h].at).handlers
      && v.effects == w.effects && v.needs == w.needs && Consented(v, v.handlers[h])
      && w.issued <= v.issued && v.code.hash in v.issued
      && !v.handlers[h].at.Won? && !v.handlers[h].at.Ran?
      && (v.status == w.status || (w.status.Pending? && (v.status.Cancelled? || v.status.Expired? || v.status.Locked?)))
  {
  }

  lemma OtherKeeps(w: World, h: nat, env: Env)
    requires Safe(w) && h < |w.handlers|
    requires !w.handlers[h].at.Claiming? && !w.handlers[h].at.Won? && !w.handlers[h].at.Ran?
    ensures Safe(Step(w, h, env))
  {
    assert HandlerOk(w, w.handlers[h]);
    OtherShape(w, h, env);
    hide Step;
    var v := Step(w, h, env);
    GotoHolds(w, h, v.handlers[h].at);
    ConsentLasts(w, v);
    forall g | 0 <= g < |v.handlers| ensures HandlerOk(v, v.handlers[g]) {
      assert HandlerOk(w, w.handlers[g]);
    }
  }

  lemma StepKeepsSafe(w: World, h: nat, env: Env)
    requires Safe(w)
    ensures Safe(Step(w, h, env))
  {
    if h < |w.handlers| {
      if w.handlers[h].at.Claiming? {
        ClaimKeeps(w, h, env);
      } else if w.handlers[h].at.Won? || w.handlers[h].at.Ran? {
        HolderKeeps(w, h, env);
      } else {
        OtherKeeps(w, h, env);
      }
    }
  }

  lemma {:induction false} NoHolders(handlers: seq<Handler>)
    requires forall h :: 0 <= h < |handlers| ==> handlers[h].at.Start?
    ensures SumBy(handlers, Holds()) == 0
  {
    if handlers != [] {
      NoHolders(handlers[..|handlers| - 1]);
    }
  }

  lemma {:induction false} RunKeepsSafe(w: World, schedule: seq<Move>)
    requires Safe(w)
    ensures Safe(Run(w, schedule))
  {
    if schedule != [] {
      var n := |schedule| - 1;
      RunKeepsSafe(w, schedule[..n]);
      StepKeepsSafe(Run(w, schedule[..n]), schedule[n].h, schedule[n].env);
    }
  }

  /**
   Under every interleaving of any requests on one pending action, the change runs at most once; it ran if the
   action ends done, and it did not run if the action ends cancelled, expired or locked.
   */
  lemma ChangeRunsAtMostOnce(w: World, schedule: seq<Move>)
    requires Proposed(w)
    ensures
      var v := Run(w, schedule);
      && v.effects <= 1
      && (v.status.Done? ==> v.effects == 1)
      && (v.status.Pending? || v.status.Cancelled? || v.status.Expired? || v.status.Locked? ==> v.effects == 0)
  {
    NoHolders(w.handlers);
    RunKeepsSafe(w, schedule);
  }

  /**
   If the change ran, somebody consented to it: a change that needs the security code ran only if some request
   entered a code that had been sent for it, any other only if some request approved it.
   */
  lemma OnlyConsentedChangesRun(w: World, schedule: seq<Move>)
    requires Proposed(w)
    ensures Run(w, schedule).effects > 0 ==> SomeoneConsented(Run(w, schedule))
  {
    NoHolders(w.handlers);
    RunKeepsSafe(w, schedule);
  }

  /** The only ways a status changes: out of pending, and from running to a result. */
  predicate StatusMoves(a: Status, b: Status) {
    a == b || a.Pending? || (a.Running? && (b.Done? || b.Failed?))
  }

  lemma StepMovesStatus(w: World, h: nat, env: Env)
    requires Safe(w)
    ensures StatusMoves(w.status, Step(w, h, env).status)
  {
    if h < |w.handlers| && w.handlers[h].at.Ran? {
      OthersIdle(w, h);
      assert HandlerOk(w, w.handlers[h]);
    }
  }

  lemma {:induction false} RunMovesStatus(w: World, schedule: seq<Move>)
    requires Safe(w)
    ensures StatusMoves(w.status, Run(w, schedule).status)
  {
    if schedule != [] {
      var n := |schedule| - 1;
      RunMovesStatus(w, schedule[..n]);
      RunKeepsSafe(w, schedule[..n]);
      StepMovesStatus(Run(w, schedule[..n]), schedule[n].h, schedule[n].env);
    }
  }

  /** The status leaves pending at most once: it never returns there, and a final status stays. */
  lemma StatusLeavesPendingOnce(w: World, schedule: seq<Move>, more: seq<Move>)
    requires Proposed(w)
    ensures
      var a, b := Run(w, schedule).status, Run(Run(w, schedule), more).status;
      && (!a.Pending? ==> !b.Pending?)
      && (a.Done? || a.Failed? || a.Cancelled? || a.Expired? || a.Locked? ==> b == a)
      && (a.Running? ==> b.Running? || b.Done? || b.Failed?)
  {
    NoHolders(w.handlers);
    RunKeepsSafe(w, schedule);
    RunMovesStatus(Run(w, schedule), more);
  }
}
