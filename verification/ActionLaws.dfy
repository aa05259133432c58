/**
 What a request must have met for its change to run, told from the schedule itself with every time limit written
 out, and what a request that is served alone comes to.
 */
module ActionLaws {
  import opened Actions

  // ----- What stands behind a change that ran -----

  /** The world as it was when access n of the schedule was made. */
  ghost function Before(w: World, schedule: seq<Move>, n: nat): World
    requires n < |schedule|
  {
    Run(w, schedule[..n])
  }

  /** Access n: request h read the stored code, its own code was the right one, in time, with fewer than three wrong before. */
  ghost predicate RightCodeRead(w: World, schedule: seq<Move>, n: nat, h: nat) {
    && n < |schedule| && schedule[n].h == h && h < |Before(w, schedule, n).handlers|
    && var v, now := Before(w, schedule, n), schedule[n].env.now;
      && v.handlers[h].at.ReadCode? && v.handlers[h].request == Verify(v.code.hash)
      && now <= v.code.expiresAt && now - w.createdAt <= 1_800 && v.code.attempts < 3
  }

  /** Access n: request h approved the change in time, while changes were switched on. */
  ghost predicate ApprovedInTime(w: World, schedule: seq<Move>, n: nat, h: nat) {
    && n < |schedule| && schedule[n].h == h && h < |Before(w, schedule, n).handlers|
    && var v := Before(w, schedule, n);
      && v.handlers[h].at.Start? && v.handlers[h].request.Approve?
      && schedule[n].env.now - w.createdAt <= 1_800 && schedule[n].env.changesOn
  }

  /** Request h met what the change asks for. */
  ghost predicate Grounded(w: World, schedule: seq<Move>, h: nat) {
    if w.needs.NeedsCode? then exists n: nat :: RightCodeRead(w, schedule, n, h)
    else exists n: nat :: ApprovedInTime(w, schedule, n, h)
  }

  /** Access n ran the change: its request had claimed the action, and the account was still there. */
  ghost predicate RanOnAccount(w: World, schedule: seq<Move>, n: nat) {
    && n < |schedule| && schedule[n].h < |Before(w, schedule, n).handlers|
    && Before(w, schedule, n).handlers[schedule[n].h].at.Won? && schedule[n].env.accountFound
  }

  lemma BeforeGrows(w: World, schedule: seq<Move>, m: Move, n: nat)
    requires n < |schedule|
    ensures n < |schedule + [m]| && (schedule + [m])[n] == schedule[n]
    ensures Before(w, schedule + [m], n) == Before(w, schedule, n)
  {
    assert (schedule + [m])[..n] == schedule[..n];
  }

  lemma GroundedGrows(w: World, schedule: seq<Move>, m: Move, h: nat)
    requires Grounded(w, schedule, h)
    ensures Grounded(w, schedule + [m], h)
  {
    if w.needs.NeedsCode? {
      var n: nat :| RightCodeRead(w, schedule, n, h);
      BeforeGrows(w, schedule, m, n);
      hide Before;
      assert RightCodeRead(w, schedule + [m], n, h);
    } else {
      var n: nat :| ApprovedInTime(w, schedule, n, h);
      BeforeGrows(w, schedule, m, n);
      hide Before;
      assert ApprovedInTime(w, schedule + [m], n, h);
    }
  }

  predicate PastChecks(at: Point) { at.Claiming? || at.Won? || at.Ran? }

  /** Every request past its checks is grounded, and so was one behind the change if it ran. */
  ghost predicate AllGrounded(w: World, schedule: seq<Move>) {
    var v := Run(w, schedule);
    && v.needs == w.needs && v.createdAt == w.createdAt
    && (forall h :: 0 <= h < |v.handlers| && PastChecks(v.handlers[h].at) ==> Grounded(w, schedule, h))
    && (v.effects > 0 ==> exists h: nat :: Grounded(w, schedule, h))
    && (v.effects > 0 ==> exists n: nat :: RanOnAccount(w, schedule, n))
  }

  /** How an access moves its own request past the checks, or runs the change. */
  lemma AccessShape(v: World, m: Move)
    requires m.h < |v.handlers|
    ensures
      var u, at := Step(v, m.h, m.env), v.handlers[m.h].at;
      && |u.handlers| == |v.handlers| && u.needs == v.needs && u.createdAt == v.createdAt
      && (forall g :: 0 <= g < |v.handlers| && g != m.h ==> u.handlers[g] == v.handlers[g])
      && (PastChecks(u.handlers[m.h].at) && !PastChecks(at) ==>
            || (at.ReadCode? && v.handlers[m.h].request == Verify(v.code.hash) && m.env.now <= v.code.expiresAt
                && m.env.now - v.createdAt <= 1_800 && v.code.attempts < 3)
            || (at.Start? && v.handlers[m.h].request.Approve? && v.needs.NeedsApproval?
                && m.env.now - v.createdAt <= 1_800 && m.env.changesOn))
      && (u.effects != v.effects ==> at.Won? && m.env.accountFound && u.effects == v.effects + 1)
  {
  }

  lemma {:induction false} RunGrounded(w: World, schedule: seq<Move>)
    requires Proposed(w)
    ensures AllGrounded(w, schedule)
  {
    if schedule != [] {
      var n := |schedule| - 1;
      var front, m := schedule[..n], schedule[n];
      assert schedule == front + [m];
      RunGrounded(w, front);
      NoHolders(w.handlers);
      RunKeepsSafe(w, front);
      AccessGrounded(w, front, m);
    }
  }

  lemma AccessGrounded(w: World, front: seq<Move>, m: Move)
    requires AllGrounded(w, front) && Safe(Run(w, front))
    ensures AllGrounded(w, front + [m])
  {
    var schedule, n, v := front + [m], |front|, Run(w, front);
    assert schedule[..n] == front;
    assert Run(w, schedule) == Step(v, m.h, m.env);
    assert Before(w, schedule, n) == v && schedule[n] == m;
    if m.h < |v.handlers| {
      AccessShape(v, m);
      assert HandlerOk(v, v.handlers[m.h]);
      hide Run, Step, Safe;
      NewlyGrounded(w, front, m);
    }
    hide Run, Step, Safe, Before;
    KeptGrounded(w, front, m);
  }

  /** Whoever this access brings past the checks is grounded by it. */
  lemma NewlyGrounded(w: World, front: seq<Move>, m: Move)
    requires AllGrounded(w, front) && m.h < |Run(w, front).handlers|
    requires Before(w, front + [m], |front|) == Run(w, front) && HandlerOk(Run(w, front), Run(w, front).handlers[m.h])
    ensures
      var v := Run(w, front);
      && (PastChecks(Step(v, m.h, m.env).handlers[m.h].at) && !PastChecks(v.handlers[m.h].at) ==>
            Grounded(w, front + [m], m.h))
      && (v.handlers[m.h].at.Won? && m.env.accountFound ==> RanOnAccount(w, front + [m], |front|))
  {
    var v, n := Run(w, front), |front|;
    AccessShape(v, m);
    hide Run, Step, Before;
    if PastChecks(Step(v, m.h, m.env).handlers[m.h].at) && !PastChecks(v.handlers[m.h].at) {
      if v.handlers[m.h].at.ReadCode? {
        assert RightCodeRead(w, front + [m], n, m.h);
      } else {
        assert ApprovedInTime(w, front + [m], n, m.h);
      }
    }
  }

  /** Whoever was grounded stays so, and a change that ran stays run. */
  lemma KeptGrounded(w: World, front: seq<Move>, m: Move)
    requires AllGrounded(w, front)
    ensures forall h :: 0 <= h < |Run(w, front).handlers| && PastChecks(Run(w, front).handlers[h].at) ==>
      Grounded(w, front + [m], h)
    ensures Run(w, front).effects > 0 ==> exists h: nat :: Grounded(w, front + [m], h)
    ensures Run(w, front).effects > 0 ==> exists n: nat :: RanOnAccount(w, front + [m], n)
  {
    var v := Run(w, front);
    forall h | 0 <= h < |v.handlers| && PastChecks(v.handlers[h].at) ensures Grounded(w, front + [m], h) {
      GroundedGrows(w, front, m, h);
    }
    if v.effects > 0 {
      var h: nat :| Grounded(w, front, h);
      GroundedGrows(w, front, m, h);
      var n: nat :| RanOnAccount(w, front, n);
      BeforeGrows(w, front, m, n);
      hide Before;
      assert RanOnAccount(w, front + [m], n);
    }
  }

  /**
   On every schedule: if the change of an action that needs the security code ran, some request read the stored code
   with that very code, before it expired, within half an hour of the proposal and after fewer than three wrong ones.
   */
  lemma OnlyRightCodesRun(w: World, schedule: seq<Move>)
    requires Proposed(w) && w.needs.NeedsCode?
    ensures Run(w, schedule).effects > 0 ==>
      exists n: nat ::
        && n < |schedule| && schedule[n].h < |Run(w, schedule[..n]).handlers|
        && var v, m := Run(w, schedule[..n]), schedule[n];
          && v.handlers[m.h].at.ReadCode? && v.handlers[m.h].request == Verify(v.code.hash)
          && m.env.now <= v.code.expiresAt && m.env.now - w.createdAt <= 1_800 && v.code.attempts < 3
  {
    RunGrounded(w, schedule);
    if Run(w, schedule).effects > 0 {
      var h: nat :| Grounded(w, schedule, h);
      var n: nat :| RightCodeRead(w, schedule, n, h);
      var v, m := Run(w, schedule[..n]), schedule[n];
      hide Run;
      assert v.handlers[m.h].at.ReadCode?;
    }
  }

  /** If the change of an action that needs no code ran, some request approved it in time, while changes were on. */
  lemma OnlyTimelyApprovalsRun(w: World, schedule: seq<Move>)
    requires Proposed(w) && w.needs.NeedsApproval?
    ensures Run(w, schedule).effects > 0 ==>
      exists n: nat ::
        && n < |schedule| && schedule[n].h < |Run(w, schedule[..n]).handlers|
        && var v, m := Run(w, schedule[..n]), schedule[n];
          && v.handlers[m.h].at.Start? && v.handlers[m.h].request.Approve?
          && m.env.now - w.createdAt <= 1_800 && m.env.changesOn
  {
    RunGrounded(w, schedule);
    if Run(w, schedule).effects > 0 {
      var h: nat :| Grounded(w, schedule, h);
      var n: nat :| ApprovedInTime(w, schedule, n, h);
      var v, m := Run(w, schedule[..n]), schedule[n];
      hide Run;
      assert v.handlers[m.h].at.Start?;
    }
  }

  /** And it ran on an account that was still there. */
  lemma OnlyOnAccounts(w: World, schedule: seq<Move>)
    requires Proposed(w)
    ensures Run(w, schedule).effects > 0 ==> exists n: nat :: RanOnAccount(w, schedule, n)
  {
    RunGrounded(w, schedule);
  }

  // ----- A request served alone -----

  function Alone(h: nat, env: Env): seq<Move> {
    [Move(h, env), Move(h, env), Move(h, env), Move(h, env), Move(h, env)]
  }

  lemma {:induction false} RunSame(w: World, h: nat, env: Env)
    ensures
      Run(w, Alone(h, env)) == Step(Step(Step(Step(Step(w, h, env), h, env), h, env), h, env), h, env)
  {
    hide Step;
    var m := Move(h, env);
    var s := Alone(h, env);
    assert s[..4] == [m, m, m, m] && s[..4][..3] == [m, m, m];
    assert s[..4][..3][..2] == [m, m] && s[..4][..3][..2][..1] == [m] && [m][..0] == [];
    assert Run(w, []) == w;
    assert Run(w, [m]) == Step(w, h, env);
    assert Run(w, [m, m]) == Step(Step(w, h, env), h, env);
    assert Run(w, [m, m, m]) == Step(Step(Step(w, h, env), h, env), h, env);
    assert Run(w, [m, m, m, m]) == Step(Step(Step(Step(w, h, env), h, env), h, env), h, env);
  }

  ghost predicate Fresh(w: World, h: nat, request: Request) {
    h < |w.handlers| && w.handlers[h].at.Start? && w.handlers[h].request == request
  }

  /** The code is still good at this time, and fewer than three wrong ones were entered. */
  ghost predicate Good(w: World, now: int) {
    now <= w.code.expiresAt && now - w.createdAt <= 1_800 && w.code.attempts < 3
  }

  /** The right code in time runs the change, and the action ends done, or failed if the change failed. */
  lemma RightCodeRuns(w: World, h: nat, env: Env)
    requires w.needs.NeedsCode? && w.status.Pending? && Fresh(w, h, Verify(w.code.hash)) && Good(w, env.now)
    ensures
      var v := Run(w, Alone(h, env));
      if env.accountFound then v.effects == w.effects + 1 && v.status == (if env.succeeds then Done else Failed)
      else v.effects == w.effects && v.status.Failed?
  {
    RunSame(w, h, env);
    assert Step(w, h, env) == Goto(w, h, ReadCode);
    assert Step(Goto(w, h, ReadCode), h, env).handlers[h].at.Claiming?;
  }

  /** An approval in time, with changes switched on, does the same. */
  lemma ApprovalRuns(w: World, h: nat, env: Env)
    requires w.needs.NeedsApproval? && w.status.Pending? && Fresh(w, h, Approve)
    requires env.now - w.createdAt <= 1_800 && env.changesOn
    ensures
      var v := Run(w, Alone(h, env));
      if env.accountFound then v.effects == w.effects + 1 && v.status == (if env.succeeds then Done else Failed)
      else v.effects == w.effects && v.status.Failed?
  {
    RunSame(w, h, env);
    assert Step(w, h, env).handlers[h].at.Claiming?;
  }

  /** Too late, even the right code expires the action and runs nothing; so does an approval that comes too late. */
  lemma LateExpires(w: World, h: nat, env: Env)
    requires w.status.Pending? && h < |w.handlers| && w.handlers[h].at.Start?
    requires
      || (w.needs.NeedsCode? && w.handlers[h].request.Verify? && (env.now > w.code.expiresAt || env.now - w.createdAt > 1_800))
      || (w.needs.NeedsApproval? && w.handlers[h].request.Approve? && env.now - w.createdAt > 1_800)
    ensures
      var v := Run(w, Alone(h, env));
      v.status.Expired? && v.effects == w.effects
  {
    RunSame(w, h, env);
    if w.needs.NeedsCode? {
      assert Step(w, h, env) == Goto(w, h, ReadCode);
      assert Step(Goto(w, h, ReadCode), h, env).handlers[h].at.Expiring?;
    } else {
      assert Step(w, h, env).handlers[h].at.Expiring?;
    }
  }

  /** A wrong code in time is counted and runs nothing, and the third one locks the action. */
  lemma WrongCodeCounts(w: World, h: nat, env: Env, entered: string)
    requires w.needs.NeedsCode? && w.status.Pending? && Fresh(w, h, Verify(entered)) && entered != w.code.hash
    requires Good(w, env.now)
    ensures
      var v := Run(w, Alone(h, env));
      && v.code == w.code.(attempts := w.code.attempts + 1) && v.effects == w.effects
      && v.status == (if w.code.attempts + 1 >= 3 then Locked else Pending)
  {
    RunSame(w, h, env);
    assert Step(w, h, env) == Goto(w, h, ReadCode);
    assert Step(Goto(w, h, ReadCode), h, env).handlers[h].at == WriteAttempts(w.code.attempts + 1);
  }

  /** Cancelling a pending action ends it; a new code may be asked for half a minute after the last, and lasts five minutes. */
  lemma CancelEnds(w: World, h: nat, env: Env)
    requires w.status.Pending? && Fresh(w, h, Cancel)
    ensures var v := Run(w, Alone(h, env)); v.status.Cancelled? && v.effects == w.effects
  {
    RunSame(w, h, env);
    assert Step(w, h, env).handlers[h].at.Cancelling?;
  }

  lemma ResendRenews(w: World, h: nat, env: Env)
    requires w.needs.NeedsCode? && w.status.Pending? && Fresh(w, h, Resend)
    ensures
      var v := Run(w, Alone(h, env));
      && v.status.Pending? && v.effects == w.effects
      && v.code == if env.now - w.code.lastSentAt >= 30 then Code(env.newHash, env.now + 300, 0, env.now) else w.code
  {
    RunSame(w, h, env);
    assert Step(w, h, env).handlers[h].at.ReadSent?;
  }

  /** A request that comes when the action is no longer pending runs nothing and leaves its status alone. */
  lemma NotPendingNothing(w: World, h: nat, env: Env)
    requires !w.status.Pending? && h < |w.handlers| && w.handlers[h].at.Start?
    ensures var v := Run(w, Alone(h, env)); v.status == w.status && v.effects == w.effects
  {
    RunSame(w, h, env);
    var v := Step(w, h, env);
    assert v.status == w.status && v.effects == w.effects;
    assert v.handlers[h].at.Finished? || v.handlers[h].at.Claiming? || v.handlers[h].at.Expiring? || v.handlers[h].at.Cancelling?;
    assert Step(v, h, env).handlers[h].at.Finished?;
  }
}
