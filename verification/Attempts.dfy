/**
 The limit on wrong security codes. The count is read, and written back one larger, in two accesses, so it is kept
 exactly as long as no code is compared while the count of an earlier comparison is still to be written.
 */
module Attempts {
  import opened Actions

  ghost predicate NoneUnwritten(w: World) {
    forall h :: 0 <= h < |w.handlers| ==> !w.handlers[h].at.WriteAttempts?
  }

  /** Whenever a request reads the stored code, every count is written. */
  ghost predicate CountsWritten(w: World, schedule: seq<Move>) {
    schedule == [] ||
    var n := |schedule| - 1;
    var v := Run(w, schedule[..n]);
    && CountsWritten(w, schedule[..n])
    && (schedule[n].h < |v.handlers| && v.handlers[schedule[n].h].at.ReadCode? ==> NoneUnwritten(v))
  }

  /** The count, or the one about to be written, is not behind the wrong codes compared. */
  ghost predicate Counted(w: World) {
    && w.examined <= MAX_ATTEMPTS
    && (NoneUnwritten(w) ==> w.examined <= w.code.attempts)
    && (forall h :: 0 <= h < |w.handlers| && w.handlers[h].at.WriteAttempts? ==> w.examined <= w.handlers[h].at.count)
    && (forall g, h :: 0 <= g < h < |w.handlers| ==>
          !(w.handlers[g].at.WriteAttempts? && w.handlers[h].at.WriteAttempts?))
  }

  /** What an access does to the attempts and to the points other requests are at. */
  lemma StepShape(w: World, h: nat, env: Env)
    requires h < |w.handlers|
    ensures
      var v, at := Step(w, h, env), w.handlers[h].at;
      && |v.handlers| == |w.handlers|
      && (forall g :: 0 <= g < |w.handlers| && g != h ==> v.handlers[g] == w.handlers[g])
      && (v.handlers[h].at.WriteAttempts? ==>
            at.ReadCode? && v.handlers[h].at.count == w.code.attempts + 1 && w.code.attempts < MAX_ATTEMPTS
            && v.examined == w.examined + 1 && v.code == w.code)
      && (at.WriteAttempts? ==> v.code.attempts == at.count && v.examined == w.examined)
      && (at.Sending? ==> v.code.attempts == 0 && v.examined == 0)
      && (!at.WriteAttempts? && !at.Sending? && !v.handlers[h].at.WriteAttempts? ==>
            v.code == w.code && v.examined == w.examined)
  {
  }

  lemma StepKeepsCounted(w: World, h: nat, env: Env)
    requires Counted(w) && (h < |w.handlers| && w.handlers[h].at.ReadCode? ==> NoneUnwritten(w))
    ensures Counted(Step(w, h, env))
  {
    if h < |w.handlers| {
      StepShape(w, h, env);
      hide Step;
      var v := Step(w, h, env);
      if NoneUnwritten(v) && !w.handlers[h].at.WriteAttempts? {
        forall g | 0 <= g < |w.handlers| ensures !w.handlers[g].at.WriteAttempts? {
          assert !v.handlers[g].at.WriteAttempts?;
        }
      }
    }
  }

  lemma {:induction false} RunKeepsCounted(w: World, schedule: seq<Move>)
    requires Counted(w) && CountsWritten(w, schedule)
    ensures Counted(Run(w, schedule))
  {
    if schedule != [] {
      var n := |schedule| - 1;
      RunKeepsCounted(w, schedule[..n]);
      StepKeepsCounted(Run(w, schedule[..n]), schedule[n].h, schedule[n].env);
    }
  }

  /** At most three wrong codes are compared with one stored code, if every count is written before the next reading. */
  lemma AttemptsBounded(w: World, schedule: seq<Move>)
    requires Proposed(w) && CountsWritten(w, schedule)
    ensures Run(w, schedule).examined <= 3
  {
    RunKeepsCounted(w, schedule);
  }

  /** Every access is made while all other requests are yet to begin or done. */
  ghost predicate OneAtATime(w: World, schedule: seq<Move>) {
    schedule == [] ||
    var n := |schedule| - 1;
    var v := Run(w, schedule[..n]);
    && OneAtATime(w, schedule[..n])
    && forall g :: 0 <= g < |v.handlers| && g != schedule[n].h ==> v.handlers[g].at.Start? || v.handlers[g].at.Finished?
  }

  lemma {:induction false} UninterruptedWrites(w: World, schedule: seq<Move>)
    requires OneAtATime(w, schedule)
    ensures CountsWritten(w, schedule)
  {
    if schedule != [] {
      UninterruptedWrites(w, schedule[..|schedule| - 1]);
    }
  }

  /** Requests that are served one after the other keep the limit. */
  lemma UninterruptedBounded(w: World, schedule: seq<Move>)
    requires Proposed(w) && OneAtATime(w, schedule)
    ensures Run(w, schedule).examined <= 3
  {
    UninterruptedWrites(w, schedule);
    AttemptsBounded(w, schedule);
  }

  // ----- When the limit can be passed -----

  /** One request served from beginning to end takes at most four accesses if its code is wrong. */
  function Turn(h: nat, env: Env): seq<Move> {
    [Move(h, env), Move(h, env), Move(h, env), Move(h, env)]
  }

  function Turns(hs: seq<nat>, env: Env): seq<Move> {
    if hs == [] then [] else Turns(hs[..|hs| - 1], env) + Turn(hs[|hs| - 1], env)
  }

  function Served(w: World, h: nat, env: Env): World {
    Step(Step(Step(Step(w, h, env), h, env), h, env), h, env)
  }

  lemma RunOneMore(w: World, schedule: seq<Move>, m: Move)
    ensures Run(w, schedule + [m]) == Step(Run(w, schedule), m.h, m.env)
  {
    assert (schedule + [m])[..|schedule|] == schedule;
  }

  lemma RunTurn(w: World, schedule: seq<Move>, h: nat, env: Env)
    ensures Run(w, schedule + Turn(h, env)) == Served(Run(w, schedule), h, env)
  {
    hide Step, Run;
    var m := Move(h, env);
    RunOneMore(w, schedule, m);
    RunOneMore(w, schedule + [m], m);
    RunOneMore(w, schedule + [m] + [m], m);
    RunOneMore(w, schedule + [m] + [m] + [m], m);
    assert schedule + Turn(h, env) == schedule + [m] + [m] + [m] + [m];
  }

  /** A request that is yet to begin and will enter a wrong code. */
  ghost predicate FreshWrong(w: World, h: nat) {
    && h < |w.handlers| && w.handlers[h].at.Start?
    && w.handlers[h].request.Verify? && w.handlers[h].request.entered != w.code.hash
  }

  ghost predicate InTime(w: World, env: Env) {
    w.needs.NeedsCode? && env.now <= w.code.expiresAt && env.now - w.createdAt <= LIFETIME
  }

  /** The same pending action and code after some wrong codes, or the action locked by them. */
  ghost predicate OnlyTried(w: World, v: World, tries: nat) {
    && w.code.attempts + tries <= MAX_ATTEMPTS
    && v.code == w.code.(attempts := w.code.attempts + tries) && v.examined == w.examined + tries
    && v.needs == w.needs && v.createdAt == w.createdAt && |v.handlers| == |w.handlers|
    && (v.status.Pending? || (v.status.Locked? && v.code.attempts == MAX_ATTEMPTS))
  }

  lemma ServedWrong(w: World, h: nat, env: Env)
    requires FreshWrong(w, h) && InTime(w, env) && w.code.attempts <= MAX_ATTEMPTS
    requires w.status.Pending? || (w.status.Locked? && w.code.attempts == MAX_ATTEMPTS)
    ensures
      var v := Served(w, h, env);
      && OnlyTried(w, v, if w.code.attempts < MAX_ATTEMPTS then 1 else 0)
      && forall g :: 0 <= g < |w.handlers| && g != h ==> v.handlers[g] == w.handlers[g]
  {
    var first := Step(w, h, env);
    if w.status.Locked? {
      assert Step(first, h, env) == first;
    } else {
      assert first == Goto(w, h, ReadCode);
      var second := Step(first, h, env);
      if w.code.attempts < MAX_ATTEMPTS {
        assert second.handlers == Goto(w, h, WriteAttempts(w.code.attempts + 1)).handlers;
      } else {
        assert second.handlers == Goto(w, h, Finished).handlers;
        assert Step(second, h, env) == second;
      }
    }
  }

  ghost predicate Distinct(hs: seq<nat>) {
    forall i, j :: 0 <= i < j < |hs| ==> hs[i] != hs[j]
  }

  function Left(w: World): nat
    requires w.code.attempts <= MAX_ATTEMPTS
  {
    MAX_ATTEMPTS - w.code.attempts
  }

  function Fewer(a: nat, b: nat): nat { if a <= b then a else b }

  /** Wrong codes entered one after the other are compared until the stored count reaches the limit. */
  lemma {:induction false} TurnsCounted(w: World, hs: seq<nat>, env: Env)
    requires w.status.Pending? && InTime(w, env) && w.code.attempts <= MAX_ATTEMPTS
    requires Distinct(hs) && forall h :: h in hs ==> FreshWrong(w, h)
    ensures
      var v := Run(w, Turns(hs, env));
      && OnlyTried(w, v, Fewer(|hs|, Left(w)))
      && forall g :: 0 <= g < |w.handlers| && g !in hs ==> v.handlers[g] == w.handlers[g]
  {
    if hs != [] {
      var n := |hs| - 1;
      TurnsCounted(w, hs[..n], env);
      RunTurn(w, Turns(hs[..n], env), hs[n], env);
      OneMoreTurn(w, Run(w, Turns(hs[..n], env)), hs, env);
    }
  }

  lemma OneMoreTurn(w: World, v: World, hs: seq<nat>, env: Env)
    requires w.status.Pending? && InTime(w, env) && w.code.attempts <= MAX_ATTEMPTS
    requires hs != [] && Distinct(hs) && FreshWrong(w, hs[|hs| - 1])
    requires OnlyTried(w, v, Fewer(|hs| - 1, Left(w)))
    requires forall g :: 0 <= g < |w.handlers| && g !in hs[..|hs| - 1] ==> v.handlers[g] == w.handlers[g]
    ensures
      var u := Served(v, hs[|hs| - 1], env);
      && OnlyTried(w, u, Fewer(|hs|, Left(w)))
      && forall g :: 0 <= g < |w.handlers| && g !in hs ==> u.handlers[g] == w.handlers[g]
  {
    var n := |hs| - 1;
    assert hs[n] !in hs[..n];
    assert v.handlers[hs[n]] == w.handlers[hs[n]];
    ServedWrong(v, hs[n], env);
    hide Served;
    forall g | 0 <= g < |w.handlers| && g !in hs ensures g != hs[n] && g !in hs[..n] {
      assert hs[n] in hs;
    }
  }

  /**
   From any state of a pending action whose code is still good, three more wrong codes entered one after the other
   pass the limit if and only if the stored count is behind the codes already compared.
   */
  lemma LimitPassedExactly(w: World, hs: seq<nat>, env: Env)
    requires w.status.Pending? && InTime(w, env) && 0 <= w.code.attempts <= MAX_ATTEMPTS
    requires |hs| >= MAX_ATTEMPTS && Distinct(hs) && forall h :: h in hs ==> FreshWrong(w, h)
    ensures Run(w, Turns(hs, env)).examined > 3 <==> w.code.attempts < w.examined
  {
    TurnsCounted(w, hs, env);
  }

  // ----- The failing schedule -----

  const NOW := Env(0, true, true, true, "")
  const GUESS := Handler(Verify("wrong"), Start)

  /** A new action with five wrong guesses about to be handled. */
  const FIVE_GUESSES :=
    World(NeedsCode, 0, Pending, Code("right", CODE_LIFETIME, 0, 0), {"right"}, 0, 0, [GUESS, GUESS, GUESS, GUESS, GUESS])

  /** Two requests read the count before either writes it. */
  const RACE: seq<Move> :=
    [Move(0, NOW), Move(1, NOW), Move(0, NOW), Move(1, NOW), Move(0, NOW), Move(1, NOW)]

  const READING := GUESS.(at := ReadCode)
  const WRITING := GUESS.(at := WriteAttempts(1))
  const DONE := GUESS.(at := Finished)

  function Guessing(first: Handler, second: Handler, attempts: int, examined: nat): World {
    FIVE_GUESSES.(code := FIVE_GUESSES.code.(attempts := attempts), examined := examined,
                  handlers := [first, second, GUESS, GUESS, GUESS])
  }

  lemma RaceSteps()
    ensures Step(Guessing(GUESS, GUESS, 0, 0), 0, NOW) == Guessing(READING, GUESS, 0, 0)
    ensures Step(Guessing(READING, GUESS, 0, 0), 1, NOW) == Guessing(READING, READING, 0, 0)
    ensures Step(Guessing(READING, READING, 0, 0), 0, NOW) == Guessing(WRITING, READING, 0, 1)
    ensures Step(Guessing(WRITING, READING, 0, 1), 1, NOW) == Guessing(WRITING, WRITING, 0, 2)
    ensures Step(Guessing(WRITING, WRITING, 0, 2), 0, NOW) == Guessing(DONE, WRITING, 1, 2)
    ensures Step(Guessing(DONE, WRITING, 1, 2), 1, NOW) == Guessing(DONE, DONE, 1, 2)
  {
  }

  lemma RunTwoMore(w: World, schedule: seq<Move>, m: Move, n: Move)
    ensures Run(w, schedule + [m, n]) == Step(Step(Run(w, schedule), m.h, m.env), n.h, n.env)
  {
    hide Step, Run;
    RunOneMore(w, schedule, m);
    RunOneMore(w, schedule + [m], n);
    assert schedule + [m] + [n] == schedule + [m, n];
  }

  lemma AfterRace()
    ensures Run(FIVE_GUESSES, RACE) == Guessing(DONE, DONE, 1, 2)
  {
    RaceSteps();
    hide Step;
    var w, round := FIVE_GUESSES, [Move(0, NOW), Move(1, NOW)];
    assert Run(w, []) == Guessing(GUESS, GUESS, 0, 0);
    hide Run;
    RunTwoMore(w, [], round[0], round[1]);
    RunTwoMore(w, round, round[0], round[1]);
    RunTwoMore(w, round + round, round[0], round[1]);
    assert [] + round == round;
    assert RACE == round + round + round;
  }

  lemma {:induction false} RunAppend(w: World, a: seq<Move>, b: seq<Move>)
    ensures Run(w, a + b) == Run(Run(w, a), b)
  {
    if b == [] {
      assert a + b == a;
    } else {
      var n := |b| - 1;
      assert (a + b)[..|a + b| - 1] == a + b[..n];
      RunAppend(w, a, b[..n]);
    }
  }

  /** With two readings before the first writing, a fourth wrong code is compared with the same stored code. */
  lemma StaleCountPassesLimit()
    ensures Proposed(FIVE_GUESSES) && Run(FIVE_GUESSES, RACE + Turns([2, 3, 4], NOW)).examined > 3
  {
    AfterRace();
    RunAppend(FIVE_GUESSES, RACE, Turns([2, 3, 4], NOW));
    hide Run, Turns;
    LimitPassedExactly(Guessing(DONE, DONE, 1, 2), [2, 3, 4], NOW);
  }
}
