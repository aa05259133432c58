/** Payment reminders: only the most advanced configured day is ever sent, and each day at most once. */
module Reminders {
  import opened Common
  import opened Sums

  /** The latest day of the schedule that has come, if any has. */
  function DueReminder(days: int, schedule: seq<int>): (r: Option<int>)
    ensures r.Some? ==> r.value in schedule && r.value <= days
    ensures r.Some? ==> forall o :: o in schedule && o <= days ==> o <= r.value
    ensures r.None? ==> forall o :: o in schedule ==> days < o
  {
    if schedule == [] then None
    else
      var n := |schedule| - 1;
      assert schedule == schedule[..n] + [schedule[n]];
      var r := DueReminder(days, schedule[..n]);
      if schedule[n] > days then r
      else if r.Some? && r.value >= schedule[n] then r
      else Some(schedule[n])
  }

  /** What one run of the daily job meets: the date, whether the invoice is open with a balance, whether sending works. */
  datatype Day = Day(today: int, owing: bool, delivers: bool)

  /** The reminders of one invoice after one run. */
  function AfterRun(sent: seq<int>, due: int, schedule: seq<int>, day: Day): seq<int> {
    var offset := DueReminder(day.today - due, schedule);
    if day.owing && offset.Some? && offset.value !in sent && day.delivers then sent + [offset.value] else sent
  }

  function AfterRuns(due: int, schedule: seq<int>, runs: seq<Day>): seq<int> {
    if runs == [] then [] else AfterRun(AfterRuns(due, schedule, runs[..|runs| - 1]), due, schedule, runs[|runs| - 1])
  }

  ghost predicate Rising(s: seq<int>) {
    forall i, j :: 0 <= i < j < |s| ==> s[i] < s[j]
  }

  ghost predicate InDateOrder(runs: seq<Day>) {
    forall i, j :: 0 <= i < j < |runs| ==> runs[i].today <= runs[j].today
  }

  ghost predicate FromSchedule(sent: seq<int>, schedule: seq<int>, days: int) {
    forall i :: 0 <= i < |sent| ==> sent[i] in schedule && sent[i] <= days
  }

  /** The day of a new reminder is later than the day of every earlier one. */
  lemma RunRises(sent: seq<int>, due: int, schedule: seq<int>, day: Day)
    requires Rising(sent) && FromSchedule(sent, schedule, day.today - due)
    ensures
      var after := AfterRun(sent, due, schedule, day);
      Rising(after) && FromSchedule(after, schedule, day.today - due)
  {
    var offset := DueReminder(day.today - due, schedule);
    if offset.Some? && offset.value !in sent {
      forall i | 0 <= i < |sent| ensures sent[i] < offset.value {
        assert sent[i] in sent;
      }
    }
  }

  lemma {:induction false} RunsRise(due: int, schedule: seq<int>, runs: seq<Day>, until: int)
    requires InDateOrder(runs) && (runs != [] ==> runs[|runs| - 1].today <= until)
    ensures
      var sent := AfterRuns(due, schedule, runs);
      Rising(sent) && FromSchedule(sent, schedule, until - due)
  {
    if runs != [] {
      var n := |runs| - 1;
      RunsRise(due, schedule, runs[..n], runs[n].today);
      RunRises(AfterRuns(due, schedule, runs[..n]), due, schedule, runs[n]);
    }
  }

  lemma {:induction false} ElementsOfRising(s: seq<int>)
    requires Rising(s)
    ensures |set x | x in s| == |s|
  {
    if s != [] {
      var n := |s| - 1;
      assert s == s[..n] + [s[n]];
      ElementsOfRising(s[..n]);
      assert s[n] !in s[..n];
      assert (set x | x in s) == (set x | x in s[..n]) + {s[n]};
    } else {
      assert (set x | x in s) == {};
    }
  }

  lemma {:induction false} ElementsAtMost(s: seq<int>)
    ensures |set x | x in s| <= |s|
  {
    if s != [] {
      var n := |s| - 1;
      assert s == s[..n] + [s[n]];
      ElementsAtMost(s[..n]);
      assert (set x | x in s) == (set x | x in s[..n]) + {s[n]};
    } else {
      assert (set x | x in s) == {};
    }
  }

  lemma SubsetSize(a: set<int>, b: set<int>)
    requires a <= b
    ensures |a| <= |b|
  {
    assert b == a + (b - a);
  }

  /**
   With a fixed schedule and runs in date order, the days reminded of rise strictly: none is repeated, a day
   that was passed over is never sent later, and there are at most as many reminders as days in the schedule.
   */
  lemma RemindersRise(due: int, schedule: seq<int>, runs: seq<Day>)
    requires InDateOrder(runs)
    ensures
      var sent := AfterRuns(due, schedule, runs);
      Rising(sent) && (forall o :: o in sent ==> o in schedule) && |sent| <= |schedule|
  {
    RunsRise(due, schedule, runs, if runs == [] then 0 else runs[|runs| - 1].today);
    var sent := AfterRuns(due, schedule, runs);
    ElementsOfRising(sent);
    ElementsAtMost(schedule);
    SubsetSize(set x | x in sent, set x | x in schedule);
  }

  ghost predicate NoRepeats(s: seq<int>) {
    forall i, j :: 0 <= i < j < |s| ==> s[i] != s[j]
  }

  /** Day o of the schedule is the one to remind of today: it has come, and no later one has. */
  ghost predicate LatestDue(o: int, due: int, schedule: seq<int>, today: int) {
    o in schedule && o <= today - due && forall p :: p in schedule && p <= today - due ==> p <= o
  }

  /**
   A run sends a reminder of a day if and only if that is the day to remind of, it was not sent before, the invoice is
   open with a balance, and sending works. Nothing sent before is lost.
   */
  lemma SentExactly(sent: seq<int>, due: int, schedule: seq<int>, day: Day, o: int)
    ensures
      var after := AfterRun(sent, due, schedule, day);
      && (after == sent + [o] <==>
            LatestDue(o, due, schedule, day.today) && o !in sent && day.owing && day.delivers)
      && (after == sent || exists p :: p in schedule && after == sent + [p])
  {
    var offset := DueReminder(day.today - due, schedule);
    if offset.Some? && AfterRun(sent, due, schedule, day) == sent + [o] {
      assert (sent + [offset.value])[|sent|] == offset.value && (sent + [o])[|sent|] == o;
    }
  }

  /** Even if the clock goes back between runs, no day is ever sent twice. */
  lemma {:induction false} NeverTwice(due: int, schedule: seq<int>, runs: seq<Day>)
    ensures NoRepeats(AfterRuns(due, schedule, runs))
  {
    if runs != [] {
      var front, run := runs[..|runs| - 1], runs[|runs| - 1];
      NeverTwice(due, schedule, front);
      RunNeverRepeats(AfterRuns(due, schedule, front), due, schedule, run);
    }
  }

  lemma RunNeverRepeats(sent: seq<int>, due: int, schedule: seq<int>, run: Day)
    requires NoRepeats(sent)
    ensures NoRepeats(AfterRun(sent, due, schedule, run))
  {
  }

  // ----- The daily job -----

  datatype Account = Account(due: Option<int>, open: bool, balance: int)

  function Owing(a: Account): bool { a.open && a.due.Some? && a.balance > 0 }

  function AfterJob(a: Account, sent: seq<int>, schedule: seq<int>, today: int, delivers: bool): seq<int> {
    if a.due.None? then sent else AfterRun(sent, a.due.value, schedule, Day(today, Owing(a), delivers))
  }

  /** In the job, an invoice gets the reminder of day o exactly when it is open, owes something and is due for it. */
  lemma JobSendsExactly(a: Account, sent: seq<int>, schedule: seq<int>, today: int, delivers: bool, o: int)
    ensures
      AfterJob(a, sent, schedule, today, delivers) == sent + [o] <==>
        && a.open && a.due.Some? && a.balance > 0 && delivers
        && LatestDue(o, a.due.value, schedule, today) && o !in sent
  {
    if a.due.Some? {
      SentExactly(sent, a.due.value, schedule, Day(today, Owing(a), delivers), o);
      hide AfterRun;
    }
  }

  /** The invoice is due a reminder that it already had. */
  predicate AlreadyReminded(a: Account, sent: seq<int>, schedule: seq<int>, today: int) {
    Owing(a) && var offset := DueReminder(today - a.due.value, schedule); offset.Some? && offset.value in sent
  }

  function Skips(schedule: seq<int>, today: int): ((Account, seq<int>)) -> int {
    (row: (Account, seq<int>)) => if AlreadyReminded(row.0, row.1, schedule, today) then 1 else 0
  }

  /** One invoice of the job: whether a reminder went out, and whether it was skipped because it already had. */
  method Remind(a: Account, sent: seq<int>, schedule: seq<int>, today: int, delivers: bool)
    returns (after: seq<int>, goes: bool, skips: bool)
    ensures after == AfterJob(a, sent, schedule, today, delivers)
    ensures |after| == |sent| + if goes then 1 else 0
    ensures skips <==> AlreadyReminded(a, sent, schedule, today)
  {
    after, goes, skips := sent, false, false;
    if a.open && a.due.Some? && a.balance > 0 {
      var offset := DueReminder(today - a.due.value, schedule);
      if offset.Some? {
        if offset.value in sent {
          skips := true;
        } else if delivers {
          after, goes := sent + [offset.value], true;
        }
      }
    }
  }

  /** `send_invoice_reminders`: every invoice gets at most its one reminder, and a failing one never stops the rest. */
  method SendInvoiceReminders(
    rows: seq<(Account, seq<int>)>, schedule: seq<int>, today: int, delivers: seq<bool>, enabled: bool)
    returns (after: seq<seq<int>>, sent: nat, skipped: nat)
    requires |rows| == |delivers|
    ensures |after| == |rows|
    ensures forall i :: 0 <= i < |rows| ==>
      after[i] == if enabled then AfterJob(rows[i].0, rows[i].1, schedule, today, delivers[i]) else rows[i].1
    ensures SumBy(after, Length()) == SumBy(rows, LengthBefore()) + sent
    ensures skipped == if enabled then SumBy(rows, Skips(schedule, today)) else 0
  {
    after, sent, skipped := [], 0, 0;
    if !enabled {
      after := AsBefore(rows);
      return;
    }
    for i := 0 to |rows|
      invariant |after| == i
      invariant forall j :: 0 <= j < i ==> after[j] == AfterJob(rows[j].0, rows[j].1, schedule, today, delivers[j])
      invariant SumBy(after, Length()) == SumBy(rows[..i], LengthBefore()) + sent
      invariant skipped == SumBy(rows[..i], Skips(schedule, today))
    {
      hide AfterJob, AlreadyReminded, SumBy, Skips, Length, LengthBefore;
      var mine, goes, skips := Remind(rows[i].0, rows[i].1, schedule, today, delivers[i]);
      OneMoreRow(rows, i, after, mine, schedule, today);
      after := after + [mine];
      sent := sent + if goes then 1 else 0;
      skipped := skipped + if skips then 1 else 0;
    }
    assert rows[..|rows|] == rows;
  }

  lemma OneMoreRow(
    rows: seq<(Account, seq<int>)>, i: nat, after: seq<seq<int>>, mine: seq<int>, schedule: seq<int>, today: int)
    requires i < |rows|
    ensures SumBy(after + [mine], Length()) == SumBy(after, Length()) + |mine|
    ensures SumBy(rows[..i + 1], LengthBefore()) == SumBy(rows[..i], LengthBefore()) + |rows[i].1|
    ensures SumBy(rows[..i + 1], Skips(schedule, today))
         == SumBy(rows[..i], Skips(schedule, today))
            + if AlreadyReminded(rows[i].0, rows[i].1, schedule, today) then 1 else 0
  {
    hide AlreadyReminded;
    assert rows[..i + 1] == rows[..i] + [rows[i]];
    SumByAppend(after, mine, Length());
    SumByAppend(rows[..i], rows[i], LengthBefore());
    SumByAppend(rows[..i], rows[i], Skips(schedule, today));
  }

  function AsBefore(rows: seq<(Account, seq<int>)>): (r: seq<seq<int>>)
    ensures |r| == |rows| && forall i :: 0 <= i < |rows| ==> r[i] == rows[i].1
    ensures SumBy(r, Length()) == SumBy(rows, LengthBefore())
  {
    var r := seq(|rows|, i requires 0 <= i < |rows| => rows[i].1);
    SumByCongruent(r, Length(), rows, LengthBefore());
    r
  }

  function Length(): seq<int> -> int { (s: seq<int>) => |s| }

  function LengthBefore(): ((Account, seq<int>)) -> int { (row: (Account, seq<int>)) => |row.1| }
}
