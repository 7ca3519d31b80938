/** One whole cutover of two zones, step by step: the states the theorems speak of are reached. */
module WatchdogExample {
  import opened Options
  import opened Routes
  import opened WatchdogProtocol
  import opened WatchdogRuns
  import opened WatchdogFence

  function Done(status: Status, report: Option<string>): State {
    Lease("first", DAWN).(status := status, intents := [Intended(true, false)], acceptedReport := report)
  }

  /** The planned write was sent, the provider applied it and answered, the answer was recorded. */
  lemma Acknowledged() returns (w: World)
    ensures Reached(w) && w.active == Some(Done(Armed, None)) && w.live == Live(NEW_ROW) && w.flying == multiset{}
    ensures w.clock == DAWN
  {
    var f := Flight(Put(COM_ZONE, ID, NEW_ROW), DAWN);
    var a := Sent();
    var b := PutLands(a, f, OLD_ROW);
    assert b.flying == multiset{};
    Goes(b, Ack(0, ID));
    w := Next(b, Ack(0, ID));
    assert [Intended(false, false)][0 := Intended(true, false)] == [Intended(true, false)];
  }

  /** A run that ends with a planned change accepted, and the alarm dropped. */
  lemma AcceptedIsReached() returns (w: World)
    ensures Reached(w) && w.active == Some(Done(Accepted, Some("report"))) && w.live == Live(NEW_ROW) && w.flying == multiset{}
    ensures w.alarm.None?
  {
    var a := Acknowledged();
    PlanIsShown(a.active.value, a.live);
    Goes(a, Accept("report"));
    var b := Next(a, Accept("report"));
    Goes(b, ClearAlarm);
    w := Next(b, ClearAlarm);
  }

  /** The run goes on: `/restore` takes the accepted lease back into a round, and until its handler has
      set the alarm none is pending. */
  lemma AcceptedIsReopened() returns (w: World, v: World)
    ensures Reached(w) && AcceptedFor(w, "first") && Enabled(w, StartRound) && v == Next(w, StartRound)
    ensures Reached(v) && v.active.value.status == Restoring && Unguarded(v)
  {
    w := AcceptedIsReached();
    Goes(w, StartRound);
    v := Next(w, StartRound);
  }
}
