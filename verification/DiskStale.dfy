/** Harmful deliveries happen: registering a run again starts its send numbers over, so an old
    acknowledgement can outrank a new send. */
module DiskStale {
  import opened Options
  import opened DiskGovernor
  import opened DiskRuns
  import opened DiskSafety
  import opened DiskHarm

  const RUN := "r"
  const AWAITING := NotRunning("awaiting_input")

  /** Two `running` reports of a first registration are applied and acknowledged. */
  lemma FirstRegistration() returns (es: seq<Event>)
    ensures var w := Run(es);
            && |w.g.objects| == 1 && w.g.runs == [(RUN, 0)]
            && LineOf(w, RUN) == Line([], Some(Running), [Ack(Some(0), 1, Some(Running)),
                  Ack(Some(0), 2, Some(Running))])
  {
    RunNext([], DiskRuns.Registered(RUN));
    var a := [] + [DiskRuns.Registered(RUN)];
    RunNext(a, Sent(RUN, Running));
    var b := a + [Sent(RUN, Running)];
    RunNext(b, Process(RUN, true, true));
    var c := b + [Process(RUN, true, true)];
    RunNext(c, Sent(RUN, Running));
    var d := c + [Sent(RUN, Running)];
    RunNext(d, Process(RUN, true, true));
    es := d + [Process(RUN, true, true)];
  }

  /** The run registers again, waits for input, and says `running` once more; that last report is
      still unprocessed, and the acknowledgement of the first registration's second report has not
      arrived yet. */
  lemma SecondRegistration(a: seq<Event>) returns (es: seq<Event>)
    requires var w := Run(a);
             && |w.g.objects| == 1 && w.g.runs == [(RUN, 0)]
             && LineOf(w, RUN) == Line([], Some(Running), [Ack(Some(0), 1, Some(Running)),
                   Ack(Some(0), 2, Some(Running))])
    ensures Current(Run(es).g, RUN) == Some(1)
    ensures Run(es).g.objects[1] == RunState(None, true, Some(Running), 2, 1, 0, 0, false, false)
    ensures LineOf(Run(es), RUN).status == Some(AWAITING) && |LineOf(Run(es), RUN).acks| == 3
    ensures LineOf(Run(es), RUN).acks[1] == Ack(Some(0), 2, Some(Running))
  {
    RunNext(a, DiskRuns.Registered(RUN));
    var b := a + [DiskRuns.Registered(RUN)];
    RunNext(b, Entered(RUN));
    var c := b + [Entered(RUN)];
    RunNext(c, Sent(RUN, AWAITING));
    var d := c + [Sent(RUN, AWAITING)];
    RunNext(d, Process(RUN, true, true));
    var f := d + [Process(RUN, true, true)];
    RunNext(f, Sent(RUN, Running));
    es := f + [Sent(RUN, Running)];
  }

  /** That delivery is harmful, and a stop of the waiting run can follow, whatever the time is. */
  lemma StaleAckStops(from: int) returns (es: seq<Event>, fs: seq<Event>, reading: Option<nat>)
    ensures Harmful(Run(es), Deliver(RUN, 1)) && LineOf(Run(es), RUN).status == Some(AWAITING)
    ensures OnTime(fs, from) && WrongfulStop(Run(es + [Deliver(RUN, 1)] + fs), reading)
    ensures Chosen(Measured(Run(es + [Deliver(RUN, 1)] + fs).g, reading)) == Some((RUN, 1))
  {
    var a := FirstRegistration();
    es := SecondRegistration(a);
    fs, reading := HarmLeadsToStop(es, Deliver(RUN, 1), from);
  }
}
