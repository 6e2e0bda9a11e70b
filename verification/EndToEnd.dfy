/** From the request to the row: each published request is charged once. */
module EndToEnd {
  import opened System
  import A = Attribution
  import D = Delivery
  import S = DeliverySafety
  import X = ExactlyOnce

  /** In every run of the pipeline whose queue steps are clean, each message is the usage event of the
      one request that published it, and of that event there are exactly one deduction and one row
      once it is acknowledged, none while it is ready, and never more than one. */
  lemma PublishedIsChargedOnce(s: State, run: seq<Action>, m: nat)
    requires Initial(s) && Runs(s, run) && m < |Exec(s, run).d.msgs|
    requires D.Runs(s.d, QueueRun(s, run)) && S.CleanRun(s.d, QueueRun(s, run))
    ensures
      var t := Exec(s, run);
      && A.MsgFrom(t, m) && (forall k :: 0 <= k < |t.d.msgs| && k != m ==> t.d.msgs[k].src != t.d.msgs[m].src)
      && !t.d.msgs[m].state.Dropped?
      && (!t.d.msgs[m].state.Unacked? ==> X.DebitsOf(t.d, m) == X.RowsOf(t.d, m) == X.Acknowledged(t.d, m))
      && X.RowsOf(t.d, m) <= X.DebitsOf(t.d, m) <= 1
  {
    A.EventsAreProviderCalls(s, run);
    RunIsQueueRun(s, run);
    X.ChargedExactlyOnce(s.d, QueueRun(s, run), m);
  }
}
