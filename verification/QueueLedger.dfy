/** The results about the ledger, carried over to the queue protocol that drives it. */
module QueueLedger {
  import opened Delivery
  import L = Ledger
  import O = Overdraft
  import A = AtomicLedger

  predicate PricedAtMost(s: State, x: Msg, c: nat)
  {
    x.event.Some? ==>
      0 <= s.tariff(x.event.value.model, x.event.value.prompt + x.event.value.completion) <= c
  }

  /** Published events cost between 0 and c, and no deposit is negative. */
  predicate Reasonable(s: State, a: Action, c: nat)
  {
    && (a.Publish? ==> PricedAtMost(s, Msg(a.event, a.src, Ready, 0, 0, 0), c))
    && (a.Store? && a.a.Begin? && a.a.op.Deposit? ==> 0 <= a.a.op.amount)
  }

  predicate ReasonableRun(s: State, run: seq<Action>, c: nat)
  {
    forall a :: a in run ==> Reasonable(s, a, c)
  }

  predicate AllPriced(s: State, c: nat)
  {
    forall m :: 0 <= m < |s.msgs| ==> PricedAtMost(s, s.msgs[m], c)
  }

  lemma StepPriced(s: State, a: Action, c: nat)
    requires Enabled(s, a) && AllPriced(s, c) && Reasonable(s, a, c)
    ensures AllPriced(Step(s, a), c) && Step(s, a).tariff == s.tariff
    ensures |Step(s, a).consumers| == |s.consumers|
    ensures forall b :: b in LedgerPart(s, a) && b.Begin? ==> O.Admissible(b.op, b.i, |s.consumers|, c)
  {
    var t := Step(s, a);
    forall m | 0 <= m < |t.msgs| ensures PricedAtMost(t, t.msgs[m], c) {
      if m < |s.msgs| {
        assert PricedAtMost(s, s.msgs[m], c);
      }
    }
    if a.Take? {
      assert PricedAtMost(s, s.msgs[a.m], c);
    }
  }

  lemma {:induction false} LedgerRunAdmissible(s: State, run: seq<Action>, c: nat)
    requires Runs(s, run) && AllPriced(s, c) && ReasonableRun(s, run, c)
    ensures O.AdmissibleRun(LedgerRun(s, run), |s.consumers|, c)
    decreases |run|
  {
    if run != [] {
      assert run[0] in run;
      StepPriced(s, run[0], c);
      var t := Step(s, run[0]);
      forall a | a in run[1..] ensures Reasonable(t, a, c) {
        assert Reasonable(s, a, c);
      }
      LedgerRunAdmissible(t, run[1..], c);
    }
  }

  /** With n consumers on the queue and costs of at most c, no fault whatever, of the store, the
      connections, the consumers or the broker, brings a balance below -(n-1)*c; the single
      consumer that is deployed never overdraws. */
  lemma QueueOverdraftBound(s: State, run: seq<Action>, c: nat, u: L.User)
    requires Initial(s) && 0 < |s.consumers| && Runs(s, run) && ReasonableRun(s, run, c)
    requires forall v :: L.Bal(s.led, v) >= 0
    ensures L.Bal(Exec(s, run).led, u) >= -(|s.consumers| - 1) * c
    ensures |s.consumers| == 1 ==> L.Bal(Exec(s, run).led, u) >= 0
  {
    RunIsLedgerRun(s, run);
    LedgerRunAdmissible(s, run, c);
    O.OverdraftBound(s.led, LedgerRun(s, run), |s.consumers|, c, u);
  }

  /** Every store call is answered, and no process dies inside a charge. */
  predicate Answered(a: Action)
  {
    !a.Crash? && (a.Store? ==> A.Faultless(a.a))
  }

  lemma {:induction false} LedgerRunFaultless(s: State, run: seq<Action>)
    requires Runs(s, run) && forall a :: a in run ==> Answered(a)
    ensures forall b :: b in LedgerRun(s, run) ==> A.Faultless(b)
    decreases |run|
  {
    if run != [] {
      assert run[0] in run;
      LedgerRunFaultless(Step(s, run[0]), run[1..]);
    }
  }

  /** One consumer, deposits at any time, messages delivered, requeued and redelivered over
      connections that come and go: what the ledger shows is a run of the atomic ledger. */
  lemma QueueIsAtomic(s: State, run: seq<Action>, c: nat)
    requires Initial(s) && |s.consumers| == 1 && Runs(s, run) && ReasonableRun(s, run, c)
    requires forall a :: a in run ==> Answered(a)
    ensures L.Runs(s.led, LedgerRun(s, run))
    ensures A.Explains(A.Abs(s.led), A.History(s.led, LedgerRun(s, run)), A.Abs(Exec(s, run).led))
  {
    RunIsLedgerRun(s, run);
    LedgerRunAdmissible(s, run, c);
    LedgerRunFaultless(s, run);
    var calls := LedgerRun(s, run);
    forall b | b in calls ensures A.Faultless(b) && A.BySingleConsumer(b) {
      if b.Begin? {
        assert O.Admissible(b.op, b.i, 1, c);
      }
    }
    A.OneConsumerIsAtomic(s.led, calls);
  }
}
