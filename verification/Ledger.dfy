/** The billing ledger as interleaved store calls.

    Every row of `slots` is one concurrent caller: a consumer inside RecordUsage or an HTTP
    handler inside Deposit.  Each call into the store is one atomic step, which may succeed,
    be refused without effect, or take effect and still report an error (the reply is lost). */
module Ledger {
  import opened Text

  type User = GoString

  /** `msg` tells which queued message a charge is made for.  The source does not store it;
      it lets a run be audited message by message. */
  datatype Op =
    | Deposit(user: User, amount: int)
    | Usage(user: User, model: GoString, tokens: int, cost: int, msg: nat)

  datatype Row = Row(op: Op, at: int)

  /** Where the caller stands: about to read the balance, to update it, to insert the row, or finished. */
  datatype Stage = Reading | Updating | Logging | Done(ok: bool)

  datatype Slot = Idle | Call(op: Op, stage: Stage)

  datatype Outcome = Fine | Refused | Lost

  /** `applied` is the history of the updates that reached the balances table. */
  datatype State = State(balance: map<User, int>, applied: seq<Op>, log: seq<Row>, slots: seq<Slot>)

  datatype Action =
    | Begin(i: nat, op: Op)
    | Read(i: nat, up: bool)
    | Update(i: nat, out: Outcome)
    | Insert(i: nat, out: Outcome, at: int)
    | Return(i: nat)
    | Abort(i: nat)
    | Query(user: User, answer: int)

  function BalanceIn(balance: map<User, int>, u: User): int
  {
    if u in balance then balance[u] else 0
  }

  function Bal(s: State, u: User): int
  {
    BalanceIn(s.balance, u)
  }

  function Delta(op: Op): int
  {
    match op
    case Deposit(_, amount) => amount
    case Usage(_, _, _, cost, _) => -cost
  }

  /** The upsert: a missing row counts as zero. */
  function Upsert(balance: map<User, int>, op: Op): map<User, int>
  {
    balance[op.user := BalanceIn(balance, op.user) + Delta(op)]
  }

  predicate At(s: State, i: nat, stage: Stage)
  {
    i < |s.slots| && s.slots[i].Call? && s.slots[i].stage == stage
  }

  function FirstStage(op: Op): Stage
  {
    if op.Deposit? then Updating else Reading
  }

  predicate Enabled(s: State, a: Action)
  {
    match a
    case Begin(i, _) => i < |s.slots| && s.slots[i].Idle?
    case Read(i, _) => At(s, i, Reading)
    case Update(i, _) => At(s, i, Updating)
    case Insert(i, _, _) => At(s, i, Logging)
    case Return(i) => i < |s.slots| && s.slots[i].Call? && s.slots[i].stage.Done?
    case Abort(i) => i < |s.slots| && s.slots[i].Call?
    case Query(u, answer) => answer == Bal(s, u)
  }

  function Goto(s: State, i: nat, stage: Stage): State
    requires i < |s.slots| && s.slots[i].Call?
  {
    s.(slots := s.slots[i := s.slots[i].(stage := stage)])
  }

  function CostOf(op: Op): int
  {
    if op.Usage? then op.cost else 0
  }

  /** A failed read of the balance answers 0, not an error. */
  function ReadValue(s: State, i: nat, up: bool): int
    requires i < |s.slots| && s.slots[i].Call?
  {
    if up then Bal(s, s.slots[i].op.user) else 0
  }

  predicate Passes(s: State, i: nat, up: bool)
    requires i < |s.slots| && s.slots[i].Call?
  {
    CostOf(s.slots[i].op) <= ReadValue(s, i, up)
  }

  function Step(s: State, a: Action): State
    requires Enabled(s, a)
  {
    match a
    case Begin(i, op) => s.(slots := s.slots[i := Call(op, FirstStage(op))])
    case Read(i, up) => Goto(s, i, if Passes(s, i, up) then Updating else Done(false))
    case Update(i, out) =>
      var op := s.slots[i].op;
      var t := Goto(s, i, if out.Fine? then Logging else Done(false));
      if out.Refused? then t else t.(balance := Upsert(s.balance, op), applied := s.applied + [op])
    case Insert(i, out, at) =>
      var t := Goto(s, i, Done(out.Fine?));
      if out.Refused? then t else t.(log := s.log + [Row(s.slots[i].op, at)])
    case Return(i) => s.(slots := s.slots[i := Idle])
    case Abort(i) => s.(slots := s.slots[i := Idle])
    case Query(_, _) => s
  }

  predicate Runs(s: State, run: seq<Action>)
    decreases |run|
  {
    run == [] || (Enabled(s, run[0]) && Runs(Step(s, run[0]), run[1..]))
  }

  function Exec(s: State, run: seq<Action>): State
    requires Runs(s, run)
    decreases |run|
  {
    if run == [] then s else Exec(Step(s, run[0]), run[1..])
  }

  /** Nobody is inside a call. */
  predicate Quiescent(s: State)
  {
    forall i :: 0 <= i < |s.slots| ==> s.slots[i].Idle?
  }

  lemma RunsCons(s: State, a: Action, rest: seq<Action>)
    requires Enabled(s, a) && Runs(Step(s, a), rest)
    ensures Runs(s, [a] + rest) && Exec(s, [a] + rest) == Exec(Step(s, a), rest)
  {
    assert ([a] + rest)[1..] == rest;
  }

  lemma RunsSnoc(s: State, run: seq<Action>, a: Action)
    requires Runs(s, run) && Enabled(Exec(s, run), a)
    ensures Runs(s, run + [a]) && Exec(s, run + [a]) == Step(Exec(s, run), a)
  {
    assert [a] + [] == [a];
    RunsCons(Exec(s, run), a, []);
    RunsConcat(s, run, [a]);
  }

  lemma {:induction false} RunsConcat(s: State, r1: seq<Action>, r2: seq<Action>)
    requires Runs(s, r1) && Runs(Exec(s, r1), r2)
    ensures Runs(s, r1 + r2) && Exec(s, r1 + r2) == Exec(Exec(s, r1), r2)
    decreases |r1|
  {
    if r1 == [] {
      assert r1 + r2 == r2;
    } else {
      assert (r1 + r2)[1..] == r1[1..] + r2;
      RunsConcat(Step(s, r1[0]), r1[1..], r2);
    }
  }
}
