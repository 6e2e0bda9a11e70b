/** The billing store and service as objects, one call at a time.

    Every store call is told by its caller's surroundings how it ends; the contracts say that a
    service call is exactly a run of the ledger's steps by one caller. */
module Billing {
  import opened Text
  import opened Ledger
  import Cost
  import Rounding

  /** How the store calls of one service call end, and when the row is inserted. */
  datatype Luck = Luck(up: bool, update: Outcome, insert: Outcome, now: int)

  /** The two tables.  `applied` is the history of updates that took effect. */
  class Store {
    var balances: map<User, int>
    var rows: seq<Row>
    ghost var applied: seq<Op>

    constructor ()
      ensures balances == map[] && rows == [] && applied == []
    {
      balances, rows, applied := map[], [], [];
    }

    /** The ledger with a single caller. */
    ghost function Image(slot: Slot): State
      reads this
    {
      State(balances, applied, rows, [slot])
    }

    /** A missing row, or any error, reads as zero. */
    method GetBalance(user: User, up: bool) returns (amount: int)
      ensures up ==> amount == BalanceIn(balances, user)
      ensures !up || user !in balances ==> amount == 0
    {
      if up && user in balances {
        amount := balances[user];
      } else {
        amount := 0;
      }
    }

    method UpdateBalance(user: User, delta: int, out: Outcome, ghost op: Op) returns (err: bool)
      requires op.user == user && Delta(op) == delta
      modifies this`balances, this`applied
      ensures err <==> !out.Fine?
      ensures out.Refused? ==> balances == old(balances) && applied == old(applied)
      ensures !out.Refused? ==>
        && balances == old(balances)[user := (if user in old(balances) then old(balances)[user] else 0) + delta]
        && balances == Upsert(old(balances), op) && applied == old(applied) + [op]
    {
      if !out.Refused? {
        if user in balances {
          balances := balances[user := balances[user] + delta];
        } else {
          balances := balances[user := delta];
        }
        applied := applied + [op];
      }
      err := !out.Fine?;
    }

    method CreateTransaction(op: Op, out: Outcome, now: int) returns (err: bool)
      modifies this`rows
      ensures err <==> !out.Fine?
      ensures rows == if out.Refused? then old(rows) else old(rows) + [Row(op, now)]
    {
      if !out.Refused? {
        rows := rows + [Row(op, now)];
      }
      err := !out.Fine?;
    }
  }

  /** The update and, if it is reported to have succeeded, the insert. */
  function WriteRun(luck: Luck): seq<Action>
  {
    [Update(0, luck.update)] + (if luck.update.Fine? then [Insert(0, luck.insert, luck.now)] else [])
  }

  function DepositRun(op: Op, luck: Luck): seq<Action>
  {
    [Begin(0, op)] + WriteRun(luck)
  }

  /** What the balance read of a charge answers. */
  function Seen(s: State, op: Op, luck: Luck): int
  {
    if luck.up then Bal(s, op.user) else 0
  }

  function UsageRun(s: State, op: Op, luck: Luck): seq<Action>
  {
    [Begin(0, op)] + ([Read(0, luck.up)] + (if Seen(s, op, luck) < CostOf(op) then [] else WriteRun(luck)))
  }

  /** Where the writes leave a single caller. */
  function Written(s: State, op: Op, luck: Luck): State
  {
    State(if luck.update.Refused? then s.balance else Upsert(s.balance, op),
          if luck.update.Refused? then s.applied else s.applied + [op],
          if luck.update.Fine? && !luck.insert.Refused? then s.log + [Row(op, luck.now)] else s.log,
          [Call(op, Done(luck.update.Fine? && luck.insert.Fine?))])
  }

  function Ended(s: State, op: Op, luck: Luck): State
  {
    if op.Usage? && Seen(s, op, luck) < CostOf(op) then s.(slots := [Call(op, Done(false))]) else Written(s, op, luck)
  }

  lemma OneStep(s: State, a: Action)
    requires Enabled(s, a)
    ensures Runs(s, [a]) && Exec(s, [a]) == Step(s, a)
  {
    assert [a] + [] == [a];
    RunsCons(s, a, []);
  }

  lemma WriteEnds(s: State, op: Op, luck: Luck)
    requires s.slots == [Call(op, Updating)]
    ensures Runs(s, WriteRun(luck)) && Exec(s, WriteRun(luck)) == Written(s, op, luck)
  {
    var t := Step(s, Update(0, luck.update));
    if luck.update.Fine? {
      OneStep(t, Insert(0, luck.insert, luck.now));
      RunsCons(s, Update(0, luck.update), [Insert(0, luck.insert, luck.now)]);
    } else {
      OneStep(s, Update(0, luck.update));
      assert WriteRun(luck) == [Update(0, luck.update)];
    }
  }

  lemma DepositEnds(s: State, op: Op, luck: Luck)
    requires s.slots == [Idle] && op.Deposit?
    ensures Runs(s, DepositRun(op, luck)) && Exec(s, DepositRun(op, luck)) == Ended(s, op, luck)
  {
    var t := s.(slots := [Call(op, Updating)]);
    assert Step(s, Begin(0, op)).slots == t.slots;
    WriteEnds(t, op, luck);
    RunsCons(s, Begin(0, op), WriteRun(luck));
  }

  lemma UsageEnds(s: State, op: Op, luck: Luck)
    requires s.slots == [Idle] && op.Usage?
    ensures Runs(s, UsageRun(s, op, luck)) && Exec(s, UsageRun(s, op, luck)) == Ended(s, op, luck)
  {
    var t := s.(slots := [Call(op, Reading)]);
    assert Step(s, Begin(0, op)).slots == t.slots;
    if Seen(s, op, luck) < CostOf(op) {
      OneStep(t, Read(0, luck.up));
      assert [Read(0, luck.up)] + [] == [Read(0, luck.up)];
      RunsCons(s, Begin(0, op), [Read(0, luck.up)]);
    } else {
      assert Step(t, Read(0, luck.up)).slots == [Call(op, Updating)];
      WriteEnds(s.(slots := [Call(op, Updating)]), op, luck);
      RunsCons(t, Read(0, luck.up), WriteRun(luck));
      RunsCons(s, Begin(0, op), [Read(0, luck.up)] + WriteRun(luck));
    }
  }

  type Balances = map<User, int>

  /** Whether the balance, as it is read, covers a charge. */
  predicate Covers(before: Balances, op: Op, luck: Luck)
    requires op.Usage?
  {
    op.cost <= (if luck.up && op.user in before then before[op.user] else 0)
  }

  /** What a charge does to the two tables. */
  predicate Pays(op: Op, luck: Luck, before: Balances, rows: seq<Row>, after: Balances, rows': seq<Row>)
    requires op.Usage?
  {
    var held := if op.user in before then before[op.user] else 0;
    && after ==
         (if Covers(before, op, luck) && !luck.update.Refused? then before[op.user := held - op.cost] else before)
    && rows' ==
         (if Covers(before, op, luck) && luck.update.Fine? && !luck.insert.Refused? then rows + [Row(op, luck.now)]
          else rows)
  }

  /** Whether it succeeds. */
  predicate Succeeds(op: Op, luck: Luck, before: Balances)
    requires op.Usage?
  {
    Covers(before, op, luck) && luck.update.Fine? && luck.insert.Fine?
  }

  /** A charge that the balance covers, when nothing fails, takes its cost from its user's balance, leaves one
      row and succeeds. */
  lemma PaidInFull(op: Op, luck: Luck, before: Balances, rows: seq<Row>, after: Balances, rows': seq<Row>)
    requires op.Usage? && Pays(op, luck, before, rows, after, rows')
    requires luck.up && luck.update.Fine? && luck.insert.Fine?
    requires op.user in before && op.cost <= before[op.user]
    ensures after == before[op.user := before[op.user] - op.cost] && rows' == rows + [Row(op, luck.now)]
    ensures Succeeds(op, luck, before)
  {
  }

  /** One that it does not cover, or that is checked against a read that failed, changes nothing and does not. */
  lemma NotPaid(op: Op, luck: Luck, before: Balances, rows: seq<Row>, after: Balances, rows': seq<Row>)
    requires op.Usage? && Pays(op, luck, before, rows, after, rows')
    requires op.cost > (if luck.up && op.user in before then before[op.user] else 0)
    ensures after == before && rows' == rows && !Succeeds(op, luck, before)
  {
  }

  /** A covered charge whose update is refused changes nothing; one whose insert fails is deducted all the
      same; neither succeeds. */
  lemma PaidInPart(op: Op, luck: Luck, before: Balances, rows: seq<Row>, after: Balances, rows': seq<Row>)
    requires op.Usage? && Pays(op, luck, before, rows, after, rows')
    requires luck.up && op.user in before && op.cost <= before[op.user]
    requires !(luck.update.Fine? && luck.insert.Fine?)
    ensures !Succeeds(op, luck, before)
    ensures luck.update.Refused? ==> after == before && rows' == rows
    ensures !luck.update.Refused? ==> after == before[op.user := before[op.user] - op.cost]
    ensures rows' == if luck.update.Fine? && luck.insert.Lost? then rows + [Row(op, luck.now)] else rows
  {
  }

  class Service {
    const store: Store
    const prices: Cost.Prices
    /** How float64 rounds. */
    const rnd: real -> real

    constructor (store: Store, prices: Cost.Prices, rnd: real -> real)
      ensures this.store == store && this.prices == prices && this.rnd == rnd
    {
      this.store, this.prices, this.rnd := store, prices, rnd;
    }

    method Deposit(user: User, amount: int, luck: Luck) returns (err: bool)
      modifies store
      ensures
        var op := Ledger.Deposit(user, amount);
        && Runs(old(store.Image(Idle)), DepositRun(op, luck))
        && store.Image(Call(op, Done(!err))) == Exec(old(store.Image(Idle)), DepositRun(op, luck))
      ensures err <==> !(luck.update.Fine? && luck.insert.Fine?)
      ensures
        var held := if user in old(store.balances) then old(store.balances)[user] else 0;
        && store.balances ==
             (if luck.update.Refused? then old(store.balances) else old(store.balances)[user := held + amount])
        && store.rows ==
             (if luck.update.Fine? && !luck.insert.Refused?
              then old(store.rows) + [Row(Ledger.Deposit(user, amount), luck.now)] else old(store.rows))
    {
      DepositEnds(store.Image(Idle), Ledger.Deposit(user, amount), luck);
      err := store.UpdateBalance(user, amount, luck.update, Ledger.Deposit(user, amount));
      if err {
        return;
      }
      err := store.CreateTransaction(Ledger.Deposit(user, amount), luck.insert, luck.now);
    }

    /** The listed price, else the default unless it is missing or zero, else 0.03. */
    method Price(model: GoString) returns (price: real)
      ensures model in prices ==> price == prices[model]
      ensures
        model !in prices && Literal("default") in prices && prices[Literal("default")] != 0.0 ==>
          price == prices[Literal("default")]
      ensures
        model !in prices && (Literal("default") !in prices || prices[Literal("default")] == 0.0) ==>
          price == rnd(0.03)
      ensures price == Rounding.FloatPrice(rnd, prices, model)
    {
      if model in prices {
        price := prices[model];
      } else {
        price := if Cost.DEFAULT_MODEL in prices then prices[Cost.DEFAULT_MODEL] else 0.0;
        if price == 0.0 {
          price := rnd(0.03);
        }
      }
    }

    /** Charges tokens of a model to a user; `msg` labels the row with the message it is for. */
    method RecordUsage(user: User, model: GoString, tokens: int, msg: nat, luck: Luck) returns (err: bool)
      modifies store
      ensures
        var op := Usage(user, model, tokens, Rounding.FloatCharge(rnd, prices, model, tokens), msg);
        var run := UsageRun(old(store.Image(Idle)), op, luck);
        && Runs(old(store.Image(Idle)), run)
        && store.Image(Call(op, Done(!err))) == Exec(old(store.Image(Idle)), run)
      ensures
        var op := Usage(user, model, tokens, Rounding.FloatCharge(rnd, prices, model, tokens), msg);
        && Pays(op, luck, old(store.balances), old(store.rows), store.balances, store.rows)
        && (err <==> !Succeeds(op, luck, old(store.balances)))
    {
      var price := Price(model);
      var cost := Rounding.FloatCost(rnd, tokens, price);
      var op := Usage(user, model, tokens, cost, msg);
      UsageEnds(store.Image(Idle), op, luck);
      var balance := store.GetBalance(user, luck.up);
      if balance < cost {
        return true;
      }
      err := store.UpdateBalance(user, -cost, luck.update, op);
      if err {
        return;
      }
      err := store.CreateTransaction(op, luck.insert, luck.now);
    }
  }
}
