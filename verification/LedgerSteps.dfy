/** What each store call does, told from the outside. */
module LedgerSteps {
  import opened Ledger

  /** Only caller i has moved, and is now x. */
  predicate Moves(s: State, t: State, i: nat, x: Slot)
  {
    && i < |s.slots| == |t.slots| && t.slots[i] == x
    && forall j :: 0 <= j < |s.slots| && j != i ==> t.slots[j] == s.slots[j]
  }

  /** A deposit starts with its update, a charge with its balance read. */
  lemma BeginStarts(s: State, i: nat, op: Op)
    requires i < |s.slots| && s.slots[i].Idle?
    ensures
      var t := Step(s, Begin(i, op));
      && Enabled(s, Begin(i, op)) && t.balance == s.balance && t.log == s.log && t.applied == s.applied
      && Moves(s, t, i, Call(op, if op.Deposit? then Updating else Reading))
  {
  }

  /** The read decides: a charge goes on if the balance covers its cost, a missing row and a failed read
      counting as 0, and has failed otherwise. */
  lemma ReadDecides(s: State, i: nat, up: bool)
    requires i < |s.slots| && s.slots[i].Call? && s.slots[i].stage.Reading? && s.slots[i].op.Usage?
    ensures
      var t, op := Step(s, Read(i, up)), s.slots[i].op;
      && Enabled(s, Read(i, up)) && t.balance == s.balance && t.log == s.log && t.applied == s.applied
      && Moves(s, t, i, Call(op,
           if op.cost <= (if up && op.user in s.balance then s.balance[op.user] else 0) then Updating else Done(false)))
  {
  }

  /** The update adds a deposit's amount to its user's balance, or takes a charge's cost from it, creating the
      row if there is none; unless it is refused.  Only one that is reported to have succeeded goes on. */
  lemma UpdateMoves(s: State, i: nat, out: Outcome)
    requires i < |s.slots| && s.slots[i].Call? && s.slots[i].stage.Updating?
    ensures
      var t, op := Step(s, Update(i, out)), s.slots[i].op;
      var held := if op.user in s.balance then s.balance[op.user] else 0;
      && Enabled(s, Update(i, out)) && t.log == s.log
      && Moves(s, t, i, Call(op, if out.Fine? then Logging else Done(false)))
      && t.balance ==
           (if out.Refused? then s.balance
            else if op.Deposit? then s.balance[op.user := held + op.amount]
            else s.balance[op.user := held - op.cost])
      && t.applied == (if out.Refused? then s.applied else s.applied + [op])
  {
  }

  /** The insert appends one row, unless it is refused, and ends the call. */
  lemma InsertRecords(s: State, i: nat, out: Outcome, at: int)
    requires i < |s.slots| && s.slots[i].Call? && s.slots[i].stage.Logging?
    ensures
      var t, op := Step(s, Insert(i, out, at)), s.slots[i].op;
      && Enabled(s, Insert(i, out, at)) && t.balance == s.balance && t.applied == s.applied
      && Moves(s, t, i, Call(op, Done(out.Fine?)))
      && t.log == (if out.Refused? then s.log else s.log + [Row(op, at)])
  {
  }

  /** A caller that returns, or dies at whatever stage, is gone; the tables stay as they are. */
  lemma CallEnds(s: State, i: nat, a: Action)
    requires i < |s.slots| && s.slots[i].Call?
    requires a == Abort(i) || (a == Return(i) && s.slots[i].stage.Done?)
    ensures
      var t := Step(s, a);
      && Enabled(s, a) && t.balance == s.balance && t.log == s.log && t.applied == s.applied
      && Moves(s, t, i, Idle)
  {
  }

  /** A balance query answers the stored balance, or 0, and nothing else. */
  lemma QueryAnswers(s: State, u: User, answer: int)
    ensures Enabled(s, Query(u, answer)) <==> answer == if u in s.balance then s.balance[u] else 0
    ensures Enabled(s, Query(u, answer)) ==> Step(s, Query(u, answer)) == s
  {
  }
}
