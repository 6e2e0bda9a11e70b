/** API keys as the auth service stores them: under a hash, never in the clear. */
module AuthService {
  import opened Text
  import opened System
  import L = Ledger

  /** SHA-256 is taken to have no collisions. */
  ghost predicate Injective(hash: GoString -> GoString)
  {
    forall x, y :: hash(x) == hash(y) ==> x == y
  }

  class Service {
    const hash: GoString -> GoString
    /** The api_keys table, by hash. */
    var table: map<GoString, Key>
    /** The keys behind the table's rows: System.State.keys. */
    ghost var issued: map<GoString, Key>

    ghost predicate Valid()
      reads this
    {
      && Injective(hash)
      && (forall k :: k in issued ==> hash(k) in table && table[hash(k)] == issued[k])
      && (forall h :: h in table ==> exists k :: k in issued && hash(k) == h)
    }

    constructor (hash: GoString -> GoString)
      requires Injective(hash)
      ensures Valid() && issued == map[] && this.hash == hash
    {
      this.hash, table, issued := hash, map[], map[];
    }

    /** A key validates exactly when it was issued and has not been revoked, and then as its owner;
        `up` tells whether the store answers. */
    method ValidateAPIKey(apiKey: GoString, up: bool) returns (user: Option<GoString>)
      requires Valid()
      ensures user.Some? <==> up && apiKey in issued && !issued[apiKey].revoked
      ensures user.Some? ==> user.value == issued[apiKey].user
    {
      var h := hash(apiKey);
      if !up || h !in table {
        return None;
      }
      ghost var k :| k in issued && hash(k) == h;
      assert k == apiKey;
      if table[h].revoked {
        return None;
      }
      user := Some(table[h].user);
    }

    /** The row is named by its hash here; revoking a row that does not exist is not an error. */
    method RevokeAPIKey(h: GoString, out: L.Outcome) returns (err: bool)
      requires Valid()
      modifies this`table, this`issued
      ensures Valid() && (err <==> !out.Fine?)
      ensures issued.Keys == old(issued).Keys
      ensures forall k :: k in issued ==>
                issued[k] == if hash(k) == h && !out.Refused? then old(issued)[k].(revoked := true) else old(issued)[k]
    {
      if !out.Refused? && h in table {
        ghost var k :| k in issued && hash(k) == h;
        table := table[h := table[h].(revoked := true)];
        issued := issued[k := issued[k].(revoked := true)];
      }
      err := !out.Fine?;
    }

    /** Stores a freshly drawn key and hands it out; `drawn` is absent when no random bytes can be had.
        A key whose insert reports an error is not handed out, although its row may be there. */
    method GenerateAndStoreAPIKey(user: GoString, drawn: Option<GoString>, out: L.Outcome)
      returns (apiKey: Option<GoString>)
      requires Valid() && (drawn.Some? ==> drawn.value !in issued)
      modifies this`table, this`issued
      ensures Valid()
      ensures apiKey == if drawn.Some? && out.Fine? then drawn else None
      ensures issued ==
        if drawn.Some? && !out.Refused? then old(issued)[drawn.value := Key(user, false)] else old(issued)
    {
      if drawn.None? {
        return None;
      }
      if !out.Refused? {
        assert hash(drawn.value) !in table;
        table := table[hash(drawn.value) := Key(user, false)];
        issued := issued[drawn.value := Key(user, false)];
        assert forall k :: k in old(issued) ==> k in issued;
      }
      apiKey := if out.Fine? then drawn else None;
    }
  }
}
