/** Go strings, seen the way encoding/json sees them: code points, and bytes that are not UTF-8. */
module Text {
  datatype Option<+T> = None | Some(value: T)

  datatype Unit = Rune(c: char) | Bad(octet: nat)

  type GoString = seq<Unit>

  function Literal(s: string): GoString
  {
    seq(|s|, i requires 0 <= i < |s| => Rune(s[i]))
  }

  /** Forget which invalid byte it was. */
  function Blur(u: Unit): Unit
  {
    if u.Bad? then Bad(0) else u
  }

  function Blurred(t: GoString): GoString
  {
    seq(|t|, i requires 0 <= i < |t| => Blur(t[i]))
  }

  /** What decoding makes of an encoded unit: invalid bytes come back as U+FFFD. */
  function Repair(u: Unit): Unit
  {
    if u.Bad? then Rune('\U{fffd}') else u
  }

  function Repaired(t: GoString): GoString
  {
    seq(|t|, i requires 0 <= i < |t| => Repair(t[i]))
  }

  predicate ValidText(t: GoString)
  {
    forall u :: u in t ==> u.Rune?
  }

  /** Valid text survives unchanged. */
  lemma ValidIsUnchanged(t: GoString)
    requires ValidText(t)
    ensures Blurred(t) == t && Repaired(t) == t
  {
    forall i | 0 <= i < |t| ensures Blurred(t)[i] == t[i] && Repaired(t)[i] == t[i] {
      assert t[i] in t;
    }
  }

  lemma RepairBlurred(t: GoString)
    ensures Repaired(Blurred(t)) == Repaired(t)
  {
  }
}
