/** Session identity: `session_<clock>` where the clock is the millisecond
    reading taken when the id is made. The clock is an input. */
module Session {
  import opened Text

  const SessionPrefix: string := "session_"

  /** `` `session_${Date.now()}` `` for the clock reading `now`. */
  function SessionId(now: nat): (id: string)
    ensures |id| > |SessionPrefix| && id[..|SessionPrefix|] == SessionPrefix
    ensures forall k :: |SessionPrefix| <= k < |id| ==> IsDigit(id[k])
  {
    SessionPrefix + Decimal(now)
  }

  /** Reads the clock value back out of an id. */
  function ClockOf(id: string): nat {
    if |id| < |SessionPrefix| then 0 else ParseDecimal(id[|SessionPrefix|..])
  }

  lemma ClockOfSessionId(now: nat)
    ensures ClockOf(SessionId(now)) == now
  {
    assert SessionId(now)[|SessionPrefix|..] == Decimal(now);
    ParseDecimalOfDecimal(now);
  }

  /** Two ids are equal exactly when the clock readings they were made from
      are equal; equal readings (the same millisecond) give the same id. */
  lemma SessionIdInjective(a: nat, b: nat)
    ensures SessionId(a) == SessionId(b) <==> a == b
  {
    ClockOfSessionId(a);
    ClockOfSessionId(b);
  }
}
