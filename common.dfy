/** Small shared vocabulary: optional values, pass/fail outcomes of the
    validating setters, and the direction strings the bot passes around. */
module Common {

  datatype Option<T> = None | Some(value: T)

  /** The outcome of a setter that throws an argument exception on bad input. */
  datatype Outcome = Pass | Fail(message: string)

  /** Directions are plain strings in the bot: every consumer compares
      against these literals and treats anything else as "not LONG". */
  const LONG: string := "LONG"
  const SHORT: string := "SHORT"
  const NEUTRAL: string := "NEUTRAL"

  /** The three direction strings are distinct. */
  lemma DirectionsDistinct()
    ensures LONG != SHORT && LONG != NEUTRAL && SHORT != NEUTRAL
  {
    assert |LONG| == 4 && |SHORT| == 5 && |NEUTRAL| == 7;
  }
}
