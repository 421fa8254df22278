/// The service reports every failure with one exception type that carries a
/// human-readable message; procedures here return a Result instead of throwing.
module ServiceErrors {

  /** The value of a procedure that either completes or fails with a message. */
  datatype Result<+T> = Ok(value: T) | Failure(message: string)

  /** A validation step that either lets the call continue or fails it. */
  datatype Outcome = Pass | Fail(message: string)

  /** RequirePositive: a tunable must be strictly positive; the message names
      the parameter. (Finiteness, the other half of the check in the source,
      holds of every real.) */
  function RequirePositive(name: string, value: real): (o: Outcome)
    ensures o.Pass? <==> 0.0 < value
    ensures o.Fail? ==> o.message == name + " must be > 0."
  {
    if value <= 0.0 then Fail(name + " must be > 0.") else Pass
  }

  /** The first failing check of a sequence of validations, in order. */
  function FirstFailure(checks: seq<Outcome>): (o: Outcome)
    ensures o.Pass? <==> forall i :: 0 <= i < |checks| ==> checks[i].Pass?
    ensures o.Fail? ==> exists i :: 0 <= i < |checks| && checks[i] == o
                                    && forall j :: 0 <= j < i ==> checks[j].Pass?
  {
    if checks == [] then Pass
    else if checks[0].Fail? then checks[0]
    else
      var rest := FirstFailure(checks[1..]);
      assert forall i :: 1 <= i < |checks| ==> checks[i] == checks[1..][i - 1];
      rest
  }
}
