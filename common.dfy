/** Shared result shapes of the HTTP surface: every handler answers either with
    a success value or with a status code, a message and (for Mongoose
    validation errors) the list of violated field messages. */
module Common {

  datatype Option<+T> = None | Some(value: T)

  /** The `{success, message?, data?, errors?}` envelope, reduced to what the
      handlers decide: the status code, the message and the data or errors. */
  datatype Reply<+T> =
    | Ok(code: int, value: T)
    | Fail(code: int, message: string, errors: seq<string>)

  /** A JavaScript string used in a boolean position: `undefined` and `""` are falsy. */
  predicate Truthy(s: Option<string>) {
    s.Some? && s.value != ""
  }

  /** An id taken from the request (a route parameter or a body field): a
      well-formed object id, or a string the database refuses to cast. */
  datatype IdParam = Id(n: nat) | BadId

  const ValidationMessage := "Errori di validazione"
  const ServerErrorMessage := "Errore interno del server"

  /** One schema constraint: whether it holds and the violation Mongoose
      reports when it does not. */
  datatype Check<+M> = Check(holds: bool, message: M)

  /** The violations of the failing checks, in order. */
  function Failures<M>(checks: seq<Check<M>>): (r: seq<M>)
    ensures |r| <= |checks|
  {
    if checks == [] then []
    else (if checks[0].holds then [] else [checks[0].message]) + Failures(checks[1..])
  }

  lemma {:induction false} FailuresEmpty<M>(checks: seq<Check<M>>)
    ensures Failures(checks) == [] <==> AllHold(checks)
    decreases |checks|
  {
    if checks != [] {
      FailuresEmpty(checks[1..]);
      assert forall i :: 1 <= i < |checks| ==> checks[i] == checks[1..][i - 1];
    }
  }

  /** A failing check's violation is reported. */
  lemma {:induction false} FailureReported<M>(checks: seq<Check<M>>, i: nat)
    requires i < |checks| && !checks[i].holds
    ensures checks[i].message in Failures(checks)
    decreases |checks|
  {
    if i > 0 {
      assert checks[1..][i - 1] == checks[i];
      FailureReported(checks[1..], i - 1);
    }
  }

  predicate AllHold<M>(checks: seq<Check<M>>) {
    forall i :: 0 <= i < |checks| ==> checks[i].holds
  }

  lemma AllHoldAppend<M>(a: seq<Check<M>>, b: seq<Check<M>>)
    ensures AllHold(a + b) <==> AllHold(a) && AllHold(b)
  {
    if AllHold(a + b) {
      forall i | 0 <= i < |a| ensures a[i].holds {
        assert a[i] == (a + b)[i];
      }
      forall i | 0 <= i < |b| ensures b[i].holds {
        assert b[i] == (a + b)[|a| + i];
      }
    }
  }

}
