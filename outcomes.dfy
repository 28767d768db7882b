/** The vocabulary every probe of the `/demo` handler shares: what an external
    call replies, what a catch block makes of a thrown value, the three-state
    outcome, and the semantics of a try block whose first throwing step skips
    the rest. */
module Outcomes {

  /** A value the source may leave `undefined` or `null`. */
  datatype Option<+T> = None | Some(value: T)

  /** A value thrown by an external call, as a catch block sees it: its
      `message` property (absent when the thrown value has none) and what
      `String(e)` renders it as. */
  datatype Thrown = Thrown(message: Option<string>, rendered: string)

  /** The reply of one external call: it completes with a value or throws. */
  datatype Result<+T> = Ok(value: T) | Err(error: Thrown)

  /** The error a reply carries, if it threw. */
  function ErrorOf<T>(r: Result<T>): Option<Thrown>
  {
    match r
    case Ok(_) => None
    case Err(e) => Some(e)
  }

  /** `e?.message || String(e)`: the error text a failed probe reports. */
  function ErrorText(e: Thrown): (text: string)
    ensures text == e.rendered || e.message == Some(text)
    ensures e.message.Some? && e.message.value != "" ==> text == e.message.value
    ensures text != "" <==> (e.message.Some? && e.message.value != "") || e.rendered != ""
  {
    if e.message.Some? && e.message.value != "" then e.message.value else e.rendered
  }

  /** The per-dependency result. `Fail(None)` is the placeholder the handler
      starts from (`{ result: 'fail' }`, no error field); a probe that caught
      an error reports `Fail(Some(text))`. */
  datatype Outcome = Success | PartialSuccess | Fail(error: Option<string>)

  const Default: Outcome := Fail(None)

  /** What a probe's catch block stores. */
  function FailWith(e: Thrown): Outcome
  {
    Fail(Some(ErrorText(e)))
  }

  /** The `result` string of the response (`DemoResultEnum`). */
  function Label(o: Outcome): (name: string)
    ensures name == "success" <==> o.Success?
    ensures name == "partial_success" <==> o.PartialSuccess?
    ensures name == "fail" <==> o.Fail?
  {
    match o
    case Success => "success"
    case PartialSuccess => "partial_success"
    case Fail(_) => "fail"
  }

  /** The number of steps of a try block that run: every step up to and
      including the first one that throws, or all of them. `errs[i]` is what
      step `i` throws, if anything. */
  function Attempted(errs: seq<Option<Thrown>>): (n: nat)
    ensures n <= |errs|
  {
    if errs == [] then 0
    else if errs[0].Some? then 1
    else 1 + Attempted(errs[1..])
  }

  /** The outcome of a try block whose steps throw `errs` and whose catch
      block reports the error: `completed` when no step throws, otherwise a
      failure carrying the text of the first error. */
  function TryOutcome(errs: seq<Option<Thrown>>, completed: Outcome): Outcome
  {
    if errs == [] then completed
    else if errs[0].Some? then FailWith(errs[0].value)
    else TryOutcome(errs[1..], completed)
  }

  /** A try block fails exactly when one of its steps throws, and otherwise
      yields what its last statement stores. */
  lemma {:induction false} TryOutcomeFailsIffSomeStepThrows(errs: seq<Option<Thrown>>, completed: Outcome)
    requires !completed.Fail?
    ensures TryOutcome(errs, completed).Fail? <==> exists i :: 0 <= i < |errs| && errs[i].Some?
    ensures !TryOutcome(errs, completed).Fail? ==> TryOutcome(errs, completed) == completed
  {
    if errs != [] && errs[0].None? {
      TryOutcomeFailsIffSomeStepThrows(errs[1..], completed);
      assert forall i :: 1 <= i < |errs| ==> errs[i] == errs[1..][i - 1];
    }
  }

  /** A failure produced by a catch block always carries an error text. */
  lemma {:induction false} TryOutcomeKeepsText(errs: seq<Option<Thrown>>, completed: Outcome)
    requires !completed.Fail?
    ensures TryOutcome(errs, completed).Fail? ==> TryOutcome(errs, completed).error.Some?
  {
    if errs != [] && errs[0].None? {
      TryOutcomeKeepsText(errs[1..], completed);
    }
  }

  /** When step `k` is the first to throw, exactly `k + 1` steps run and the
      block fails with step `k`'s error. */
  lemma {:induction false} FirstThrowingStep(errs: seq<Option<Thrown>>, k: nat, completed: Outcome)
    requires k < |errs| && errs[k].Some?
    requires forall i :: 0 <= i < k ==> errs[i].None?
    ensures Attempted(errs) == k + 1
    ensures TryOutcome(errs, completed) == FailWith(errs[k].value)
  {
    if k > 0 {
      FirstThrowingStep(errs[1..], k - 1, completed);
    }
  }

  /** When no step throws, every step runs and the block yields `completed`. */
  lemma {:induction false} NoThrowingStep(errs: seq<Option<Thrown>>, completed: Outcome)
    requires forall i :: 0 <= i < |errs| ==> errs[i].None?
    ensures Attempted(errs) == |errs|
    ensures TryOutcome(errs, completed) == completed
  {
    if errs != [] {
      NoThrowingStep(errs[1..], completed);
    }
  }

  /** Steps that completed can be set aside: the rest of the block decides
      the outcome and how many further steps run. */
  lemma {:induction false} CompletedStepsSetAside(errs: seq<Option<Thrown>>, n: nat, completed: Outcome)
    requires n <= |errs|
    requires forall i :: 0 <= i < n ==> errs[i].None?
    ensures Attempted(errs) == n + Attempted(errs[n..])
    ensures TryOutcome(errs, completed) == TryOutcome(errs[n..], completed)
  {
    if n > 0 {
      CompletedStepsSetAside(errs[1..], n - 1, completed);
      assert errs[1..][n - 1..] == errs[n..];
    }
  }
}
