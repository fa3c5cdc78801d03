/** The request-handling chain shared by both controllers: every middleware
    step either calls `next()` or halts the chain with `{status, message}`,
    and the chain stops at the first step that halts. */
module Middleware {

  datatype Option<T> = None | Some(value: T)

  /** How a step ends the chain: `next({status, message})`, or a TypeError
      that JavaScript throws while the step reads the request and that the
      framework forwards to its error handler. */
  datatype Failure = Halt(status: int, message: string) | Thrown

  /** The verdict of one validation step. */
  datatype Check = Pass | Fail(failure: Failure)

  /** The verdict of a lookup step that also resolves something for the steps
      after it (what the controllers keep in `res.locals`). */
  datatype Outcome<T> = Ok(value: T) | Stop(failure: Failure) {
    function ToCheck(): (c: Check)
      ensures c.Pass? <==> Ok?
      ensures c.Fail? ==> c.failure == failure
    {
      if Ok? then Pass else Fail(failure)
    }
  }

  /** What a whole chain answers: a success status with its body, or the
      failure of the step that halted it. */
  datatype Response<T> = Success(status: int, body: T) | Error(failure: Failure)

  /** `Array.prototype.findIndex(p)` (and `find(p)`, read as the index of the
      element it returns): the first index whose element satisfies `p`, or
      `None` where JavaScript gives -1 or `undefined`. */
  function FindIndex<T>(s: seq<T>, p: T -> bool): (r: Option<nat>)
    ensures r.None? <==> forall i :: 0 <= i < |s| ==> !p(s[i])
    ensures r.Some? ==> r.value < |s| && p(s[r.value]) && forall j :: 0 <= j < r.value ==> !p(s[j])
  {
    if |s| == 0 then None
    else if p(s[0]) then Some(0)
    else match FindIndex(s[1..], p)
      case None => None
      case Some(k) => Some(k + 1)
  }

  /** Running the steps of a chain in order: the verdict of the first step that
      halts, or `Pass` when every step calls `next()`. */
  function FirstFailure(checks: seq<Check>): (r: Check)
    ensures r.Pass? <==> forall i :: 0 <= i < |checks| ==> checks[i].Pass?
    ensures r.Fail? ==>
      exists k :: 0 <= k < |checks| && checks[k] == r && forall j :: 0 <= j < k ==> checks[j].Pass?
  {
    if |checks| == 0 then Pass
    else if checks[0].Fail? then checks[0]
    else FirstFailure(checks[1..])
  }

  /** The chain short-circuits: when step `k` is the first to halt, the chain
      answers with exactly that step's failure, whatever the later steps
      would have said. */
  lemma {:induction false} FirstFailureIs(checks: seq<Check>, k: nat)
    requires k < |checks| && checks[k].Fail?
    requires forall j :: 0 <= j < k ==> checks[j].Pass?
    ensures FirstFailure(checks) == checks[k]
    decreases k
  {
    if k > 0 {
      assert checks[1..][k - 1] == checks[k];
      FirstFailureIs(checks[1..], k - 1);
    }
  }

  /** Running two chains one after the other is running their concatenation. */
  lemma {:induction false} FirstFailureAppend(a: seq<Check>, b: seq<Check>)
    ensures FirstFailure(a + b) == if FirstFailure(a).Fail? then FirstFailure(a) else FirstFailure(b)
    decreases |a|
  {
    if |a| == 0 {
      assert a + b == b;
    } else {
      assert (a + b)[1..] == a[1..] + b;
      FirstFailureAppend(a[1..], b);
    }
  }
}
