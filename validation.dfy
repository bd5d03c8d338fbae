/**
 * The shape shared by every submit handler of the portal: an ordered list
 * of `if (!condition) { show message; return }` guards. The first guard
 * that fails decides the message; later guards are never consulted.
 */
module Validation {
  import opened Common

  /** One guard of a chain: whether its condition holds and what is shown when it does not. */
  datatype Check = Check(passes: bool, message: string)

  /** The position of the first failing guard, or the length of the chain when all pass. */
  function FirstFailingIndex(checks: seq<Check>): (k: nat)
    ensures k <= |checks|
    ensures forall j :: 0 <= j < k ==> checks[j].passes
    ensures k < |checks| ==> !checks[k].passes
  {
    if checks == [] then 0
    else if !checks[0].passes then 0
    else 1 + FirstFailingIndex(checks[1..])
  }

  /** The message of the first failing guard, or `None` when every guard passes. */
  function FirstFailure(checks: seq<Check>): (r: Option<string>)
    ensures r.None? <==> forall j :: 0 <= j < |checks| ==> checks[j].passes
    ensures r.Some? ==> exists k :: 0 <= k < |checks| && !checks[k].passes
                          && r.value == checks[k].message
                          && forall j :: 0 <= j < k ==> checks[j].passes
  {
    var k := FirstFailingIndex(checks);
    if k < |checks| then Some(checks[k].message) else None
  }

  /** Guards after the first failing one have no influence on the outcome. */
  lemma {:induction false} LaterChecksIrrelevant(checks: seq<Check>, rest: seq<Check>)
    requires FirstFailure(checks).Some?
    ensures FirstFailure(checks + rest) == FirstFailure(checks)
  {
    if !checks[0].passes {
      assert (checks + rest)[0] == checks[0];
    } else {
      assert (checks + rest)[1..] == checks[1..] + rest;
      LaterChecksIrrelevant(checks[1..], rest);
    }
  }

  /** A chain whose prefix all passes is decided by its suffix. */
  lemma {:induction false} PassingPrefixSkipped(prefix: seq<Check>, rest: seq<Check>)
    requires forall j :: 0 <= j < |prefix| ==> prefix[j].passes
    ensures FirstFailure(prefix + rest) == FirstFailure(rest)
  {
    if prefix != [] {
      assert (prefix + rest)[0] == prefix[0];
      assert (prefix + rest)[1..] == prefix[1..] + rest;
      PassingPrefixSkipped(prefix[1..], rest);
    } else {
      assert prefix + rest == rest;
    }
  }
}
