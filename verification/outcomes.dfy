/**
 * The two ways a constructor chain ends.  Every constructor either completes
 * or throws the domain's checked exception with a message; `Outcome` is that
 * for one constructor's own checks, and `:-` chains outcomes so that a later
 * constructor's checks run only when every earlier one completed, as a Java
 * subclass constructor runs only after `super(...)` returned.
 */
module Outcomes {

  datatype Outcome = Pass | Fail(message: string) {
    predicate IsFailure() { Fail? }

    function PropagateFailure(): Outcome
      requires Fail?
    {
      this
    }
  }

  /** Sequencing two outcomes as `:-` does: the first failure wins, and `rest` matters only after a pass. */
  function Then(first: Outcome, rest: Outcome): (r: Outcome)
    ensures r.Pass? <==> first.Pass? && rest.Pass?
    ensures first.Fail? ==> r == first
  {
    if first.Fail? then first else rest
  }

  /** One check of a constructor: the condition it requires, and the message it throws otherwise. */
  datatype Rule = Rule(holds: bool, message: string)

  /** A single check on its own. */
  function Check(rule: Rule): (r: Outcome)
    ensures r.Pass? <==> rule.holds
    ensures r.Fail? ==> r.message == rule.message
  {
    if rule.holds then Pass else Fail(rule.message)
  }

  /** Running a list of checks top to bottom and throwing the message of the first that fails. */
  function FirstFailing(rules: seq<Rule>): Outcome
  {
    if rules == [] then Pass
    else if !rules[0].holds then Fail(rules[0].message)
    else FirstFailing(rules[1..])
  }

  /** The rule at index `i` fails and every rule before it holds. */
  predicate FailsFirstAt(rules: seq<Rule>, i: int)
  {
    0 <= i < |rules| && !rules[i].holds && forall j :: 0 <= j < i ==> rules[j].holds
  }

  /**
   * What running a list of checks means: it passes exactly when every rule
   * holds, and it throws `m` exactly when `m` is the message of the earliest
   * rule that fails.
   */
  lemma {:induction false} FirstFailingMeans(rules: seq<Rule>, m: string)
    ensures FirstFailing(rules) == Pass <==> forall i :: 0 <= i < |rules| ==> rules[i].holds
    ensures FirstFailing(rules) == Fail(m) <==> exists i :: FailsFirstAt(rules, i) && rules[i].message == m
  {
    if rules != [] {
      FirstFailingMeans(rules[1..], m);
      if rules[0].holds {
        if FirstFailing(rules) == Fail(m) {
          var k :| FailsFirstAt(rules[1..], k) && rules[1..][k].message == m;
          assert FailsFirstAt(rules, k + 1);
        }
        if i :| FailsFirstAt(rules, i) && rules[i].message == m {
          assert FailsFirstAt(rules[1..], i - 1);
        }
      } else {
        assert FailsFirstAt(rules, 0);
        forall i | FailsFirstAt(rules, i) ensures i == 0 {
        }
      }
    }
  }

  /** Checking `x` and then `y` is checking the list `x + y`: a later constructor runs only after the earlier one passed. */
  lemma {:induction false} FirstFailingAppend(x: seq<Rule>, y: seq<Rule>)
    ensures FirstFailing(x + y) == Then(FirstFailing(x), FirstFailing(y))
  {
    if x == [] {
      assert x + y == y;
    } else {
      assert (x + y)[1..] == x[1..] + y;
      FirstFailingAppend(x[1..], y);
    }
  }

  /** A constructor's handful of checks, unfolded one by one. */
  lemma FirstFailingOfFew(rules: seq<Rule>)
    requires |rules| <= 4
    ensures |rules| == 1 ==> FirstFailing(rules) == Check(rules[0])
    ensures |rules| == 2 ==> FirstFailing(rules) == Then(Check(rules[0]), Check(rules[1]))
    ensures |rules| == 3 ==> FirstFailing(rules) == Then(Check(rules[0]), Then(Check(rules[1]), Check(rules[2])))
    ensures |rules| == 4 ==>
      FirstFailing(rules) == Then(Check(rules[0]), Then(Check(rules[1]), Then(Check(rules[2]), Check(rules[3]))))
  {
  }

  /** What `new XRecord(...)` yields: the object, or the message of the exception it threw. */
  datatype Result<T> = Success(value: T) | Failure(error: string)
}
