/**
 * Steps issued one after another, where the caller gives up right after the
 * first step that fails. Both `createDirectories` (it returns on the first
 * failed `os.MkdirAll`) and the jar loop of `handleJavaInterceptors` (it exits
 * on the first failed configmap create) follow this discipline.
 */
module Sequencing {

  /** The steps actually attempted: all of `steps` if each succeeds, otherwise
      the steps up to and including the first one that fails. */
  function AttemptInOrder<T>(steps: seq<T>, ok: T -> bool): seq<T> {
    AttemptFrom(steps, ok, 0)
  }

  /** The steps attempted when the run starts at `steps[i]`. */
  function AttemptFrom<T>(steps: seq<T>, ok: T -> bool, i: nat): seq<T>
    requires i <= |steps|
    decreases |steps| - i
  {
    if i == |steps| then []
    else if !ok(steps[i]) then [steps[i]]
    else [steps[i]] + AttemptFrom(steps, ok, i + 1)
  }

  /** The run stopped right after a step that failed. */
  predicate StoppedByFailure<T>(attempted: seq<T>, ok: T -> bool) {
    attempted != [] && !ok(attempted[|attempted| - 1])
  }

  /** Started at `steps[i]`, the attempted steps are the next steps in order. */
  lemma {:induction false} AttemptFromInOrder<T>(steps: seq<T>, ok: T -> bool, i: nat)
    requires i <= |steps|
    ensures |AttemptFrom(steps, ok, i)| <= |steps| - i
    ensures AttemptFrom(steps, ok, i) == steps[i..i + |AttemptFrom(steps, ok, i)|]
    decreases |steps| - i
  {
    if i < |steps| && ok(steps[i]) {
      var tail := AttemptFrom(steps, ok, i + 1);
      AttemptFromInOrder(steps, ok, i + 1);
      assert [steps[i]] + steps[i + 1..i + 1 + |tail|] == steps[i..i + 1 + |tail|];
    }
  }

  /** Every attempted step but the last succeeded. */
  lemma {:induction false} AttemptFromOkBeforeLast<T>(steps: seq<T>, ok: T -> bool, i: nat)
    requires i <= |steps|
    ensures forall j :: 0 <= j < |AttemptFrom(steps, ok, i)| - 1 ==> ok(AttemptFrom(steps, ok, i)[j])
    decreases |steps| - i
  {
    if i < |steps| && ok(steps[i]) {
      var tail := AttemptFrom(steps, ok, i + 1);
      AttemptFromOkBeforeLast(steps, ok, i + 1);
      var attempted := [steps[i]] + tail;
      assert AttemptFrom(steps, ok, i) == attempted;
      forall j | 0 <= j < |attempted| - 1
        ensures ok(attempted[j])
      {
        if j > 0 {
          assert attempted[j] == tail[j - 1];
        }
      }
    }
  }

  /** No step after a failing one is attempted. */
  lemma {:induction false} AttemptFromStopsAtFailure<T>(steps: seq<T>, ok: T -> bool, i: nat)
    requires i <= |steps|
    ensures forall j :: i <= j < |steps| && !ok(steps[j]) ==> |AttemptFrom(steps, ok, i)| <= j - i + 1
    decreases |steps| - i
  {
    if i < |steps| && ok(steps[i]) {
      AttemptFromStopsAtFailure(steps, ok, i + 1);
    }
  }

  /** A run that stops short of the last step stopped because of a failure. */
  lemma {:induction false} AttemptFromStopsOnlyOnFailure<T>(steps: seq<T>, ok: T -> bool, i: nat)
    requires i <= |steps|
    ensures |AttemptFrom(steps, ok, i)| < |steps| - i ==> StoppedByFailure(AttemptFrom(steps, ok, i), ok)
    decreases |steps| - i
  {
    if i < |steps| && ok(steps[i]) {
      var tail := AttemptFrom(steps, ok, i + 1);
      AttemptFromStopsOnlyOnFailure(steps, ok, i + 1);
      StoppedAfterSuccess([steps[i]], tail, ok);
    }
  }

  /** The attempted steps are a prefix of the steps; every attempted step but
      the last succeeded; no step after a failing one is attempted; and a run
      that attempted fewer than all steps stopped because of a failure. */
  lemma AttemptIsPrefix<T>(steps: seq<T>, ok: T -> bool)
    ensures var attempted := AttemptInOrder(steps, ok);
            && |attempted| <= |steps|
            && attempted == steps[..|attempted|]
            && (forall j :: 0 <= j < |attempted| - 1 ==> ok(attempted[j]))
            && (forall j :: 0 <= j < |steps| && !ok(steps[j]) ==> |attempted| <= j + 1)
            && (|attempted| < |steps| ==> StoppedByFailure(attempted, ok))
  {
    AttemptFromInOrder(steps, ok, 0);
    AttemptFromOkBeforeLast(steps, ok, 0);
    AttemptFromStopsAtFailure(steps, ok, 0);
    AttemptFromStopsOnlyOnFailure(steps, ok, 0);
  }

  /** Only given steps are attempted. */
  lemma AttemptedAreSteps<T>(steps: seq<T>, ok: T -> bool)
    ensures forall x :: x in AttemptInOrder(steps, ok) ==> x in steps
  {
    AttemptIsPrefix(steps, ok);
  }

  /** When every step from `i` on succeeds, all of them are attempted. */
  lemma {:induction false} AllSucceedFrom<T>(steps: seq<T>, ok: T -> bool, i: nat)
    requires i <= |steps|
    requires forall j :: i <= j < |steps| ==> ok(steps[j])
    ensures AttemptFrom(steps, ok, i) == steps[i..]
    decreases |steps| - i
  {
    if i < |steps| {
      AllSucceedFrom(steps, ok, i + 1);
      assert steps[i..] == [steps[i]] + steps[i + 1..];
    }
  }

  /** When every step succeeds, every step is attempted and the run did not stop. */
  lemma AllSucceed<T>(steps: seq<T>, ok: T -> bool)
    requires forall i :: 0 <= i < |steps| ==> ok(steps[i])
    ensures AttemptInOrder(steps, ok) == steps
    ensures !StoppedByFailure(steps, ok)
  {
    AllSucceedFrom(steps, ok, 0);
    assert steps[0..] == steps;
  }

  /** Started at `k`, with the first failure at `i`, exactly `steps[k..i + 1]`
      is attempted. */
  lemma {:induction false} FirstFailureFrom<T>(steps: seq<T>, ok: T -> bool, i: nat, k: nat)
    requires k <= i < |steps| && !ok(steps[i])
    requires forall j :: k <= j < i ==> ok(steps[j])
    ensures AttemptFrom(steps, ok, k) == steps[k..i + 1]
    decreases i - k
  {
    if k < i {
      FirstFailureFrom(steps, ok, i, k + 1);
      assert steps[k..i + 1] == [steps[k]] + steps[k + 1..i + 1];
    }
  }

  /** When the first failing step is at index `i`, exactly the steps `0..i` are
      attempted and the run stopped because of step `i`. */
  lemma FirstFailure<T>(steps: seq<T>, ok: T -> bool, i: nat)
    requires i < |steps| && !ok(steps[i])
    requires forall j :: 0 <= j < i ==> ok(steps[j])
    ensures AttemptInOrder(steps, ok) == steps[..i + 1]
    ensures StoppedByFailure(AttemptInOrder(steps, ok), ok)
  {
    FirstFailureFrom(steps, ok, i, 0);
    assert steps[0..i + 1] == steps[..i + 1];
  }

  /** A run whose steps so far all succeeded except the last, which failed,
      is the whole attempt, whatever steps would have followed. */
  lemma FailingPrefix<T>(done: seq<T>, rest: seq<T>, ok: T -> bool)
    requires done != [] && !ok(done[|done| - 1])
    requires forall j :: 0 <= j < |done| - 1 ==> ok(done[j])
    ensures AttemptInOrder(done + rest, ok) == done
    ensures StoppedByFailure(done, ok)
  {
    var steps := done + rest;
    assert steps[..|done|] == done;
    FirstFailure(steps, ok, |done| - 1);
  }

  /** The run stopped early exactly when some step fails. */
  lemma StoppedIffSomeFailure<T>(steps: seq<T>, ok: T -> bool)
    ensures StoppedByFailure(AttemptInOrder(steps, ok), ok)
            <==> exists i :: 0 <= i < |steps| && !ok(steps[i])
  {
    var attempted := AttemptInOrder(steps, ok);
    AttemptIsPrefix(steps, ok);
    if StoppedByFailure(attempted, ok) {
      assert !ok(steps[|attempted| - 1]);
    }
  }

  /** Past the end of `a`, a run over `a + b` is a run over `b`. */
  lemma {:induction false} AttemptFromShift<T>(a: seq<T>, b: seq<T>, ok: T -> bool, j: nat)
    requires j <= |b|
    ensures AttemptFrom(a + b, ok, |a| + j) == AttemptFrom(b, ok, j)
    decreases |b| - j
  {
    if j < |b| {
      assert (a + b)[|a| + j] == b[j];
      AttemptFromShift(a, b, ok, j + 1);
    }
  }

  /** A run that did not stop on a failure attempted every step, and every
      step succeeded. */
  lemma CompletedRun<T>(steps: seq<T>, ok: T -> bool)
    requires !StoppedByFailure(AttemptInOrder(steps, ok), ok)
    ensures AttemptInOrder(steps, ok) == steps
    ensures forall i :: 0 <= i < |steps| ==> ok(steps[i])
  {
    var attempted := AttemptInOrder(steps, ok);
    AttemptIsPrefix(steps, ok);
    assert |attempted| == |steps|;
    assert steps[..|steps|] == steps;
  }

  /** After a block whose last step succeeded, the run stopped because of a
      failure exactly when its continuation did. */
  lemma StoppedAfterSuccess<T>(done: seq<T>, more: seq<T>, ok: T -> bool)
    requires done == [] || ok(done[|done| - 1])
    ensures StoppedByFailure(done + more, ok) <==> StoppedByFailure(more, ok)
  {
    if more == [] {
      assert done + more == done;
    } else {
      assert (done + more)[|done + more| - 1] == more[|more| - 1];
    }
  }

  /** A successful step followed by successful steps: every step succeeded. */
  lemma PrependSucceeded<T>(x: T, rest: seq<T>, ok: T -> bool)
    requires ok(x) && forall j :: 0 <= j < |rest| ==> ok(rest[j])
    ensures forall j :: 0 <= j < |[x] + rest| ==> ok(([x] + rest)[j])
  {
    forall j | 0 <= j < |[x] + rest|
      ensures ok(([x] + rest)[j])
    {
      if j > 0 {
        assert ([x] + rest)[j] == rest[j - 1];
      }
    }
  }

  /** Moving one block from the pending part to the finished part of a
      sequence keeps the whole. */
  lemma AppendStep<T>(done: seq<T>, block: seq<T>, rest: seq<T>, all: seq<T>)
    requires done + (block + rest) == all
    ensures (done + block) + rest == all
  {
    assert (done + block) + rest == done + (block + rest);
  }
}
