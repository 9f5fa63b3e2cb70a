/** Running fallible steps in order and stopping at the first error: what a Go
    loop does that fills a slice and returns as soon as one element fails. */
module Results {
  import opened Wrappers
  import opened Status

  /** The values of all steps, or the error of the first step that failed. */
  function Sequence<T>(rs: seq<Result<T, Error>>): (r: Result<seq<T>, Error>)
    ensures r.Success? ==> |r.value| == |rs|
  {
    if |rs| == 0 then Success([])
    else
      var p := Sequence(rs[..|rs| - 1]);
      if p.Failure? then p
      else if rs[|rs| - 1].Failure? then Failure(rs[|rs| - 1].error)
      else Success(p.value + [rs[|rs| - 1].value])
  }

  /** The whole run succeeds iff every step does, and then it holds every
      step's value in order. */
  lemma {:induction false} SequenceSuccess<T>(rs: seq<Result<T, Error>>)
    ensures Sequence(rs).Success? <==> forall i :: 0 <= i < |rs| ==> rs[i].Success?
    ensures Sequence(rs).Success? ==> forall i :: 0 <= i < |rs| ==> Sequence(rs).value[i] == rs[i].value
  {
    if |rs| > 0 {
      var front := rs[..|rs| - 1];
      SequenceSuccess(front);
      assert forall i :: 0 <= i < |front| ==> front[i] == rs[i];
    }
  }

  /** A failed run reports the error of the first failed step. */
  lemma {:induction false} SequenceFailure<T>(rs: seq<Result<T, Error>>, k: nat)
    requires k < |rs| && rs[k].Failure?
    requires forall j :: 0 <= j < k ==> rs[j].Success?
    ensures Sequence(rs) == Failure(rs[k].error)
  {
    if k < |rs| - 1 {
      var front := rs[..|rs| - 1];
      assert front[k] == rs[k];
      SequenceFailure(front, k);
    } else {
      var front := rs[..|rs| - 1];
      SequenceSuccess(front);
      assert forall j :: 0 <= j < |front| ==> front[j] == rs[j];
    }
  }

  /** One more step of a loop that fills a slice: a run that has succeeded so
      far extends by the next step. */
  lemma SequenceStep<T>(rs: seq<Result<T, Error>>, i: nat)
    requires i < |rs|
    ensures Sequence(rs[..i + 1]) ==
      if Sequence(rs[..i]).Failure? then Sequence(rs[..i])
      else if rs[i].Failure? then Failure(rs[i].error)
      else Success(Sequence(rs[..i]).value + [rs[i].value])
  {
    assert rs[..i + 1][..i] == rs[..i];
  }

  /** A loop step that succeeds appends its value to the values so far. */
  lemma SequenceGrow<T>(rs: seq<Result<T, Error>>, i: nat, done: seq<T>, v: Result<T, Error>)
    requires i < |rs| && rs[i] == v && v.Success?
    requires Sequence(rs[..i]) == Success(done)
    ensures Sequence(rs[..i + 1]) == Success(done + [v.value])
  {
    SequenceStep(rs, i);
  }

  /** A loop step that fails after a successful prefix decides the whole run. */
  lemma SequenceFailsAt<T>(rs: seq<Result<T, Error>>, i: nat, v: Result<T, Error>)
    requires i < |rs| && rs[i] == v && v.Failure?
    requires Sequence(rs[..i]).Success?
    ensures Sequence(rs) == Failure(v.error)
  {
    SequenceStep(rs, i);
    SequenceStops(rs, i + 1);
  }

  /** Once a prefix has failed, the whole run fails with the same error. */
  lemma {:induction false} SequenceStops<T>(rs: seq<Result<T, Error>>, n: nat)
    requires n <= |rs| && Sequence(rs[..n]).Failure?
    ensures Sequence(rs) == Sequence(rs[..n])
    decreases |rs| - n
  {
    if n < |rs| {
      SequenceStep(rs, n);
      SequenceStops(rs, n + 1);
    } else {
      assert rs[..n] == rs;
    }
  }

  /** A failed run reports the error of one of its steps. */
  lemma {:induction false} SequenceError<T>(rs: seq<Result<T, Error>>) returns (k: nat)
    requires Sequence(rs).Failure?
    ensures k < |rs| && rs[k].Failure? && Sequence(rs).error == rs[k].error
  {
    var front := rs[..|rs| - 1];
    if Sequence(front).Failure? {
      k := SequenceError(front);
      assert front[k] == rs[k];
    } else {
      k := |rs| - 1;
    }
  }
}
