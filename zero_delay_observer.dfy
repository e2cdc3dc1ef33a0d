/** The zero-delay observer loop: a single retained state at the current time
    k0, chronological measurement and input buffers, and an estimation query
    that runs an abstract one-step hook once per time increment from k0 to the
    requested time. */
module ZeroDelay {
  import opened TimeIndexed

  /** The failures the observer reports; each leaves the observer unchanged. */
  datatype Error =
    | NoState      // an estimate is requested while no state is retained
    | TimeError    // the requested time is not after the current time
    | MissingData  // a measurement or input the estimation needs is absent
    | OrderError   // an insertion that goes backward or leaves a gap

  datatype Outcome = Pass | Fail(error: Error)

  datatype Result<T> = Ok(value: T) | Err(error: Error)

  /** The one-step hook (oneStepEstimation_ of a derived class): from the
      observer's context, the retained state and the two buffers, it yields
      the state vector one time index later. */
  type OneStep<!X, !M, !U> = (Timed<X>, seq<Timed<M>>, seq<Timed<U>>) -> X

  /** The data an estimation from k0 to k needs: y_{k0+1} .. y_k and, for an
      observer with inputs (p > 0), u_{k0} .. u_{k-1}. */
  ghost predicate Feasible<M, U>(ys: seq<Timed<M>>, us: seq<Timed<U>>, withInputs: bool, k0: int, k: int)
  {
    Covers(ys, k0 + 1, k + 1) && (withInputs ==> Covers(us, k0, k))
  }

  /** The state reached by running the hook from `c` until time k. */
  function Propagate<X, M, U>(step: OneStep<X, M, U>, c: Timed<X>,
                              ys: seq<Timed<M>>, us: seq<Timed<U>>, k: Index): (r: Timed<X>)
    decreases k - c.time
  {
    if k <= c.time then c
    else Propagate(step, Timed(c.time + 1, step(c, ys, us)), ys, us, k)
  }

  /** The contexts the hook is run from on the way from `c` to time k. */
  function Trace<X, M, U>(step: OneStep<X, M, U>, c: Timed<X>,
                          ys: seq<Timed<M>>, us: seq<Timed<U>>, k: Index): (r: seq<Timed<X>>)
    decreases k - c.time
  {
    if k <= c.time then []
    else [c] + Trace(step, Timed(c.time + 1, step(c, ys, us)), ys, us, k)
  }

  /** Propagating from k0 to a later k ends exactly at time k. */
  lemma {:induction false} PropagateTime<X, M, U>(step: OneStep<X, M, U>, c: Timed<X>,
                                                  ys: seq<Timed<M>>, us: seq<Timed<U>>, k: Index)
    requires c.time <= k
    ensures Propagate(step, c, ys, us, k).time == k
    decreases k - c.time
  {
    if c.time < k {
      PropagateTime(step, Timed(c.time + 1, step(c, ys, us)), ys, us, k);
    }
  }

  /** The multi-step estimation is a composition of transitions: stopping at
      an intermediate time j and resuming from there gives the same state. */
  lemma {:induction false} PropagateSplit<X, M, U>(step: OneStep<X, M, U>, c: Timed<X>,
                                                   ys: seq<Timed<M>>, us: seq<Timed<U>>,
                                                   j: Index, k: Index)
    requires c.time <= j <= k
    ensures Propagate(step, c, ys, us, k) == Propagate(step, Propagate(step, c, ys, us, j), ys, us, k)
    decreases j - c.time
  {
    if c.time < j {
      PropagateSplit(step, Timed(c.time + 1, step(c, ys, us)), ys, us, j, k);
    }
  }

  /** Each transition advances the time by one and applies the hook once to
      the state of the previous time. */
  lemma PropagateLast<X, M, U>(step: OneStep<X, M, U>, c: Timed<X>,
                               ys: seq<Timed<M>>, us: seq<Timed<U>>, k: Index)
    requires c.time <= k < IndexLimit - 1
    ensures Propagate(step, c, ys, us, k + 1)
         == Timed(k + 1, step(Propagate(step, c, ys, us, k), ys, us))
  {
    PropagateSplit(step, c, ys, us, k, k + 1);
    PropagateTime(step, c, ys, us, k);
  }

  /** From k0 to k the hook runs exactly k - k0 times, the i-th time from the
      estimate at k0 + i, and the final estimate is its last result. */
  lemma {:induction false} TraceShape<X, M, U>(step: OneStep<X, M, U>, c: Timed<X>,
                                               ys: seq<Timed<M>>, us: seq<Timed<U>>, k: Index)
    requires c.time <= k
    ensures |Trace(step, c, ys, us, k)| == k - c.time
    ensures forall i :: 0 <= i < |Trace(step, c, ys, us, k)| ==>
              Trace(step, c, ys, us, k)[i] == Propagate(step, c, ys, us, c.time + i)
    ensures c.time < k ==>
              Propagate(step, c, ys, us, k).value == step(Trace(step, c, ys, us, k)[k - c.time - 1], ys, us)
    decreases k - c.time
  {
    if c.time < k {
      var next := Timed(c.time + 1, step(c, ys, us));
      TraceShape(step, next, ys, us, k);
      var t := Trace(step, c, ys, us, k);
      assert t == [c] + Trace(step, next, ys, us, k);
      forall i | 0 <= i < |t|
        ensures t[i] == Propagate(step, c, ys, us, c.time + i)
      {
        if i > 0 {
          assert t[i] == Trace(step, next, ys, us, k)[i - 1];
        }
      }
      PropagateLast(step, c, ys, us, k - 1);
    }
  }

  /** A hook of the classical zero-delay kind: the state at k0, the input at
      k0 and the measurement at k0 + 1 are all it reads from the buffers. */
  ghost predicate ZeroDelayHook<X(!new), M(!new), U(!new)>(step: OneStep<X, M, U>)
  {
    forall c: Timed<X>, ys: seq<Timed<M>>, ys': seq<Timed<M>>, us: seq<Timed<U>>, us': seq<Timed<U>> ::
      At(ys, c.time + 1) == At(ys', c.time + 1) && At(us, c.time) == At(us', c.time)
      ==> step(c, ys, us) == step(c, ys', us')
  }

  /** Two buffer pairs hold the same u_i and the same y_{i+1}. */
  ghost predicate AgreeAt<M, U>(ys: seq<Timed<M>>, us: seq<Timed<U>>,
                                ys': seq<Timed<M>>, us': seq<Timed<U>>, i: int)
  {
    At(ys, i + 1) == At(ys', i + 1) && At(us, i) == At(us', i)
  }

  /** With such a hook, the estimate at k depends on the buffers only through
      y_{k0+1} .. y_k and u_{k0} .. u_{k-1}. */
  lemma {:induction false} PropagateLocal<X(!new), M(!new), U(!new)>(step: OneStep<X, M, U>, c: Timed<X>,
                                                   ys: seq<Timed<M>>, us: seq<Timed<U>>,
                                                   ys': seq<Timed<M>>, us': seq<Timed<U>>, k: Index)
    requires ZeroDelayHook(step)
    requires forall i :: c.time <= i < k ==> AgreeAt(ys, us, ys', us', i)
    ensures Propagate(step, c, ys, us, k) == Propagate(step, c, ys', us', k)
    decreases k - c.time
  {
    if c.time < k {
      assert AgreeAt(ys, us, ys', us', c.time);
      assert step(c, ys, us) == step(c, ys', us');
      PropagateLocal(step, Timed(c.time + 1, step(c, ys, us)), ys, us, ys', us', k);
    }
  }

  /** Without excitation (the hook returns the state it is given) the
      estimate keeps the state's value and only its time advances. */
  lemma {:induction false} PropagateAtRest<X, M, U>(step: OneStep<X, M, U>, c: Timed<X>,
                                                    ys: seq<Timed<M>>, us: seq<Timed<U>>, k: Index)
    requires forall t: Index :: step(Timed(t, c.value), ys, us) == c.value
    ensures Propagate(step, c, ys, us, k).value == c.value
    decreases k - c.time
  {
    if c.time < k {
      assert step(c, ys, us) == c.value;
      PropagateAtRest(step, Timed(c.time + 1, c.value), ys, us, k);
    }
  }

  /** ZeroDelayObserver<n, m, p>: the state, measurement and input vectors of
      fixed sizes n, m and p are the type parameters X, M and U. */
  class ZeroDelayObserver<X, M, U> {
    /** The derived class's oneStepEstimation_. */
    const oneStep: OneStep<X, M, U>
    /** Whether the input size p is positive; with the default p = 0 the
        observer has no inputs and estimation never waits for one. */
    const hasInputs: bool
    /** x_: the single retained state; its time index is the current time k0. */
    var state: Option<Timed<X>>
    /** y_: the measurement buffer. */
    var measurements: seq<Timed<M>>
    /** u_: the input buffer. */
    var inputs: seq<Timed<U>>
    /** The contexts the hook has been run from, in order. */
    ghost var calls: seq<Timed<X>>

    ghost predicate Valid()
      reads this
    {
      Chronological(measurements) && Chronological(inputs)
    }

    constructor (oneStep: OneStep<X, M, U>, hasInputs: bool)
      ensures Valid() && this.oneStep == oneStep && this.hasInputs == hasInputs
      ensures state == None && measurements == [] && inputs == [] && calls == []
    {
      this.oneStep := oneStep;
      this.hasInputs := hasInputs;
      state, measurements, inputs := None, [], [];
      calls := [];
    }

    /** Retains xk at time k as the only state; k becomes the current time. */
    method SetState(xk: X, k: Index)
      requires Valid()
      modifies this
      ensures Valid()
      ensures state == Some(Timed(k, xk))
      ensures measurements == old(measurements) && inputs == old(inputs) && calls == old(calls)
    {
      state := Some(Timed(k, xk));
    }

    /** Forgets the retained state. */
    method ClearState()
      requires Valid()
      modifies this
      ensures Valid()
      ensures state == None
      ensures measurements == old(measurements) && inputs == old(inputs) && calls == old(calls)
    {
      state := None;
    }

    /** Appends yk at time k; refused unless k follows the last index. */
    method SetMeasurement(yk: M, k: Index) returns (r: Outcome)
      requires Valid()
      modifies this
      ensures Valid()
      ensures r == if Appendable(old(measurements), k) then Pass else Fail(OrderError)
      ensures measurements == if r.Pass? then old(measurements) + [Timed(k, yk)] else old(measurements)
      ensures state == old(state) && inputs == old(inputs) && calls == old(calls)
    {
      if !Appendable(measurements, k) {
        return Fail(OrderError);
      }
      AppendChronological(measurements, k, yk);
      measurements := measurements + [Timed(k, yk)];
      r := Pass;
    }

    /** Empties the measurement buffer. */
    method ClearMeasurements()
      requires Valid()
      modifies this
      ensures Valid()
      ensures measurements == []
      ensures state == old(state) && inputs == old(inputs) && calls == old(calls)
    {
      measurements := [];
    }

    /** Appends uk at time k; refused unless k follows the last index. */
    method SetInput(uk: U, k: Index) returns (r: Outcome)
      requires Valid()
      modifies this
      ensures Valid()
      ensures r == if Appendable(old(inputs), k) then Pass else Fail(OrderError)
      ensures inputs == if r.Pass? then old(inputs) + [Timed(k, uk)] else old(inputs)
      ensures state == old(state) && measurements == old(measurements) && calls == old(calls)
    {
      if !Appendable(inputs, k) {
        return Fail(OrderError);
      }
      AppendChronological(inputs, k, uk);
      inputs := inputs + [Timed(k, uk)];
      r := Pass;
    }

    /** Empties the input buffer. */
    method ClearInputs()
      requires Valid()
      modifies this
      ensures Valid()
      ensures inputs == []
      ensures state == old(state) && measurements == old(measurements) && calls == old(calls)
    {
      inputs := [];
    }

    /** The current time k0, if a state is retained. */
    method GetCurrentTime() returns (t: Option<Index>)
      ensures t.Some? <==> state.Some?
      ensures t.Some? ==> t.value == state.value.time
    {
      t := if state.Some? then Some(state.value.time) else None;
    }

    /** Runs the observer loop up to time k and returns the estimate at k,
        which becomes the retained state. */
    method GetEstimateState(k: Index) returns (r: Result<X>)
      requires Valid()
      modifies this
      ensures Valid()
      ensures measurements == old(measurements) && inputs == old(inputs)
      ensures r.Err? ==> unchanged(this)
      ensures old(state).None? ==> r == Err(NoState)
      ensures old(state).Some? && k <= old(state).value.time ==> r == Err(TimeError)
      ensures old(state).Some? && k > old(state).value.time
              && !Feasible(measurements, inputs, hasInputs, old(state).value.time, k)
              ==> r == Err(MissingData)
      ensures r.Ok? <==> old(state).Some? && k > old(state).value.time
                         && Feasible(measurements, inputs, hasInputs, old(state).value.time, k)
      ensures r.Ok? ==> state == Some(Timed(k, r.value))
      ensures r.Ok? ==> state == Some(Propagate(oneStep, old(state).value, measurements, inputs, k))
      ensures r.Ok? ==> calls == old(calls) + Trace(oneStep, old(state).value, measurements, inputs, k)
    {
      if state.None? {
        return Err(NoState);
      }
      var k0 := state.value.time;
      if k <= k0 {
        return Err(TimeError);
      }
      SpansIffCovers(measurements, k0 + 1, k + 1);
      SpansIffCovers(inputs, k0, k);
      if !(Spans(measurements, k0 + 1, k + 1) && (!hasInputs || Spans(inputs, k0, k))) {
        return Err(MissingData);
      }
      ghost var start := state.value;
      while state.value.time < k
        invariant state.Some? && start.time <= state.value.time <= k
        invariant Propagate(oneStep, state.value, measurements, inputs, k)
               == Propagate(oneStep, start, measurements, inputs, k)
        invariant calls + Trace(oneStep, state.value, measurements, inputs, k)
               == old(calls) + Trace(oneStep, start, measurements, inputs, k)
        invariant measurements == old(measurements) && inputs == old(inputs)
        decreases k - state.value.time
      {
        var next := oneStep(state.value, measurements, inputs);
        calls := calls + [state.value];
        state := Some(Timed(state.value.time + 1, next));
      }
      r := Ok(state.value.value);
    }
  }

  /** A caller's session: with only y_1 buffered, the estimate at 2 is
      refused for missing data; a measurement at 3 is refused as a gap; once
      y_2, u_0 and u_1 are buffered the estimate at 2 is delivered, and asking
      for time 2 again is refused as a time error. */
  method FeasibilitySession(x0: int, y1: int, y2: int, u0: int, u1: int)
    returns (early: Result<int>, gap: Outcome, late: Result<int>, again: Result<int>)
    ensures early == Err(MissingData)
    ensures gap == Fail(OrderError)
    ensures late == Ok(x0)
    ensures again == Err(TimeError)
  {
    var hold: OneStep<int, int, int> := (c: Timed<int>, ys: seq<Timed<int>>, us: seq<Timed<int>>) => c.value;
    var observer := new ZeroDelayObserver(hold, true);
    observer.SetState(x0, 0);
    var ok := observer.SetMeasurement(y1, 1);
    SpansIffCovers(observer.measurements, 1, 3);
    early := observer.GetEstimateState(2);
    gap := observer.SetMeasurement(y1, 3);
    ok := observer.SetMeasurement(y2, 2);
    ok := observer.SetInput(u0, 0);
    ok := observer.SetInput(u1, 1);
    SpansIffCovers(observer.measurements, 1, 3);
    SpansIffCovers(observer.inputs, 0, 2);
    PropagateAtRest(hold, Timed(0, x0), observer.measurements, observer.inputs, 2);
    late := observer.GetEstimateState(2);
    again := observer.GetEstimateState(2);
  }

  /** An observer without inputs (p = 0): from a state at 0, the measurement
      y_1 alone is enough to deliver the estimate at 1. */
  method InputFreeSession(x0: int, y1: int) returns (estimate: Result<int>)
    ensures estimate == Ok(x0)
  {
    var hold: OneStep<int, int, ()> := (c: Timed<int>, ys: seq<Timed<int>>, us: seq<Timed<()>>) => c.value;
    var observer := new ZeroDelayObserver(hold, false);
    observer.SetState(x0, 0);
    var ok := observer.SetMeasurement(y1, 1);
    SpansIffCovers(observer.measurements, 1, 2);
    estimate := observer.GetEstimateState(1);
  }
}
