# Zero-delay observer loop

This project models `ZeroDelayObserver<n, m, p>`, the base class of the
library's zero-delay state observers. The observer keeps three time-indexed
stores:

- a single retained state `x_`, whose time index is the current time k0;
- a chronological measurement buffer `y_`;
- a chronological input buffer `u_`.

It exposes:

- setters and clearers for each store;
- `getCurrentTime`;
- `getEstimateState(k)`, which checks causality (k > k0) and data
  availability (y_{k0+1} .. y_k and, when p > 0, u_{k0} .. u_{k-1}), then
  runs the derived class's `oneStepEstimation_` once per time increment until
  the current time reaches k.

Files:

- `time_indexed.dfy` (module `TimeIndexed`) holds the time-tagged values
  (`Timed`), the buffer discipline (`Chronological`: contiguous, strictly
  increasing indices), the window tests and the insertion rule.
- `zero_delay_observer.dfy` (module `ZeroDelay`) holds the class
  `ZeroDelayObserver` with fields `state`, `measurements` and `inputs`
  (`x_`, `y_`, `u_`).
- That file also holds the specification functions `Propagate` (the state
  reached by repeated hook steps) and `Trace` (the contexts the hook runs
  from), with lemmas about them, and a caller session.

Modelling choices:

- The state, measurement and input vectors have fixed sizes n, m and p, so
  their size is part of their type. They are the type parameters `X`, `M`
  and `U`.
- The one-step hook is a function value given at construction. It sees the
  observer's context: the retained state and both buffers.
- The input size p defaults to 0 (zero-delay-observer.hpp:35, :40). A flag
  `hasInputs` (p > 0), set at construction, says whether the estimation
  needs u_{k0} .. u_{k-1}; an observer without inputs needs only the
  measurements.
- A ghost field `calls` records each context the hook runs from, so the
  contract of `GetEstimateState` can say how often the hook ran and from
  which states.
- Time indices are `unsigned` in the header, so the model bounds them below
  2^32 (`Index`).
- The time exception of zero-delay-observer.hpp:76-77 is returned as a
  value (`TimeError`). So are the broken caller obligations of lines 55-56
  and 63-64 (`OrderError`) and of lines 78-85 (`MissingData`), and an
  estimation request while no state is retained (`NoState`). The header does
  not say what happens when those obligations are broken. Refusing an
  out-of-order append and leaving the buffer unchanged is this model's own
  choice. `Outcome` is returned by the setters and `Result` by the
  estimation.
- Every error leaves the observer unchanged. Feasibility is checked for the
  whole window before any step runs.

Readings of the header:

- `getEstimateState(k)` with k equal to the current time is a time error:
  "superior to the current time k_0" (zero-delay-observer.hpp:74-77) is read
  as strictly greater.
- `setState(x, k)` replaces the single retained state, and k becomes the
  current time, whatever the previous k0 was. Lines 46-48 say only the value
  with the highest index is kept, which is the same thing when states are
  set in increasing time. For an earlier k the model follows the single
  state slot `x_` (line 103), which holds only the state last set.

## Model

| member | source | states |
|---|---|---|
| TimeIndexed.SpansIffCovers | include/state-observer/zero-delay-observer.hpp:78-85 | on a chronological buffer, comparing a window with the first and last stored index decides exactly whether every index of the window is present (both directions) |
| TimeIndexed.At | include/state-observer/zero-delay-observer.hpp:101-105 | lookup by time index in a chronological buffer finds a value exactly when that index is stored, and the value found is the one stored with that index |
| TimeIndexed.AppendChronological | include/state-observer/zero-delay-observer.hpp:55-66 | appending (k, v) keeps a buffer contiguous and strictly increasing if and only if the buffer is empty or k is its last index plus one |
| ZeroDelay.PropagateTime | include/state-observer/zero-delay-observer.hpp:87 | running the loop from k0 to a later k leaves the current time equal to k |
| ZeroDelay.PropagateSplit | include/state-observer/zero-delay-observer.hpp:96-99 | the multi-step estimation is a composition of one-step transitions: stopping at any intermediate time and resuming gives the same state |
| ZeroDelay.PropagateLast | include/state-observer/zero-delay-observer.hpp:96-99 | one transition advances the time by exactly one and its value is the hook applied to the state of the previous time |
| ZeroDelay.TraceShape | include/state-observer/zero-delay-observer.hpp:82-89 | from k0 to k the hook runs exactly k - k0 times, the i-th time from the estimate at k0 + i, and the final estimate is the hook's last result |
| ZeroDelay.PropagateLocal | include/state-observer/zero-delay-observer.hpp:5-9 | for a hook that reads only the state and input at k0 and the measurement at k0 + 1, the estimate at k depends on the buffers only through y_{k0+1} .. y_k and u_{k0} .. u_{k-1} |
| ZeroDelay.PropagateAtRest | include/state-observer/zero-delay-observer.hpp:96-99 | when the hook returns the state it is given (no excitation), the estimate keeps the initial value at every later time |
| ZeroDelay.ZeroDelayObserver.constructor | include/state-observer/zero-delay-observer.hpp:101-105 | a new observer retains no state, has empty measurement and input buffers, and records whether it has inputs (p > 0) |
| ZeroDelay.ZeroDelayObserver.SetState | include/state-observer/zero-delay-observer.hpp:46-50 | afterwards exactly one state is retained, the given one at time k, so the current time is k; the buffers are untouched |
| ZeroDelay.ZeroDelayObserver.ClearState | include/state-observer/zero-delay-observer.hpp:52-53 | the state slot is emptied; measurements and inputs are untouched |
| ZeroDelay.ZeroDelayObserver.SetMeasurement | include/state-observer/zero-delay-observer.hpp:55-58 | accepted exactly when the buffer is empty or k is the last index plus one; then the buffer is the old one with (k, y) appended, otherwise an ordering error and the buffer is unchanged; state and inputs untouched; buffers stay chronological |
| ZeroDelay.ZeroDelayObserver.ClearMeasurements | include/state-observer/zero-delay-observer.hpp:60-61 | the measurement buffer is emptied; state and inputs are untouched |
| ZeroDelay.ZeroDelayObserver.SetInput | include/state-observer/zero-delay-observer.hpp:63-66 | the same chronological, gap-free append rule on the input buffer; state and measurements untouched |
| ZeroDelay.ZeroDelayObserver.ClearInputs | include/state-observer/zero-delay-observer.hpp:68-69 | the input buffer is emptied; state and measurements are untouched |
| ZeroDelay.ZeroDelayObserver.GetCurrentTime | include/state-observer/zero-delay-observer.hpp:91-92 | returns the time index of the retained state, and nothing when no state is retained |
| ZeroDelay.ZeroDelayObserver.GetEstimateState | include/state-observer/zero-delay-observer.hpp:71-89 | no state: error; k <= k0: time error; k > k0 with a missing y_{k0+1} .. y_k or, when the observer has inputs, a missing u_{k0} .. u_{k-1}: missing-data error; every error changes nothing; succeeds exactly when k > k0 and all that data is present, and then the hook has run once from each state at k0 .. k-1, the retained state is the propagated one at time k, and it is the returned value |
| ZeroDelay.FeasibilitySession | include/state-observer/zero-delay-observer.hpp:78-85 | from a state at 0 with only y_1 buffered, the estimate at 2 fails for missing data; a measurement at 3 is refused as a gap; with y_2, u_0 and u_1 added the estimate at 2 is delivered; asking for 2 again is a time error |
| ZeroDelay.InputFreeSession | include/state-observer/zero-delay-observer.hpp:33-40 | an observer with the default input size p = 0 delivers the estimate at 1 from a state at 0 and the measurement y_1 alone, with no input buffered |

## Left out

- The rigid-body kinematics integrator (`integrateKinematics`, `integrateConfiguration`) is not part of this model. It is floating-point rotation integration (exponential map, Rodrigues' formula), declared only as signatures in its header.
- The unit test program (simulation, noise generation, the extended Kalman filter, file output) is not part of this model. It is a program entry point over floating point and I/O.
- Concrete one-step hooks (Kalman gain and covariance propagation) are not modelled. The hook is an arbitrary deterministic function of the observer's context.
- The internals of the observer base class (`observer-base.hpp`) are not part of this model. States, measurements and inputs are (time index, vector) pairs, and vector sizes are fixed by the type.
- Eviction of consumed measurements and inputs is not modelled. The implementation file `zero-delay-observer.hxx` (included at zero-delay-observer.hpp:109) is not modelled; the model follows the header's documentation, which does not mention eviction. The model keeps every entry, so `GetEstimateState` leaves the buffers as they were. Its feasibility test reads only the window the estimation needs.
- 32-bit wrap-around of `unsigned` indices is not modelled. An append after index 2^32 - 1 is refused as an ordering error, because its last-plus-one is not a valid index.
- ZeroDelay.ZeroDelayObserver.GetCurrentTime: returns no value when no state is retained. The header does not say what happens then.
- Threading is not modelled. The observer is used by one caller at a time.
