/** The incremental history cache of data.py: the `HistoryMath` object, its update step and
    the maximum it computes over the cached samples. */
module Data {
  import opened Wrappers

  /** An instant in UTC, in microseconds since the Unix epoch (a timezone-aware datetime). */
  type Instant = int

  const MicrosPerSecond: int := 1_000_000

  /** `datetime.min` in UTC: 0001-01-01T00:00:00, epoch second -62135596800. */
  const MinTimeUtc: Instant := -62_135_596_800 * MicrosPerSecond

  /** The whole epoch second an instant falls in (`math.floor` of its timestamp). */
  function FlooredTimestamp(t: Instant): (ts: int)
    ensures ts * MicrosPerSecond <= t < (ts + 1) * MicrosPerSecond
  {
    t / MicrosPerSecond
  }

  /** A window `(start, end)`. */
  datatype Period = Period(start: Instant, end: Instant)

  const MinPeriod: Period := Period(MinTimeUtc, MinTimeUtc)

  /** `HistoryMathState`: the computed maximum and the window it was computed for. */
  datatype HistoryMathState = HistoryMathState(maxValue: Option<real>, period: Period)

  /** `HistoryState`: one cached sample, only the state string and its change time. */
  datatype HistoryState = HistoryState(state: string, lastChanged: Instant)

  /** A recorded state of the monitored entity. `lastUpdated` stands for the rest of the
      recorder's `State` object, which the reduction to `HistoryState` discards. */
  datatype EntityState = EntityState(state: string, lastChanged: Instant, lastUpdated: Instant)

  /** The payload of a state-changed event; `newState` is `None` when the entity was removed. */
  datatype StateChangedEvent = StateChangedEvent(newState: Option<EntityState>)

  /** The recorder's answer for one entity and a window given by floored timestamps:
      the entity's states in order, or `None` where the query raises. */
  type Recorder = (string, int, int) -> Option<seq<EntityState>>

  /** The error an update propagates when the recorder query raises. */
  datatype UpdateError = RecorderQueryFailed

  /** `float(s)`: the number a state string denotes, or `None` where Python raises ValueError. */
  type Parser = string -> Option<real>

  /** The list comprehension of `_async_history_from_db`: each recorded state reduced to a
      `HistoryState`, in the recorder's order. */
  function Project(states: seq<EntityState>): seq<HistoryState>
  {
    seq(|states|, i requires 0 <= i < |states| => HistoryState(states[i].state, states[i].lastChanged))
  }

  // ---------------------------------------------------------------------------------------
  // The maximum over the cache (`_async_compute_max_value`)

  /** A sample takes part in the maximum when it is not dated after `nowTs` and its state
      parses as a number. */
  predicate Contributes(sample: HistoryState, nowTs: int, parse: Parser)
  {
    FlooredTimestamp(sample.lastChanged) <= nowTs && parse(sample.state).Some?
  }

  /** One turn of the loop body: skip future samples and non-numeric states, otherwise keep
      the larger of the value and the maximum so far. */
  function Accumulate(maxValue: Option<real>, sample: HistoryState, nowTs: int, parse: Parser): Option<real>
  {
    if FlooredTimestamp(sample.lastChanged) > nowTs then maxValue
    else match parse(sample.state)
      case None => maxValue
      case Some(v) => if maxValue.None? || v > maxValue.value then Some(v) else maxValue
  }

  /** The value the loop of `_async_compute_max_value` ends with, folded in list order:
      `None` exactly when no sample contributes, otherwise the value of a contributing
      sample that is at least the value of every contributing sample. */
  function MaxValue(samples: seq<HistoryState>, nowTs: int, parse: Parser): (r: Option<real>)
    ensures r.None? <==> forall i :: 0 <= i < |samples| ==> !Contributes(samples[i], nowTs, parse)
    ensures r.Some? ==> exists i :: 0 <= i < |samples| && Contributes(samples[i], nowTs, parse)
                                    && parse(samples[i].state) == Some(r.value)
    ensures r.Some? ==> forall i :: 0 <= i < |samples| && Contributes(samples[i], nowTs, parse)
                                    ==> parse(samples[i].state).value <= r.value
    decreases |samples|
  {
    if samples == [] then None
    else
      var n := |samples| - 1;
      var prefix := samples[..n];
      var m := MaxValue(prefix, nowTs, parse);
      assert forall i :: 0 <= i < n ==> prefix[i] == samples[i];
      Accumulate(m, samples[n], nowTs, parse)
  }

  // ---------------------------------------------------------------------------------------
  // The update step (`async_update`) as a function of the object's fields

  /** The four fields of a `HistoryMath` object. */
  datatype Snapshot = Snapshot(
    period: Period,
    state: HistoryMathState,
    historyCurrentPeriod: seq<HistoryState>,
    previousRunBeforeStart: bool)

  /** A fresh object: no samples, flag clear, the minimum window and no value. */
  const InitialSnapshot: Snapshot := Snapshot(MinPeriod, HistoryMathState(None, MinPeriod), [], false)

  /** Which of the update's paths ran. */
  datatype Branch =
    | FutureWindow
    | KeptCache(appended: bool, fastPath: bool)
    | Refetched
    | RefetchFailed
  {
    /** The recorder was queried (successfully or not). */
    predicate QueriesRecorder() { Refetched? || RefetchFailed? }
  }

  /** The fields after an update, the value it returns (or the error it raises) and the path
      it took. */
  datatype Outcome = Outcome(next: Snapshot, result: Result<HistoryMathState, UpdateError>, branch: Branch)

  /** The test that lets the update keep its cached samples instead of querying the recorder:
      the previous run did not find the window in the future, the start second is unchanged,
      and the end second is unchanged or has moved forward from an end that had passed. */
  predicate CacheValid(previousRunBeforeStart: bool, previous: Period, current: Period, nowTs: int)
  {
    var previousStartTs, previousEndTs := FlooredTimestamp(previous.start), FlooredTimestamp(previous.end);
    var currentStartTs, currentEndTs := FlooredTimestamp(current.start), FlooredTimestamp(current.end);
    && !previousRunBeforeStart
    && currentStartTs == previousStartTs
    && (currentEndTs == previousEndTs || (currentEndTs >= previousEndTs && previousEndTs <= nowTs))
  }

  /** The sample a live event contributes to a kept cache: only a non-null new state whose
      change second lies in the window's seconds, both ends included. */
  function EventSample(event: Option<StateChangedEvent>, current: Period): Option<HistoryState>
  {
    match event
    case None => None
    case Some(e) =>
      match e.newState
      case None => None
      case Some(newState) =>
        var ts := FlooredTimestamp(newState.lastChanged);
        if FlooredTimestamp(current.start) <= ts <= FlooredTimestamp(current.end) then
          Some(HistoryState(newState.state, newState.lastChanged))
        else None
  }

  /** One call of `async_update` on object fields `s`, for the resolved window `window`,
      the current instant `now`, the optional triggering event, the recorder and the parser. */
  function Step(s: Snapshot, entityId: string, window: Period, now: Instant,
                event: Option<StateChangedEvent>, recorder: Recorder, parse: Parser): Outcome
  {
    var nowTs := FlooredTimestamp(now);
    var startTs, endTs := FlooredTimestamp(window.start), FlooredTimestamp(window.end);
    if startTs > nowTs then
      var r := HistoryMathState(None, window);
      Outcome(Snapshot(window, r, [], true), Success(r), FutureWindow)
    else if CacheValid(s.previousRunBeforeStart, s.period, window, nowTs) then
      var sample := EventSample(event, window);
      var history := if sample.Some? then s.historyCurrentPeriod + [sample.value] else s.historyCurrentPeriod;
      if sample.None? && endTs < nowTs then
        Outcome(Snapshot(window, s.state, history, s.previousRunBeforeStart), Success(s.state), KeptCache(false, true))
      else
        var r := HistoryMathState(MaxValue(history, nowTs, parse), window);
        Outcome(Snapshot(window, r, history, s.previousRunBeforeStart), Success(r), KeptCache(sample.Some?, false))
    else
      match recorder(entityId, startTs, endTs)
      case None =>
        // the query raises: only the stored window has changed
        Outcome(s.(period := window), Failure(RecorderQueryFailed), RefetchFailed)
      case Some(states) =>
        var history := Project(states);
        var r := HistoryMathState(MaxValue(history, nowTs, parse), window);
        Outcome(Snapshot(window, r, history, false), Success(r), Refetched)
  }

  // ---------------------------------------------------------------------------------------
  // The object

  /** `HistoryMath`: the cache of one monitored entity's samples for the current window. */
  class HistoryMath {
    const entityId: string
    var period: Period
    var state: HistoryMathState
    var historyCurrentPeriod: seq<HistoryState>
    var previousRunBeforeStart: bool

    function Model(): Snapshot
      reads this
    {
      Snapshot(period, state, historyCurrentPeriod, previousRunBeforeStart)
    }

    constructor (entityId: string)
      ensures this.entityId == entityId
      ensures period == MinPeriod && state == HistoryMathState(None, MinPeriod)
      ensures historyCurrentPeriod == [] && !previousRunBeforeStart
      ensures Model() == InitialSnapshot
    {
      this.entityId := entityId;
      period := MinPeriod;
      state := HistoryMathState(None, MinPeriod);
      historyCurrentPeriod := [];
      previousRunBeforeStart := false;
    }

    /** `async_update`: changes the fields and returns the result (or the recorder's error)
        as `Step` says. */
    method Update(event: Option<StateChangedEvent>, window: Period, now: Instant,
                  recorder: Recorder, parse: Parser) returns (result: Result<HistoryMathState, UpdateError>)
      modifies this
      ensures var o := Step(old(Model()), entityId, window, now, event, recorder, parse);
              Model() == o.next && result == o.result
    {
      ghost var before := Model();
      var previousPeriodStart, previousPeriodEnd := period.start, period.end;
      period := window;
      var currentPeriodStart, currentPeriodEnd := period.start, period.end;

      var currentPeriodStartTimestamp := FlooredTimestamp(currentPeriodStart);
      var currentPeriodEndTimestamp := FlooredTimestamp(currentPeriodEnd);
      var previousPeriodStartTimestamp := FlooredTimestamp(previousPeriodStart);
      var previousPeriodEndTimestamp := FlooredTimestamp(previousPeriodEnd);
      var nowTimestamp := FlooredTimestamp(now);

      if currentPeriodStartTimestamp > nowTimestamp {
        // the window lies entirely after now
        historyCurrentPeriod := [];
        previousRunBeforeStart := true;
        state := HistoryMathState(None, period);
        assert Step(before, entityId, window, now, event, recorder, parse).next == Model();
        return Success(state);
      }
      if && !previousRunBeforeStart
         && currentPeriodStartTimestamp == previousPeriodStartTimestamp
         && (|| currentPeriodEndTimestamp == previousPeriodEndTimestamp
             || (currentPeriodEndTimestamp >= previousPeriodEndTimestamp
                 && previousPeriodEndTimestamp <= nowTimestamp))
      {
        assert CacheValid(before.previousRunBeforeStart, before.period, window, nowTimestamp);
        var newData := false;
        if event.Some? && event.value.newState.Some? {
          var newState := event.value.newState.value;
          var changedTimestamp := FlooredTimestamp(newState.lastChanged);
          if currentPeriodStartTimestamp <= changedTimestamp <= currentPeriodEndTimestamp {
            historyCurrentPeriod := historyCurrentPeriod + [HistoryState(newState.state, newState.lastChanged)];
            newData := true;
          }
        }
        if !newData && currentPeriodEndTimestamp < nowTimestamp {
          // nothing arrived and the window has closed: the value cannot have changed
          assert EventSample(event, window).None?;
          return Success(state);
        }
        assert newData == EventSample(event, window).Some?;
      } else {
        assert !CacheValid(before.previousRunBeforeStart, before.period, window, nowTimestamp);
        var ok := HistoryFromDb(currentPeriodStartTimestamp, currentPeriodEndTimestamp, recorder);
        if !ok {
          return Failure(RecorderQueryFailed);
        }
        previousRunBeforeStart := false;
      }

      var maxValue := ComputeMaxValue(nowTimestamp, parse);
      state := HistoryMathState(maxValue, period);
      return Success(state);
    }

    /** `_async_history_from_db`: replaces the cache with the recorder's states for the
        window, reduced and in the recorder's order; `ok` is false where the query raises,
        and then the cache is left as it was. */
    method HistoryFromDb(currentPeriodStartTimestamp: int, currentPeriodEndTimestamp: int, recorder: Recorder)
      returns (ok: bool)
      modifies this`historyCurrentPeriod
      ensures var answer := recorder(entityId, currentPeriodStartTimestamp, currentPeriodEndTimestamp);
        && ok == answer.Some?
        && historyCurrentPeriod == if ok then Project(answer.value) else old(historyCurrentPeriod)
    {
      var answer := recorder(entityId, currentPeriodStartTimestamp, currentPeriodEndTimestamp);
      ok := answer.Some?;
      if ok {
        historyCurrentPeriod := Project(answer.value);
      }
    }

    /** `_async_compute_max_value`: the maximum of the parseable, non-future cached samples. */
    method ComputeMaxValue(nowTimestamp: int, parse: Parser) returns (maxValue: Option<real>)
      ensures maxValue == MaxValue(historyCurrentPeriod, nowTimestamp, parse)
    {
      maxValue := None;
      var samples := historyCurrentPeriod;
      for i := 0 to |samples|
        invariant maxValue == MaxValue(samples[..i], nowTimestamp, parse)
      {
        var historyState := samples[i];
        assert samples[..i + 1][..i] == samples[..i];
        if FlooredTimestamp(historyState.lastChanged) > nowTimestamp {
          // a sample dated after now does not count
          continue;
        }
        var parsed := parse(historyState.state);
        if parsed.Some? {
          var historyValue := parsed.value;
          if maxValue.None? || historyValue > maxValue.value {
            maxValue := Some(historyValue);
          }
        }
      }
      assert samples[..|samples|] == samples;
    }
  }
}
