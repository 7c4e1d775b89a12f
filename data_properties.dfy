/** What the update step and the maximum of data.py guarantee, stated about `Step` and
    `MaxValue`. */
module DataProperties {
  import opened Wrappers
  import opened Data

  /** The event carries a non-null new state whose change second lies in the window's
      seconds, both ends included. */
  predicate EventInWindow(event: Option<StateChangedEvent>, window: Period)
  {
    && event.Some? && event.value.newState.Some?
    && FlooredTimestamp(window.start) <= FlooredTimestamp(event.value.newState.value.lastChanged)
    && FlooredTimestamp(event.value.newState.value.lastChanged) <= FlooredTimestamp(window.end)
  }

  /** The recorder answers (does not raise) for the window's floored seconds. */
  predicate QueryAnswers(recorder: Recorder, entityId: string, window: Period)
  {
    recorder(entityId, FlooredTimestamp(window.start), FlooredTimestamp(window.end)).Some?
  }

  /** A window whose start second is after now empties the cache, sets the flag and yields
      no value for that window, whatever the fields were before. */
  lemma FutureWindowClearsCache(s: Snapshot, entityId: string, window: Period, now: Instant,
                                event: Option<StateChangedEvent>, recorder: Recorder, parse: Parser)
    requires FlooredTimestamp(window.start) > FlooredTimestamp(now)
    ensures var o := Step(s, entityId, window, now, event, recorder, parse);
      && o.branch == FutureWindow
      && o.result == Success(HistoryMathState(None, window))
      && o.next == Snapshot(window, HistoryMathState(None, window), [], true)
  {
  }

  /** Outside the future guard, the cache is kept (no recorder query) exactly when the flag
      is clear, the start second is unchanged, and the end second is unchanged or grew
      from an end second that was not after now; otherwise the recorder is queried. */
  lemma CacheKeptIff(s: Snapshot, entityId: string, window: Period, now: Instant,
                     event: Option<StateChangedEvent>, recorder: Recorder, parse: Parser)
    requires FlooredTimestamp(window.start) <= FlooredTimestamp(now)
    ensures var o := Step(s, entityId, window, now, event, recorder, parse);
      var nowTs := FlooredTimestamp(now);
      var prevEndTs, endTs := FlooredTimestamp(s.period.end), FlooredTimestamp(window.end);
      o.branch.KeptCache? <==>
        && !s.previousRunBeforeStart
        && FlooredTimestamp(window.start) == FlooredTimestamp(s.period.start)
        && (endTs == prevEndTs || (endTs >= prevEndTs && prevEndTs <= nowTs))
    ensures var o := Step(s, entityId, window, now, event, recorder, parse);
      !o.branch.KeptCache? <==> o.branch.QueriesRecorder()
  {
  }

  /** A moved start second, a shrunk end second, an end that grew while the old end was
      still ahead of now, or a previous run before the start all force a recorder query. */
  lemma ChangedWindowRefetches(s: Snapshot, entityId: string, window: Period, now: Instant,
                               event: Option<StateChangedEvent>, recorder: Recorder, parse: Parser)
    requires FlooredTimestamp(window.start) <= FlooredTimestamp(now)
    requires || s.previousRunBeforeStart
             || FlooredTimestamp(window.start) != FlooredTimestamp(s.period.start)
             || FlooredTimestamp(window.end) < FlooredTimestamp(s.period.end)
             || (FlooredTimestamp(window.end) > FlooredTimestamp(s.period.end)
                 && FlooredTimestamp(s.period.end) > FlooredTimestamp(now))
    ensures Step(s, entityId, window, now, event, recorder, parse).branch.QueriesRecorder()
  {
  }

  /** On the kept-cache path the old samples stay in place, at most one sample is added at
      the end, and the flag stays clear. */
  lemma KeptCacheExtendsHistory(s: Snapshot, entityId: string, window: Period, now: Instant,
                                event: Option<StateChangedEvent>, recorder: Recorder, parse: Parser)
    requires Step(s, entityId, window, now, event, recorder, parse).branch.KeptCache?
    ensures var o := Step(s, entityId, window, now, event, recorder, parse);
      && s.historyCurrentPeriod <= o.next.historyCurrentPeriod
      && |o.next.historyCurrentPeriod| <= |s.historyCurrentPeriod| + 1
      && !o.next.previousRunBeforeStart
  {
  }

  /** On the kept-cache path a sample is appended exactly when the event has a non-null new
      state inside the window, and that sample is the new state's string and change time. */
  lemma EventAppendedIff(s: Snapshot, entityId: string, window: Period, now: Instant,
                         event: Option<StateChangedEvent>, recorder: Recorder, parse: Parser)
    requires Step(s, entityId, window, now, event, recorder, parse).branch.KeptCache?
    ensures var o := Step(s, entityId, window, now, event, recorder, parse);
      |o.next.historyCurrentPeriod| == |s.historyCurrentPeriod| + 1 <==> EventInWindow(event, window)
    ensures var o := Step(s, entityId, window, now, event, recorder, parse);
      EventInWindow(event, window) ==>
        var newState := event.value.newState.value;
        o.next.historyCurrentPeriod == s.historyCurrentPeriod + [HistoryState(newState.state, newState.lastChanged)]
    ensures var o := Step(s, entityId, window, now, event, recorder, parse);
      !EventInWindow(event, window) ==> o.next.historyCurrentPeriod == s.historyCurrentPeriod
  {
  }

  /** The fast path: with the cache kept, nothing appended and the window's end second
      before now, the previous result is returned and kept, and nothing else but the
      stored window changes. */
  lemma FastPathReturnsPreviousResult(s: Snapshot, entityId: string, window: Period, now: Instant,
                                      event: Option<StateChangedEvent>, recorder: Recorder, parse: Parser)
    requires FlooredTimestamp(window.start) <= FlooredTimestamp(now)
    requires CacheValid(s.previousRunBeforeStart, s.period, window, FlooredTimestamp(now))
    requires !EventInWindow(event, window)
    requires FlooredTimestamp(window.end) < FlooredTimestamp(now)
    ensures var o := Step(s, entityId, window, now, event, recorder, parse);
      && o.branch == KeptCache(false, true)
      && o.result == Success(s.state)
      && o.next == s.(period := window)
  {
  }

  /** On the refetch path the recorder answered, the cache is that answer for the window's
      floored seconds, element by element in the recorder's order, and the flag is cleared. */
  lemma RefetchReplacesCache(s: Snapshot, entityId: string, window: Period, now: Instant,
                             event: Option<StateChangedEvent>, recorder: Recorder, parse: Parser)
    requires Step(s, entityId, window, now, event, recorder, parse).branch == Refetched
    ensures var o := Step(s, entityId, window, now, event, recorder, parse);
      var answer := recorder(entityId, FlooredTimestamp(window.start), FlooredTimestamp(window.end));
      && answer.Some?
      && var states := answer.value;
      && |o.next.historyCurrentPeriod| == |states|
      && (forall i :: 0 <= i < |states| ==>
            o.next.historyCurrentPeriod[i] == HistoryState(states[i].state, states[i].lastChanged))
      && !o.next.previousRunBeforeStart
  {
  }

  /** Every call stores the new window; every call but the fast path and a raising query
      returns a result for that window and stores it, and (outside the future guard) its
      value is the maximum over the new cache. */
  lemma ResultCarriesWindow(s: Snapshot, entityId: string, window: Period, now: Instant,
                            event: Option<StateChangedEvent>, recorder: Recorder, parse: Parser)
    ensures Step(s, entityId, window, now, event, recorder, parse).next.period == window
    ensures var o := Step(s, entityId, window, now, event, recorder, parse);
      o.branch != KeptCache(false, true) && o.branch != RefetchFailed ==>
        && o.result.Success?
        && o.result.value.period == window
        && o.next.state == o.result.value
    ensures var o := Step(s, entityId, window, now, event, recorder, parse);
      o.branch.Refetched? || (o.branch.KeptCache? && !o.branch.fastPath) ==>
        o.result.Success? &&
        o.result.value.maxValue == MaxValue(o.next.historyCurrentPeriod, FlooredTimestamp(now), parse)
  {
  }

  /** A raising recorder query propagates as an error; the new window is already stored,
      while the cache, the flag and the stored result keep their old values. */
  lemma FailedRefetchKeepsOldFields(s: Snapshot, entityId: string, window: Period, now: Instant,
                                    event: Option<StateChangedEvent>, recorder: Recorder, parse: Parser)
    requires Step(s, entityId, window, now, event, recorder, parse).branch.QueriesRecorder()
    ensures var o := Step(s, entityId, window, now, event, recorder, parse);
      o.branch == RefetchFailed <==> !QueryAnswers(recorder, entityId, window)
    ensures var o := Step(s, entityId, window, now, event, recorder, parse);
      o.branch == RefetchFailed ==>
        o.result == Failure(RecorderQueryFailed) && o.next == s.(period := window)
  {
  }

  /** After a raising query with the flag clear, the next call for the same window passes
      the cache test: it does not query the recorder and works on the samples cached for
      the previous window. */
  lemma FailedRefetchLeavesStaleCache(s: Snapshot, entityId: string, window: Period, now: Instant,
                                      event: Option<StateChangedEvent>, recorder: Recorder,
                                      now2: Instant, event2: Option<StateChangedEvent>,
                                      recorder2: Recorder, parse: Parser)
    requires Step(s, entityId, window, now, event, recorder, parse).branch == RefetchFailed
    requires !s.previousRunBeforeStart
    requires FlooredTimestamp(window.start) <= FlooredTimestamp(now2)
    ensures var first := Step(s, entityId, window, now, event, recorder, parse);
      var second := Step(first.next, entityId, window, now2, event2, recorder2, parse);
      && second.branch.KeptCache?
      && s.historyCurrentPeriod <= second.next.historyCurrentPeriod
  {
  }

  /** The relation the object's fields keep between calls: a set flag goes with an empty
      cache and an empty result for the stored window, and the stored result's window has
      the stored window's start second and an end second no later than the stored one's
      (the fast path leaves an older result in place). */
  predicate Inv(s: Snapshot)
  {
    && (s.previousRunBeforeStart ==>
          s.historyCurrentPeriod == [] && s.state == HistoryMathState(None, s.period))
    && FlooredTimestamp(s.state.period.start) == FlooredTimestamp(s.period.start)
    && FlooredTimestamp(s.state.period.end) <= FlooredTimestamp(s.period.end)
  }

  lemma InitialSatisfiesInv()
    ensures Inv(InitialSnapshot)
  {
  }

  /** Every call that does not end in a raising query keeps the invariant. */
  lemma StepPreservesInv(s: Snapshot, entityId: string, window: Period, now: Instant,
                         event: Option<StateChangedEvent>, recorder: Recorder, parse: Parser)
    requires Inv(s)
    ensures var o := Step(s, entityId, window, now, event, recorder, parse);
      o.branch != RefetchFailed ==> Inv(o.next)
  {
  }

  /** A raising query can break the invariant: the window's start moves from second 0 to
      second 5 while the stored result still carries the old window. */
  lemma FailedRefetchCanBreakInv(entityId: string, event: Option<StateChangedEvent>, parse: Parser)
    ensures var previous := Period(0, 10 * MicrosPerSecond);
      var s := Snapshot(previous, HistoryMathState(None, previous), [], false);
      var failing: Recorder := (e, a, b) => None;
      var o := Step(s, entityId, Period(5 * MicrosPerSecond, 10 * MicrosPerSecond), 20 * MicrosPerSecond,
                    event, failing, parse);
      Inv(s) && o.branch == RefetchFailed && !Inv(o.next)
  {
  }

  /** Idempotence: when the first call returns a value, a second call with the same window
      and the same now and no event inside the window returns the same result, leaves the
      cache as the first left it, and does not query the recorder (whatever the recorder
      would now answer). */
  lemma UpdateIdempotent(s: Snapshot, entityId: string, window: Period, now: Instant,
                         event: Option<StateChangedEvent>, recorder: Recorder,
                         event2: Option<StateChangedEvent>, recorder2: Recorder, parse: Parser)
    requires !EventInWindow(event2, window)
    ensures var first := Step(s, entityId, window, now, event, recorder, parse);
      var second := Step(first.next, entityId, window, now, event2, recorder2, parse);
      first.result.Success? ==>
        && second.result == first.result
        && second.next.historyCurrentPeriod == first.next.historyCurrentPeriod
        && !second.branch.QueriesRecorder()
  {
  }

  /** Idempotence after the window has closed: when the first call returns a value for a
      window whose end second is before now, any later tick without an event inside the
      window takes the fast path and returns the same result. */
  lemma LaterTickAfterCloseIdempotent(s: Snapshot, entityId: string, window: Period, now: Instant,
                                      event: Option<StateChangedEvent>, recorder: Recorder,
                                      now2: Instant, event2: Option<StateChangedEvent>,
                                      recorder2: Recorder, parse: Parser)
    requires FlooredTimestamp(window.start) <= FlooredTimestamp(window.end)
    requires FlooredTimestamp(window.end) < FlooredTimestamp(now) <= FlooredTimestamp(now2)
    requires !EventInWindow(event2, window)
    ensures var first := Step(s, entityId, window, now, event, recorder, parse);
      var second := Step(first.next, entityId, window, now2, event2, recorder2, parse);
      first.result.Success? ==>
        && second.result == first.result
        && second.branch == KeptCache(false, true)
        && second.next.historyCurrentPeriod == first.next.historyCurrentPeriod
  {
  }

  /** A sample that does not contribute (dated after now, or not numeric) leaves the
      maximum unchanged wherever it sits in the cache. */
  lemma {:induction false} NonContributingSampleIgnored(a: seq<HistoryState>, x: HistoryState,
                                                        b: seq<HistoryState>, nowTs: int, parse: Parser)
    requires !Contributes(x, nowTs, parse)
    ensures MaxValue(a + [x] + b, nowTs, parse) == MaxValue(a + b, nowTs, parse)
    decreases |b|
  {
    if b == [] {
      assert a + [x] + b == a + [x];
      assert (a + [x])[..|a|] == a;
      assert a + b == a;
    } else {
      var n := |b| - 1;
      var b' := b[..n];
      NonContributingSampleIgnored(a, x, b', nowTs, parse);
      assert (a + [x] + b)[..|a + [x] + b| - 1] == a + [x] + b';
      assert (a + b)[..|a + b| - 1] == a + b';
      assert (a + [x] + b)[|a + [x] + b| - 1] == b[n];
      assert (a + b)[|a + b| - 1] == b[n];
    }
  }

  /** Concrete case: states "3", "unavailable", "7" and a future-dated "9" give 7. */
  lemma MaxValueExample(parse: Parser, t0: Instant)
    requires parse("3") == Some(3.0) && parse("7") == Some(7.0) && parse("9") == Some(9.0)
    requires parse("unavailable") == None
    ensures var samples := [HistoryState("3", t0), HistoryState("unavailable", t0 + 1_000_000),
                            HistoryState("7", t0 + 2_000_000), HistoryState("9", t0 + 10_000_000)];
      MaxValue(samples, FlooredTimestamp(t0 + 2_000_000), parse) == Some(7.0)
  {
  }

  /** The object-level form of idempotence: a tick right after an update that returned a
      value, with the same window and the same now, returns the same result. */
  method RepeatedUpdateIsIdempotent(h: HistoryMath, window: Period, now: Instant,
                                    event: Option<StateChangedEvent>, recorder: Recorder,
                                    recorder2: Recorder, parse: Parser)
    returns (first: Result<HistoryMathState, UpdateError>, second: Result<HistoryMathState, UpdateError>)
    modifies h
    ensures first.Success? ==> second == first
  {
    ghost var before := h.Model();
    first := h.Update(event, window, now, recorder, parse);
    second := h.Update(None, window, now, recorder2, parse);
    UpdateIdempotent(before, h.entityId, window, now, event, recorder, None, recorder2, parse);
  }

  /** The object-level form of idempotence after the window has closed: any later tick
      without an event returns the result of an update that returned a value. */
  method LaterTickReturnsSameResult(h: HistoryMath, window: Period, now: Instant, now2: Instant,
                                    event: Option<StateChangedEvent>, recorder: Recorder,
                                    recorder2: Recorder, parse: Parser)
    returns (first: Result<HistoryMathState, UpdateError>, second: Result<HistoryMathState, UpdateError>)
    requires FlooredTimestamp(window.start) <= FlooredTimestamp(window.end)
    requires FlooredTimestamp(window.end) < FlooredTimestamp(now) <= FlooredTimestamp(now2)
    modifies h
    ensures first.Success? ==> second == first
  {
    ghost var before := h.Model();
    first := h.Update(event, window, now, recorder, parse);
    second := h.Update(None, window, now2, recorder2, parse);
    LaterTickAfterCloseIdempotent(before, h.entityId, window, now, event, recorder, now2, None, recorder2, parse);
  }
}
