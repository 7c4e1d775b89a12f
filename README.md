# history_math: the incremental history cache, in Dafny

This project models the core of the `history_math` Home Assistant component: the object
that keeps the recorded samples of one entity for a time window, decides on each update
whether that cache is still valid or must be fetched again from the recorder, appends live
state-change events to it, and computes the maximum of the numeric, non-future samples.
It also models the configuration validator that demands exactly two of `start`, `end` and
`duration`.

Files:

- `wrappers.dfy` — `Option` (Python's `None`) and `Result` (a value or a raised error).
- `const.dfy` — the window configuration keys.
- `data.dfy` — module `Data`: the records (`HistoryState`, `HistoryMathState`, `Period`,
  the recorder's `EntityState`, the `StateChangedEvent` payload), the maximum `MaxValue`,
  the pure update step `Step` over the four fields (`Snapshot`), and the class `HistoryMath`
  whose methods `Update`, `HistoryFromDb` and `ComputeMaxValue` mirror `async_update`,
  `_async_history_from_db` and `_async_compute_max_value` and are proved against `Step` and
  `MaxValue`.
- `data_properties.dfy` — module `DataProperties`: what an update guarantees, as lemmas
  about `Step`, and one client of the class.
- `sensor.dfy` — module `Sensor`: `exactly_two_period_keys`.

Modelling choices:

- Instants are integers in microseconds since the Unix epoch, UTC. `FlooredTimestamp`
  floors to whole seconds, as the component does before every comparison. The stored
  window and the window in a result keep the unfloored instants, as in the source.
- `datetime.min` in UTC is the instant of epoch second -62135596800.
- The window resolved from the templates and the current instant are parameters of
  `Update` (`window`, `now`).
- The recorder query is a function parameter. It maps the entity id and the window's
  floored start and end seconds to the entity's recorded states, in the recorder's order,
  or to `None` where the query raises. `Update` then returns `Failure(RecorderQueryFailed)`
  and, as in the source, has already stored the new window while the cache, the flag and the
  stored result keep their old values.
- `float(state)` is a function parameter `string -> Option<real>`. `None` stands for a
  raised `ValueError`.
- Which path an update took (future window, kept cache with or without an append or fast
  path, refetch, failed refetch) is reported only by `Step`'s `Outcome.branch`. The method
  does not return it.

## Model

| member | source | states |
|---|---|---|
| `Data.FlooredTimestamp` | custom_components/history_math/data.py:77-83 | the floored second `ts` satisfies `ts * 10^6 <= t < (ts + 1) * 10^6` |
| `Data.MaxValue` | custom_components/history_math/data.py:171-199 | the loop's final value is `None` iff no sample is both not after now and numeric; otherwise it is the parsed value of such a sample and at least every such value |
| `Data.HistoryMath.constructor` | custom_components/history_math/data.py:41-58 | a fresh object has window `(MIN, MIN)`, result `(None, (MIN, MIN))`, no samples and the flag clear |
| `Data.HistoryMath.Update` | custom_components/history_math/data.py:60-137 | the new fields and the returned result, or the recorder's error, are those of `Step` on the old fields |
| `Data.HistoryMath.HistoryFromDb` | custom_components/history_math/data.py:139-154 | reports whether the recorder answered for this entity and the given floored seconds; if so the cache becomes the projection of the answer, otherwise it is unchanged; nothing else changes |
| `Data.HistoryMath.ComputeMaxValue` | custom_components/history_math/data.py:171-199 | the loop returns `MaxValue` of the cache for the given now |
| `DataProperties.FutureWindowClearsCache` | custom_components/history_math/data.py:85-90 | a window starting after now empties the cache, sets the flag and yields `(None, window)`, whatever the prior fields |
| `DataProperties.CacheKeptIff` | custom_components/history_math/data.py:92-109 | outside the future guard, no query happens exactly when the flag is clear, the start second is unchanged and the end second is unchanged or grew from an end not after now; otherwise the recorder is queried (and answers or raises) |
| `DataProperties.ChangedWindowRefetches` | custom_components/history_math/data.py:92-109 | a moved start, a shrunk end, an end grown past an old end still ahead of now, or a set flag each force a recorder query |
| `DataProperties.KeptCacheExtendsHistory` | custom_components/history_math/data.py:110-122 | on the kept-cache path the old samples are a prefix of the new ones, at most one is added, and the flag stays clear |
| `DataProperties.EventAppendedIff` | custom_components/history_math/data.py:111-122 | on the kept-cache path one sample is appended iff the event has a non-null new state whose change second is in `[start, end]`; that sample is the new state's string and change time; otherwise the cache is unchanged |
| `DataProperties.FastPathReturnsPreviousResult` | custom_components/history_math/data.py:123-126 | cache kept, nothing appended and end second before now: the previous result is returned and kept and only the stored window changes |
| `DataProperties.RefetchReplacesCache` | custom_components/history_math/data.py:151-154 | on the refetch path the recorder answered, the cache has one sample per recorded state, element by element in order, and the flag is cleared |
| `DataProperties.ResultCarriesWindow` | custom_components/history_math/data.py:133-137 | every call stores the new window; every call that is neither the fast path nor a raising query returns and stores a result for that window, whose value (outside the future guard) is `MaxValue` of the new cache |
| `DataProperties.FailedRefetchKeepsOldFields` | custom_components/history_math/data.py:127-131 | a queried call fails exactly when the recorder raises; it then propagates the error, and only the stored window has changed |
| `DataProperties.FailedRefetchLeavesStaleCache` | custom_components/history_math/data.py:99-131 | after a raising query with the flag clear, the next call for the same window (not in the future) keeps the previous window's samples without querying |
| `DataProperties.InitialSatisfiesInv` | custom_components/history_math/data.py:52-55 | a fresh object meets the between-calls invariant |
| `DataProperties.StepPreservesInv` | custom_components/history_math/data.py:60-137 | every update that does not end in a raising query keeps the invariant: a set flag goes with an empty cache and `(None, window)`; the stored result's window has the stored start second and an end second no later than the stored end second |
| `DataProperties.FailedRefetchCanBreakInv` | custom_components/history_math/data.py:65-131 | a concrete raising query (start moved from second 0 to 5) leaves fields that break the invariant |
| `DataProperties.UpdateIdempotent` | custom_components/history_math/data.py:99-126 | when the first call returns a value, a second call with the same window and the same now and no in-window event returns the same result, keeps the cache and does not query the recorder |
| `DataProperties.LaterTickAfterCloseIdempotent` | custom_components/history_math/data.py:123-126 | for a window with start second at most end second and end second before now, when the first call returns a value, every later tick (now2 at or after now) without an in-window event takes the fast path, returns the same result and keeps the cache |
| `DataProperties.RepeatedUpdateIsIdempotent` | custom_components/history_math/data.py:60-137 | two consecutive `Update` calls on one object with the same window and the same now, the second without an event, return equal results when the first returns a value |
| `DataProperties.LaterTickReturnsSameResult` | custom_components/history_math/data.py:60-137 | on one object, for a window with start second at most end second and end second before now, a later `Update` without an event returns the result of a first `Update` that returned a value |
| `DataProperties.NonContributingSampleIgnored` | custom_components/history_math/data.py:179-197 | a future-dated or non-numeric sample, anywhere in the cache, does not change the maximum |
| `DataProperties.MaxValueExample` | custom_components/history_math/data.py:171-199 | samples "3", "unavailable", "7" and a future "9" give 7 |
| `Sensor.CountPresent` | custom_components/history_math/sensor.py:54 | the sum of presence indicators is at most the number of keys counted |
| `Sensor.CountIsCardinality` | custom_components/history_math/sensor.py:54 | for a list without duplicates, the sum equals the number of distinct listed keys present |
| `Sensor.ExactlyTwoPeriodKeys` | custom_components/history_math/sensor.py:52-58 | succeeds iff exactly two of start, end, duration are present, returning the configuration unchanged; otherwise fails with `Invalid` and the source's message |
| `Sensor.RejectsNoneOneOrThree` | custom_components/history_math/sensor.py:54-57 | rejection happens exactly for zero, one or three window keys |
| `Sensor.OutcomeDependsOnlyOnPeriodKeys` | custom_components/history_math/sensor.py:54 | configurations agreeing on which window keys they hold get the same verdict, whatever their other keys and values |
| `Sensor.OtherKeysIgnored` | custom_components/history_math/sensor.py:54 | adding or overwriting a non-window key never changes the verdict |
| `Sensor.ValidatorExamples` | custom_components/history_math/sensor.py:52-58 | start + duration (plus a name) passes; start alone and all three fail |

## Left out

- The recorder access (`get_instance`, the executor job, `history.state_changes_during_period`, data.py:145-169) is database I/O; the model takes its answer, or the fact that it raised, as a function parameter. The kind of exception is not modelled.
- An error raised while resolving the window (data.py:67) is left out: the window is a parameter, so the model has no call in which that assignment fails.
- `async_calculate_period` and `floored_timestamp` live in `helpers.py`, which is not part of this model; the resolved window is a parameter and flooring is `FlooredTimestamp`.
- Timezone handling (`dt_util.as_utc`, `dt_util.utcnow`) is left out: instants are already UTC and `now` is a parameter.
- Python's `float()` parsing and floating point are abstracted by the parser parameter returning a `real`. NaN and infinities have no `real` counterpart. So the model does not capture that a NaN that is the first contributing value becomes and stays the maximum (every `x > NaN` is false). A NaN met after a number is skipped, because `NaN > max_value` is false.
- A sample's `last_changed` is a float timestamp in the source; the model keeps the instant exactly, so rounding in `datetime.timestamp()` is not modelled.
- Debug logging (data.py:184-188) is left out.
- The `hass`, `start`, `end` and `duration` fields are left out. They only feed the window resolution (data.py:67) and the recorder query (data.py:145, 163), and the model takes both as parameters.
- Async scheduling is left out; `Update` is a sequential method, as the host serialises calls.
- The other reductions named in const.py (change, last, mean, median, min, range) have no implementation in data.py; only the maximum is modelled.
- The entity and setup plumbing of sensor.py and `__init__.py` (`HistoryMathSensor`, `async_setup_platform`, `async_setup_entry`, `PLATFORM_SCHEMA`) is left out. sensor.py:94 passes a sixth `sensor_type` argument that `HistoryMath.__init__` does not accept; the model follows `__init__`.
- The cache-validity test's forward-growth case assumes no state change between the old and the new end was missed by the live event feed. The model reproduces the test as written and proves nothing about samples the recorder would have returned on a refetch.
