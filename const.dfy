/** The configuration keys of the history_math component (const.py). */
module Const {

  const ConfStart: string := "start"
  const ConfEnd: string := "end"
  const ConfDuration: string := "duration"

  /** The three keys that define the time window; a configuration needs exactly two of them. */
  const ConfPeriodKeys: seq<string> := [ConfStart, ConfEnd, ConfDuration]
}
