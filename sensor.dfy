/** The configuration validator of sensor.py: a window is given by exactly two of
    start, end and duration. */
module Sensor {
  import opened Wrappers
  import opened Const

  /** The error the validator raises (voluptuous's `Invalid`). */
  datatype Invalid = Invalid(message: string)

  const ExactlyTwoMessage: string := "You must provide exactly 2 of the following: start, end, duration"

  predicate NoDuplicates(keys: seq<string>)
  {
    forall i, j :: 0 <= i < j < |keys| ==> keys[i] != keys[j]
  }

  /** `sum(param in conf for param in keys)`: how many entries of `keys` are keys of `conf`. */
  function CountPresent<V>(keys: seq<string>, conf: map<string, V>): (n: nat)
    ensures n <= |keys|
  {
    if keys == [] then 0
    else (if keys[0] in conf then 1 else 0) + CountPresent(keys[1..], conf)
  }

  /** The entries of `keys` that `conf` holds, as a set. */
  function PresentKeys<V>(keys: seq<string>, conf: map<string, V>): set<string>
  {
    set k | k in keys && k in conf
  }

  /** The window keys a configuration provides. */
  function PresentPeriodKeys<V>(conf: map<string, V>): set<string>
  {
    PresentKeys(ConfPeriodKeys, conf)
  }

  /** Counting the entries of a duplicate-free key list one by one gives the number of
      distinct keys present. */
  lemma {:induction false} CountIsCardinality<V>(keys: seq<string>, conf: map<string, V>)
    requires NoDuplicates(keys)
    ensures CountPresent(keys, conf) == |PresentKeys(keys, conf)|
  {
    if keys != [] {
      var rest := keys[1..];
      assert NoDuplicates(rest) by {
        forall i, j | 0 <= i < j < |rest| ensures rest[i] != rest[j] {
          assert rest[i] == keys[i + 1] && rest[j] == keys[j + 1];
        }
      }
      CountIsCardinality(rest, conf);
      assert keys[0] !in rest by {
        forall i | 0 <= i < |rest| ensures rest[i] != keys[0] {
          assert rest[i] == keys[i + 1];
        }
      }
      if keys[0] in conf {
        assert PresentKeys(keys, conf) == PresentKeys(rest, conf) + {keys[0]} by {
          assert keys == [keys[0]] + rest;
        }
      } else {
        assert PresentKeys(keys, conf) == PresentKeys(rest, conf) by {
          assert keys == [keys[0]] + rest;
        }
      }
    }
  }

  lemma PeriodKeysDistinct()
    ensures NoDuplicates(ConfPeriodKeys)
  {
  }

  /** `exactly_two_period_keys`: the configuration is returned unchanged when exactly two
      window keys are present, and rejected with `Invalid` otherwise. */
  function ExactlyTwoPeriodKeys<V>(conf: map<string, V>): (r: Result<map<string, V>, Invalid>)
    ensures r.Success? <==> |PresentPeriodKeys(conf)| == 2
    ensures r.Success? ==> r.value == conf
    ensures r.Failure? ==> r.error == Invalid(ExactlyTwoMessage)
  {
    PeriodKeysDistinct();
    CountIsCardinality(ConfPeriodKeys, conf);
    if CountPresent(ConfPeriodKeys, conf) != 2 then
      Failure(Invalid(ExactlyTwoMessage))
    else
      Success(conf)
  }

  /** The validator rejects exactly the configurations with none, one or all three of
      the window keys. */
  lemma RejectsNoneOneOrThree<V>(conf: map<string, V>)
    ensures var n := |PresentPeriodKeys(conf)|;
      ExactlyTwoPeriodKeys(conf).Failure? <==> (n == 0 || n == 1 || n == 3)
  {
    PeriodKeysDistinct();
    CountIsCardinality(ConfPeriodKeys, conf);
  }

  /** Two configurations that agree on which window keys they hold get the same verdict,
      whatever their other keys and whatever the values (even of different types). */
  lemma OutcomeDependsOnlyOnPeriodKeys<V, W>(c1: map<string, V>, c2: map<string, W>)
    requires forall k :: k in ConfPeriodKeys ==> (k in c1 <==> k in c2)
    ensures ExactlyTwoPeriodKeys(c1).Success? == ExactlyTwoPeriodKeys(c2).Success?
    ensures ExactlyTwoPeriodKeys(c1).Failure? ==> ExactlyTwoPeriodKeys(c1).error == ExactlyTwoPeriodKeys(c2).error
  {
    assert PresentPeriodKeys(c1) == PresentPeriodKeys(c2);
  }

  /** Adding or overwriting a key that is not a window key never changes the verdict. */
  lemma OtherKeysIgnored<V>(conf: map<string, V>, key: string, value: V)
    requires key !in ConfPeriodKeys
    ensures ExactlyTwoPeriodKeys(conf[key := value]).Success? == ExactlyTwoPeriodKeys(conf).Success?
  {
    OutcomeDependsOnlyOnPeriodKeys(conf[key := value], conf);
  }

  /** Concrete cases: start and duration pass; start alone and all three fail. */
  lemma ValidatorExamples(template: string)
    ensures ExactlyTwoPeriodKeys(map[ConfStart := template, ConfDuration := template, "name" := template]).Success?
    ensures ExactlyTwoPeriodKeys(map[ConfStart := template]).Failure?
    ensures ExactlyTwoPeriodKeys(map[ConfStart := template, ConfEnd := template, ConfDuration := template]).Failure?
  {
    var c2 := map[ConfStart := template, ConfDuration := template, "name" := template];
    assert PresentPeriodKeys(c2) == {ConfStart, ConfDuration};
    var c1 := map[ConfStart := template];
    assert PresentPeriodKeys(c1) == {ConfStart};
    var c3 := map[ConfStart := template, ConfEnd := template, ConfDuration := template];
    assert PresentPeriodKeys(c3) == {ConfStart, ConfEnd, ConfDuration};
  }
}
