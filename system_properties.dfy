/**
 * The process-wide system properties (`System.setProperty` and
 * `System.clearProperty`), the channel through which the mock policy switches
 * the extra plugin grant on while a policy is built.
 */
module SystemProperties {
  import opened Outcomes

  const EmptyKeyMessage := "key can't be empty"

  class Properties {
    var values: map<string, string>

    constructor (initial: map<string, string>)
      ensures values == initial
    {
      values := initial;
    }

    /** `System.setProperty`: rejects an empty key, otherwise sets it and returns the previous value. */
    method SetProperty(key: string, value: string) returns (r: Result<Option<string>>)
      modifies this
      ensures key == "" ==> r == Failure(IllegalArgumentException(EmptyKeyMessage)) && values == old(values)
      ensures key != "" ==> values == old(values)[key := value]
      ensures key != "" ==> r == Success(if key in old(values) then Some(old(values)[key]) else None)
    {
      if key == "" {
        return Failure(IllegalArgumentException(EmptyKeyMessage));
      }
      r := Success(if key in values then Some(values[key]) else None);
      values := values[key := value];
    }

    /** `System.clearProperty`: rejects an empty key, otherwise removes it and returns the previous value. */
    method ClearProperty(key: string) returns (r: Result<Option<string>>)
      modifies this
      ensures key == "" ==> r == Failure(IllegalArgumentException(EmptyKeyMessage)) && values == old(values)
      ensures key != "" ==> values == old(values) - {key} && key !in values
      ensures key != "" ==> r == Success(if key in old(values) then Some(old(values)[key]) else None)
    {
      if key == "" {
        return Failure(IllegalArgumentException(EmptyKeyMessage));
      }
      r := Success(if key in values then Some(values[key]) else None);
      values := values - {key};
    }
  }
}
