/**
 * The application config: loading it from an array rejects invalid arrays
 * and makes sure an "environment" entry exists.
 */
module ApplicationConfigs {

  /** A value of a config array: null, a scalar, or a nested array. */
  datatype Value = Null | Scalar(text: string) | Array(entries: map<string, Value>)

  type ConfigArray = map<string, Value>

  /** The config object; all it keeps is the last array it accepted. */
  datatype ApplicationConfig = ApplicationConfig(configArray: ConfigArray)

  datatype Status = Ok | RuntimeException(message: string)

  /** The config after `fromArray`, and whether it threw. */
  datatype LoadStep = LoadStep(after: ApplicationConfig, status: Status)

  const EnvironmentKey := "environment"

  /**
   * Validity is decided by the base config class, which is not part of this
   * model; it is passed in as `parentIsValid` and used as it is.
   */
  function IsValid(parentIsValid: ConfigArray -> bool, configArray: ConfigArray): (b: bool)
    ensures b <==> parentIsValid(configArray)
  {
    parentIsValid(configArray)
  }

  /** PHP's isset on an array key: the key is present and its value is not null. */
  predicate IsSet(a: ConfigArray, key: string)
  {
    key in a && a[key] != Null
  }

  /**
   * Loads a config array. An invalid array throws RuntimeException and
   * leaves the config as it was; a valid one is stored with an empty
   * "environment" array added when that entry is missing or null.
   */
  function FromArray(config: ApplicationConfig, configArray: ConfigArray, parentIsValid: ConfigArray -> bool)
    : (step: LoadStep)
    ensures step.status.RuntimeException? <==> !parentIsValid(configArray)
    ensures step.status.RuntimeException? ==> step.after == config && step.status.message == "Invalid config"
    ensures step.status.Ok? ==> EnvironmentKey in step.after.configArray
    ensures step.status.Ok? && IsSet(configArray, EnvironmentKey) ==>
              step.after.configArray[EnvironmentKey] == configArray[EnvironmentKey]
    ensures step.status.Ok? && !IsSet(configArray, EnvironmentKey) ==>
              step.after.configArray[EnvironmentKey] == Array(map[])
    ensures step.status.Ok? ==> step.after.configArray.Keys == configArray.Keys + {EnvironmentKey}
    ensures step.status.Ok? ==>
              forall k :: k in configArray && k != EnvironmentKey ==> step.after.configArray[k] == configArray[k]
  {
    if !IsValid(parentIsValid, configArray) then
      LoadStep(config, RuntimeException("Invalid config"))
    else if !IsSet(configArray, EnvironmentKey) then
      LoadStep(ApplicationConfig(configArray[EnvironmentKey := Array(map[])]), Ok)
    else
      LoadStep(ApplicationConfig(configArray), Ok)
  }

  /**
   * Loading is idempotent: loading the stored array again stores the same
   * array, provided the base class still accepts it.
   */
  lemma FromArrayIdempotent(config: ApplicationConfig, configArray: ConfigArray, parentIsValid: ConfigArray -> bool)
    requires FromArray(config, configArray, parentIsValid).status.Ok?
    requires parentIsValid(FromArray(config, configArray, parentIsValid).after.configArray)
    ensures var once := FromArray(config, configArray, parentIsValid).after;
            FromArray(once, once.configArray, parentIsValid) == LoadStep(once, Ok)
  {
  }
}
