/**
 * The credential resolver: guard-then-lookup access to the secret store and the
 * parameter store (`AwsUtility` in src/aws-utility.ts). The stores are the maps of
 * a `Context`; the class has no fields, so its two methods are functions here.
 */
module AwsUtility {
  import opened Wrappers
  import opened Common

  /**
   * `getSecretValue(secretArn)`: an absent or empty id is refused before the store
   * is consulted; a missing or empty secret is an error; otherwise the secret string.
   */
  function GetSecretValue(secrets: map<string, string>, secretArn: Option<string>): (r: Result<string, Failure>)
    ensures !Filled(secretArn) ==> r == Failure(NoSecretArn)
    ensures Filled(secretArn) && secretArn.value in secrets && secrets[secretArn.value] != "" ==>
              r == Success(secrets[secretArn.value])
    ensures Filled(secretArn) && (secretArn.value !in secrets || secrets[secretArn.value] == "") ==>
              r == Failure(NoSecretValueForArn(secretArn.value))
    ensures r.Success? ==> r.value != ""
  {
    if !Filled(secretArn) then
      Failure(NoSecretArn)
    else
      var data := Lookup(secrets, secretArn.value);
      if Filled(data) then Success(data.value) else Failure(NoSecretValueForArn(secretArn.value))
  }

  /**
   * `getParameterValue(name)`: an absent or empty name is refused; otherwise the
   * stored value, which may itself be absent without that being an error.
   */
  function GetParameterValue(parameters: map<string, string>, name: Option<string>): (r: Result<Option<string>, Failure>)
    ensures r.Failure? <==> !Filled(name)
    ensures r.Failure? ==> r.error == NoParameterName
    ensures r.Success? ==> (r.value.Some? <==> name.value in parameters)
    ensures r.Success? && r.value.Some? ==> r.value.value == parameters[name.value]
  {
    if !Filled(name) then Failure(NoParameterName) else Success(Lookup(parameters, name.value))
  }
}
