/**
  Model of the `BkashGateway` constructor and `validateConfig`
  (src/index.ts): the configuration object must have exactly five keys, and
  then baseURL, key, secret, username and password must each be truthy, in
  that order, each failure with its own message.
*/
module Configuration {
  import opened Wrappers
  import opened Wire

  /** The configuration object: property name to value, `None` for a property set to `undefined`/`null`. */
  type Config = map<string, Option<string>>

  /** What a successful construction stores: baseURL, key, secret and the credential headers. */
  datatype Settings = Settings(baseURL: string, key: string, secret: string, headers: Headers)

  const InvalidConfiguration: string := "Invalid Configuration provided"

  /** The checked properties, in the order they are checked. */
  const FieldNames: seq<string> := ["baseURL", "key", "secret", "username", "password"]

  /** The message thrown for each checked property, position by position. */
  const FieldMessages: seq<string> := [
    "Invalid BaseURL provided",
    "Invalid API Key provided",
    "Invalid API secret provided",
    "Invalid API username provided",
    "Invalid API password provided"
  ]

  /** `!value || value === ''` is false: the property is present with a non-empty string. */
  predicate Provided(config: Config, name: string) {
    name in config && Truthy(config[name])
  }

  /** The string stored under a property that is provided. */
  function Value(config: Config, name: string): (v: string)
    requires Provided(config, name)
    ensures v != "" && config[name] == Some(v)
  {
    config[name].value
  }

  /** The constructor's validation followed by its field assignments, as a value. */
  function Configure(config: Config): (r: Result<Settings, Error>)
    ensures |config| != 5 ==> r == Failure(BkashException(InvalidConfiguration))
    ensures r.Success? <==>
      |config| == 5 && forall i :: 0 <= i < |FieldNames| ==> Provided(config, FieldNames[i])
    ensures r.Failure? && |config| == 5 ==>
      exists i :: 0 <= i < |FieldNames| && !Provided(config, FieldNames[i]) &&
        (forall j :: 0 <= j < i ==> Provided(config, FieldNames[j])) &&
        r.error == BkashException(FieldMessages[i])
    ensures r.Success? ==>
      Provided(config, "baseURL") && Provided(config, "key") && Provided(config, "secret") &&
      Provided(config, "username") && Provided(config, "password") &&
      r.value == Settings(Value(config, "baseURL"), Value(config, "key"), Value(config, "secret"),
                          BasicAuth(Value(config, "username"), Value(config, "password")))
  {
    if |config| != 5 then Failure(BkashException(InvalidConfiguration))
    else if !Provided(config, "baseURL") then
      assert !Provided(config, FieldNames[0]);
      Failure(BkashException("Invalid BaseURL provided"))
    else if !Provided(config, "key") then
      assert !Provided(config, FieldNames[1]);
      Failure(BkashException("Invalid API Key provided"))
    else if !Provided(config, "secret") then
      assert !Provided(config, FieldNames[2]);
      Failure(BkashException("Invalid API secret provided"))
    else if !Provided(config, "username") then
      assert !Provided(config, FieldNames[3]);
      Failure(BkashException("Invalid API username provided"))
    else if !Provided(config, "password") then
      assert !Provided(config, FieldNames[4]);
      Failure(BkashException("Invalid API password provided"))
    else
      Success(Settings(
        Value(config, "baseURL"), Value(config, "key"), Value(config, "secret"),
        BasicAuth(Value(config, "username"), Value(config, "password"))))
  }

  /** An accepted configuration has exactly the five expected properties and no other. */
  lemma AcceptedHasExactlyTheFields(config: Config)
    requires Configure(config).Success?
    ensures config.Keys == {"baseURL", "key", "secret", "username", "password"}
  {
    var expected: set<string> := {"baseURL", "key", "secret", "username", "password"};
    forall i | 0 <= i < |FieldNames| ensures FieldNames[i] in config {
      assert Provided(config, FieldNames[i]);
    }
    assert FieldNames[0] in config && FieldNames[1] in config && FieldNames[2] in config;
    assert FieldNames[3] in config && FieldNames[4] in config;
    assert expected <= config.Keys;
    assert |expected| == 5;
    var others := config.Keys - expected;
    assert config.Keys == expected + others;
    assert |config.Keys| == |config|;
  }
}
