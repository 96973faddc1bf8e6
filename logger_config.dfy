/**
 * The winston configuration of the backend
 * (backend/src/common/logger/logger.config.ts): the `sanitizeFormat` that
 * overwrites sensitive fields of a log entry's `context` and `message`
 * objects in place, the logger level chosen by `createWinstonConfig`, and
 * `getLogLevel`.
 */
module LoggerConfig {
  import opened Wrappers
  import opened JsValue

  const REDACTED := "[REDACTED]"

  /** The keys whose values never reach a log. */
  const SENSITIVE_FIELDS: seq<string> :=
    ["password", "token", "accessToken", "refreshToken", "authorization", "secret", "apiKey", "creditCard", "ssn"]

  /** An object's properties with every present sensitive key overwritten by "[REDACTED]". */
  function Redacted(props: map<string, Json>): (r: map<string, Json>)
    ensures r.Keys == props.Keys
    ensures forall k :: k in r && k in SENSITIVE_FIELDS ==> r[k] == Str(REDACTED)
    ensures forall k :: k in r && k !in SENSITIVE_FIELDS ==> r[k] == props[k]
  {
    map k | k in props :: if k in SENSITIVE_FIELDS then Str(REDACTED) else props[k]
  }

  /** Redacting twice is redacting once. */
  lemma RedactedIdempotent(props: map<string, Json>)
    ensures Redacted(Redacted(props)) == Redacted(props)
  {
  }

  /** A heap object whose properties the format can overwrite. */
  class JsObject {
    var props: map<string, Json>

    constructor(props: map<string, Json>)
      ensures this.props == props
    {
      this.props := props;
    }
  }

  /** A field of the log entry: an object, shared by reference, or any other value. */
  datatype Field = Plain(value: Json) | Ref(obj: JsObject)
  {
    /** An object is always held by reference, never as a `Plain` value. */
    predicate WellFormed() {
      Plain? ==> !value.Obj?
    }
  }

  /** The entry winston passes through the format. */
  class LogInfo {
    var context: Field
    var message: Field

    constructor(context: Field, message: Field)
      requires context.WellFormed() && message.WellFormed()
      ensures this.context == context && this.message == message
    {
      this.context := context;
      this.message := message;
    }

    /** The objects the format may write to. */
    function Targets(): set<object>
      reads this
    {
      (if context.Ref? then {context.obj} else {}) + (if message.Ref? then {message.obj} else {})
    }

    /**
     * `sanitizeFormat`: the `context` and `message` objects are redacted in
     * place, so every other holder of those objects sees the change; values
     * that are not objects are left alone. When both fields hold the same
     * object it is redacted twice, to the same effect.
     */
    method Sanitize()
      modifies Targets()
      ensures context.Ref? ==> context.obj.props == Redacted(old(context.obj.props))
      ensures message.Ref? ==> message.obj.props == Redacted(old(message.obj.props))
    {
      if context.Ref? {
        RedactInPlace(context.obj);
      }
      if message.Ref? {
        if context.Ref? && context.obj == message.obj {
          RedactedIdempotent(old(message.obj.props));
        }
        RedactInPlace(message.obj);
      }
    }
  }

  /** The `forEach` over the sensitive fields: each one present is overwritten. */
  method RedactInPlace(o: JsObject)
    modifies o
    ensures o.props == Redacted(old(o.props))
  {
    for i := 0 to |SENSITIVE_FIELDS|
      invariant o.props.Keys == old(o.props).Keys
      invariant forall k :: k in o.props ==>
        o.props[k] == if k in SENSITIVE_FIELDS[..i] then Str(REDACTED) else old(o.props)[k]
    {
      var field := SENSITIVE_FIELDS[i];
      if field in o.props {
        o.props := o.props[field := Str(REDACTED)];
      }
    }
    assert SENSITIVE_FIELDS[..|SENSITIVE_FIELDS|] == SENSITIVE_FIELDS;
  }

  /** `createWinstonConfig`'s `environment` parameter defaults to "development". */
  function Environment(environment: Option<string>): string {
    environment.GetOr("development")
  }

  /** The `level` of the configuration: `LOG_LEVEL`, else "info" in production and "debug" elsewhere. */
  function ConfigLevel(logLevelEnv: Option<string>, environment: Option<string>): (level: string)
    ensures logLevelEnv.Some? && logLevelEnv.value != "" ==> level == logLevelEnv.value
    ensures (logLevelEnv.None? || logLevelEnv.value == "") ==>
      level == (if Environment(environment) == "production" then "info" else "debug")
  {
    OrElse(logLevelEnv, if Environment(environment) == "production" then "info" else "debug")
  }

  /** `getLogLevel`: `LOG_LEVEL`, else "info" in production, "error" in test, "debug" elsewhere. */
  function GetLogLevel(logLevelEnv: Option<string>, environment: Option<string>): (level: string)
    ensures logLevelEnv.Some? && logLevelEnv.value != "" ==> level == logLevelEnv.value
    ensures (logLevelEnv.None? || logLevelEnv.value == "") ==>
      level == (match Environment(environment)
                case "production" => "info"
                case "test" => "error"
                case _ => "debug")
  {
    if logLevelEnv.Some? && logLevelEnv.value != "" then logLevelEnv.value
    else
      match Environment(environment)
      case "production" => "info"
      case "test" => "error"
      case _ => "debug"
  }

  /**
   * The two level rules agree everywhere except the test environment
   * without `LOG_LEVEL`, where the configuration logs at "debug" and
   * `getLogLevel` reports "error".
   */
  lemma LevelRulesDisagreeOnlyInTest(logLevelEnv: Option<string>, environment: Option<string>)
    ensures ConfigLevel(logLevelEnv, environment) != GetLogLevel(logLevelEnv, environment) <==>
      (logLevelEnv.None? || logLevelEnv.value == "") && Environment(environment) == "test"
  {
  }
}
