/**
 * The JWT settings of the backend (backend/src/config/jwt.config.ts):
 * `parseExpiresIn`, which reads a duration such as "15m" or "7d" from the
 * environment, and the access and refresh defaults passed to it.
 */
module JwtConfig {
  import opened Wrappers
  import opened JsValue

  /** Access tokens default to 15 minutes, refresh tokens to 7 days, in seconds. */
  const ACCESS_DEFAULT := 900
  const REFRESH_DEFAULT := 604800
  const SECRET_DEFAULT := "your-secret-key-change-this-in-production"

  /** The unit letter of a duration. */
  datatype Unit = Seconds | Minutes | Hours | Days

  function UnitOf(c: char): (u: Option<Unit>)
    ensures u.Some? <==> c in "smhd"
  {
    match c
    case 's' => Some(Seconds)
    case 'm' => Some(Minutes)
    case 'h' => Some(Hours)
    case 'd' => Some(Days)
    case _ => None
  }

  function UnitChar(u: Unit): (c: char)
    ensures UnitOf(c) == Some(u)
  {
    match u
    case Seconds => 's'
    case Minutes => 'm'
    case Hours => 'h'
    case Days => 'd'
  }

  /** Seconds per unit. */
  function Multiplier(u: Unit): nat {
    match u
    case Seconds => 1
    case Minutes => 60
    case Hours => 60 * 60
    case Days => 24 * 60 * 60
  }

  /** `\d` without the `u` flag: an ASCII digit. */
  predicate IsDigit(c: char) {
    '0' <= c <= '9'
  }

  predicate AllDigits(s: string) {
    forall i :: 0 <= i < |s| ==> IsDigit(s[i])
  }

  /** `parseInt(s, 10)` of a string of digits, leading zeros included. */
  function DecimalValue(s: string): nat
    requires AllDigits(s)
    decreases |s|
  {
    if s == [] then 0
    else DecimalValue(s[..|s| - 1]) * 10 + ((s[|s| - 1] as int) - ('0' as int))
  }

  /** `value.match(/^(\d+)([smhd])$/)`: the captured digits and unit. */
  function MatchDuration(s: string): (r: Option<(string, Unit)>)
    ensures r.Some? <==> |s| >= 2 && AllDigits(s[..|s| - 1]) && s[|s| - 1] in "smhd"
    ensures r.Some? ==> r.value.0 != [] && AllDigits(r.value.0) && s == r.value.0 + [UnitChar(r.value.1)]
  {
    if |s| >= 2 && AllDigits(s[..|s| - 1]) && UnitOf(s[|s| - 1]).Some? then
      Some((s[..|s| - 1], UnitOf(s[|s| - 1]).value))
    else None
  }

  /** The input has the shape the pattern accepts. */
  predicate Matched(value: Option<string>) {
    value.Some? && MatchDuration(value.value).Some?
  }

  /** `parseExpiresIn(value, defaultSeconds)`. */
  function ParseExpiresIn(value: Option<string>, defaultSeconds: int): (r: int)
    ensures !Matched(value) ==> r == defaultSeconds
    ensures Matched(value) ==> r >= 0
    ensures Matched(value) ==>
      var (digits, unit) := MatchDuration(value.value).value;
      r == DecimalValue(digits) * Multiplier(unit)
  {
    if value.None? || value.value == "" then defaultSeconds
    else
      match MatchDuration(value.value)
      case None => defaultSeconds
      case Some((digits, unit)) => DecimalValue(digits) * Multiplier(unit)
  }

  /**
   * The default is used exactly when the input does not match: two
   * different defaults give the same result if and only if the input matched,
   * so even "0s" does not fall back to the default.
   */
  lemma DefaultUsedIffUnmatched(value: Option<string>, d1: int, d2: int)
    requires d1 != d2
    ensures ParseExpiresIn(value, d1) == ParseExpiresIn(value, d2) <==> Matched(value)
  {
  }

  /** The decimal digit for `d`. */
  function DigitChar(d: nat): (c: char)
    requires d < 10
    ensures IsDigit(c) && (c as int) - ('0' as int) == d
  {
    (('0' as int) + d) as char
  }

  /** The decimal spelling of `n`, without leading zeros. */
  function NatToString(n: nat): (s: string)
    ensures s != [] && AllDigits(s)
    decreases n
  {
    if n < 10 then [DigitChar(n)] else NatToString(n / 10) + [DigitChar(n % 10)]
  }

  lemma {:induction false} DecimalOfNatToString(n: nat)
    ensures DecimalValue(NatToString(n)) == n
    decreases n
  {
    var s := NatToString(n);
    if n < 10 {
      assert s[..|s| - 1] == [];
    } else {
      assert s[..|s| - 1] == NatToString(n / 10);
      DecimalOfNatToString(n / 10);
    }
  }

  /** The duration text for `n` units, such as "15m". */
  function FormatDuration(n: nat, u: Unit): string {
    NatToString(n) + [UnitChar(u)]
  }

  /** Reading back a written duration gives its length in seconds, whatever the default. */
  lemma ParseFormatted(n: nat, u: Unit, defaultSeconds: int)
    ensures Matched(Some(FormatDuration(n, u)))
    ensures ParseExpiresIn(Some(FormatDuration(n, u)), defaultSeconds) == n * Multiplier(u)
  {
    var s := FormatDuration(n, u);
    assert s[..|s| - 1] == NatToString(n);
    DecimalOfNatToString(n);
  }

  /** The configured defaults are the durations "15m" and "7d". */
  lemma DefaultsAreDurations()
    ensures ParseExpiresIn(Some("15m"), 0) == ACCESS_DEFAULT
    ensures ParseExpiresIn(Some("7d"), 0) == REFRESH_DEFAULT
  {
    ParseFormatted(15, Minutes, 0);
    assert FormatDuration(15, Minutes) == "15m";
    ParseFormatted(7, Days, 0);
    assert FormatDuration(7, Days) == "7d";
  }

  datatype JwtSettings = JwtSettings(secret: string, expiresIn: int, refreshExpiresIn: int)

  /** The `jwt` configuration namespace, from `JWT_SECRET`, `JWT_EXPIRES_IN` and `JWT_REFRESH_EXPIRES_IN`. */
  function Settings(secretEnv: Option<string>, expiresEnv: Option<string>, refreshEnv: Option<string>): (r: JwtSettings)
    ensures r.secret == (if secretEnv.Some? && secretEnv.value != "" then secretEnv.value else SECRET_DEFAULT)
    ensures !Matched(expiresEnv) ==> r.expiresIn == ACCESS_DEFAULT
    ensures !Matched(refreshEnv) ==> r.refreshExpiresIn == REFRESH_DEFAULT
    ensures r.expiresIn >= 0 && r.refreshExpiresIn >= 0
  {
    JwtSettings(OrElse(secretEnv, SECRET_DEFAULT),
                ParseExpiresIn(expiresEnv, ACCESS_DEFAULT),
                ParseExpiresIn(refreshEnv, REFRESH_DEFAULT))
  }
}
