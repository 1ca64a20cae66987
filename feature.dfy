/**
 * The backend's feature switches, read once from the environment at load: the
 * list of user ids with call limits, the switch that limits every user, and the
 * switch that enables allow-list SMS. The environment is passed in explicitly.
 */
module Feature {
  import opened Wrappers
  import opened JsStrings

  /** The three environment variables; `None` when unset. */
  datatype Env = Env(
    callLimitsEnabledNumbers: Option<string>,  // CALL_LIMITS_ENABLED_NUMBERS
    enableCallLimitAll: Option<string>,        // ENABLE_CALL_LIMIT_ALL
    enableAllowlistSms: Option<string>)        // ENABLE_ALLOWLIST_SMS

  /** A JavaScript number as far as this code can produce one from a string. */
  datatype Number = Num(value: nat) | NaN

  predicate IsDigit(c: char) {
    '0' <= c <= '9'
  }

  predicate AllDigits(s: string) {
    forall k :: 0 <= k < |s| ==> IsDigit(s[k])
  }

  /** The decimal value of a string of digits. */
  function DigitsValue(s: string): nat
    requires AllDigits(s)
  {
    if s == [] then 0 else 10 * DigitsValue(s[..|s| - 1]) + (s[|s| - 1] as int - '0' as int)
  }

  /** `Number(s)` restricted to plain decimal digits: the empty string is 0, anything else not a number. */
  function ToNumber(s: string): (n: Number)
    ensures s == "" ==> n == Num(0)
    ensures n.Num? <==> AllDigits(s)
  {
    if AllDigits(s) then Num(DigitsValue(s)) else NaN
  }

  /** The values the module computes once at load. */
  datatype Config = Config(
    callLimitNumbers: seq<Number>,
    enableCallLimitAll: Option<string>,
    enableAllowlistSms: Option<string>)

  /** JavaScript truthiness of an optional string. */
  predicate Truthy(s: Option<string>) {
    s.Some? && s.value != ""
  }

  /** `CALL_LIMITS_ENABLED_NUMBERS`, defaulting to `''`, split on commas. */
  function Pieces(env: Env): seq<string> {
    Split(env.callLimitsEnabledNumbers.GetOr(""), ',')
  }

  /**
   * Loading the module: each comma-separated piece of the list converted with
   * `Number`, one entry per piece in order; the two switches kept as they are.
   */
  function Load(env: Env): (c: Config)
    ensures |c.callLimitNumbers| == |Pieces(env)|
    ensures forall k :: 0 <= k < |Pieces(env)| ==> c.callLimitNumbers[k] == ToNumber(Pieces(env)[k])
    ensures c.enableCallLimitAll == env.enableCallLimitAll && c.enableAllowlistSms == env.enableAllowlistSms
  {
    var pieces := Pieces(env);
    Config(seq(|pieces|, k requires 0 <= k < |pieces| => ToNumber(pieces[k])), env.enableCallLimitAll, env.enableAllowlistSms)
  }

  /** The value `shouldEnableCallLimits` returns: the switch's own string when it is truthy, else a boolean. */
  datatype JsValue = JsString(s: string) | JsBool(b: bool)

  predicate TruthyValue(v: JsValue) {
    match v
    case JsString(s) => s != ""
    case JsBool(b) => b
  }

  /**
   * `shouldEnableCallLimits(userId)`: truthy for everyone when
   * `ENABLE_CALL_LIMIT_ALL` is a non-empty string, otherwise exactly for the
   * user ids in the list.
   */
  function ShouldEnableCallLimits(c: Config, userId: nat): (r: JsValue)
    ensures TruthyValue(r) <==> Truthy(c.enableCallLimitAll) || Num(userId) in c.callLimitNumbers
    ensures Truthy(c.enableCallLimitAll) ==> r == JsString(c.enableCallLimitAll.value)
  {
    if Truthy(c.enableCallLimitAll) then JsString(c.enableCallLimitAll.value)
    else JsBool(Num(userId) in c.callLimitNumbers)
  }

  /** `shouldEnableAllowlistSms()`: any non-empty string enables it, `"false"` included. */
  function ShouldEnableAllowlistSms(c: Config): (r: bool)
    ensures r <==> c.enableAllowlistSms.Some? && |c.enableAllowlistSms.value| > 0
  {
    Truthy(c.enableAllowlistSms)
  }

  /** Without the switch for everyone, a user is limited exactly when some piece of the list reads as its id. */
  lemma CallLimitsFromList(env: Env, userId: nat)
    requires !Truthy(env.enableCallLimitAll)
    ensures TruthyValue(ShouldEnableCallLimits(Load(env), userId)) <==>
      exists k :: 0 <= k < |Pieces(env)| && ToNumber(Pieces(env)[k]) == Num(userId)
  {
    var c := Load(env);
    var pieces := Pieces(env);
    assert TruthyValue(ShouldEnableCallLimits(c, userId)) <==> Num(userId) in c.callLimitNumbers;
    ListedIff(c.callLimitNumbers, pieces, Num(userId));
    assert TruthyValue(ShouldEnableCallLimits(c, userId)) <==>
      exists k :: 0 <= k < |pieces| && ToNumber(pieces[k]) == Num(userId);
  }

  /** A value is in the converted list exactly when some piece converts to it. */
  lemma ListedIff(numbers: seq<Number>, pieces: seq<string>, n: Number)
    requires |numbers| == |pieces| && forall k :: 0 <= k < |pieces| ==> numbers[k] == ToNumber(pieces[k])
    ensures n in numbers <==> exists k :: 0 <= k < |pieces| && ToNumber(pieces[k]) == n
  {
    if n in numbers {
      var k :| 0 <= k < |numbers| && numbers[k] == n;
      assert ToNumber(pieces[k]) == n;
    }
  }

  /** The list holds one entry per comma-separated piece: the number of commas plus one. */
  lemma CallLimitListLength(env: Env)
    ensures |Load(env).callLimitNumbers| == Count(env.callLimitsEnabledNumbers.GetOr(""), ',') + 1
  {
    SplitLength(env.callLimitsEnabledNumbers.GetOr(""), ',');
  }

  /** Unset, the list is `['']`, which `Number` turns into `[0]`: user 0 is call-limited. */
  lemma UnsetListLimitsUserZero(env: Env)
    requires env.callLimitsEnabledNumbers.None?
    ensures Load(env).callLimitNumbers == [Num(0)]
    ensures TruthyValue(ShouldEnableCallLimits(Load(env), 0))
  {
    assert Split("", ',') == [""];
  }

  /** A list of decimal ids joined by commas limits exactly those ids (with the switch for everyone off). */
  lemma ListedIdsAreLimited(ids: seq<string>, env: Env, userId: nat)
    requires |ids| >= 1 && forall k :: 0 <= k < |ids| ==> ',' !in ids[k]
    requires env.callLimitsEnabledNumbers == Some(Join(ids, ',')) && !Truthy(env.enableCallLimitAll)
    ensures TruthyValue(ShouldEnableCallLimits(Load(env), userId)) <==>
      exists k :: 0 <= k < |ids| && ToNumber(ids[k]) == Num(userId)
  {
    SplitJoin(ids, ',');
    CallLimitsFromList(env, userId);
  }
}
