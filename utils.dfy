/** Environment lookups, the truthy-flag rule and the timestamp format of the
    packaged runtime's helpers. The process environment is a map given as
    an argument; the wall clock is a `DateTime` given as an argument. */
module Utils {
  import opened Common
  import opened Text

  type Env = map<string, string>

  /** `env_str(name, default)`: the default stands in only for an unset
      variable; a variable set to "" comes back as "". */
  function EnvStr(env: Env, name: string, default: Option<string>): (r: Option<string>)
    ensures name in env ==> r == Some(env[name])
    ensures name !in env ==> r == default
  {
    if name in env then Some(env[name]) else default
  }

  /** The spellings `env_flag` reads as true, after strip and lower. */
  predicate TruthyFlag(v: string)
  {
    v == "1" || v == "true" || v == "yes" || v == "on"
  }

  /** `env_flag(name, default)`. */
  function EnvFlag(env: Env, name: string, default: bool): (r: bool)
    ensures name !in env ==> r == default
    ensures name in env ==> (r <==> TruthyFlag(Lower(Strip(env[name]))))
  {
    if name !in env then default else TruthyFlag(Lower(Strip(env[name])))
  }

  /** Surrounding whitespace in the variable never changes the flag. */
  lemma EnvFlagPadded(env: Env, name: string, default: bool, a: string, v: string, b: string)
    requires IsBlank(a) && IsBlank(b)
    ensures EnvFlag(env[name := a + v + b], name, default) == EnvFlag(env[name := v], name, default)
  {
    StripPadded(a, v, b);
  }

  const PreserveWorkdirVar := "ADAPTER_PRESERVE_WORKDIR"

  /** `should_preserve_workdir()`. */
  function ShouldPreserveWorkdir(env: Env): (r: bool)
    ensures r == EnvFlag(env, PreserveWorkdirVar, false)
    ensures PreserveWorkdirVar !in env ==> !r
  {
    EnvFlag(env, PreserveWorkdirVar, false)
  }

  /** `coalesce(value, fallback)`. */
  function Coalesce(value: Option<string>, fallback: string): (r: string)
    ensures value.Some? && value.value != "" ==> r == value.value
    ensures value.None? || value.value == "" ==> r == fallback
    ensures r == "" ==> fallback == ""
  {
    if value.Some? && value.value != "" then value.value else fallback
  }

  /** A UTC instant, as `datetime.now(timezone.utc)` would give it. */
  datatype DateTime = DateTime(year: int, month: int, day: int, hour: int, minute: int, second: int)

  predicate ValidDateTime(t: DateTime)
  {
    1000 <= t.year <= 9999 && 1 <= t.month <= 12 && 1 <= t.day <= 31
    && 0 <= t.hour < 24 && 0 <= t.minute < 60 && 0 <= t.second < 62
  }

  /** Two zero-padded decimal digits, as `%m`, `%d`, `%H`, `%M`, `%S`
      print them. */
  function Pad2(n: nat): (r: string)
    requires n < 100
    ensures |r| == 2 && AllDigits(r)
  {
    [DigitChar(n / 10), DigitChar(n % 10)]
  }

  /** `t.strftime("%Y-%m-%dT%H:%M:%SZ")`. */
  function IsoFormat(t: DateTime): (r: string)
    requires ValidDateTime(t)
    ensures |r| == 20
    ensures r[4] == '-' && r[7] == '-' && r[10] == 'T' && r[13] == ':' && r[16] == ':'
    ensures r[19] == 'Z'
    ensures AllDigits(r[..4]) && AllDigits(r[5..7]) && AllDigits(r[8..10])
    ensures AllDigits(r[11..13]) && AllDigits(r[14..16]) && AllDigits(r[17..19])
  {
    var y := NatToString(t.year);
    assert |y| == 4 by { YearDigits(t.year); }
    var r := y + "-" + Pad2(t.month) + "-" + Pad2(t.day) + "T"
             + Pad2(t.hour) + ":" + Pad2(t.minute) + ":" + Pad2(t.second) + "Z";
    assert r[..4] == y;
    assert r[5..7] == Pad2(t.month) && r[8..10] == Pad2(t.day);
    assert r[11..13] == Pad2(t.hour) && r[14..16] == Pad2(t.minute) && r[17..19] == Pad2(t.second);
    r
  }

  lemma YearDigits(n: nat)
    requires 1000 <= n <= 9999
    ensures |NatToString(n)| == 4
  {
    assert n / 10 / 10 / 10 < 10;
    assert NatToString(n / 10 / 10 / 10) == [DigitChar(n / 10 / 10 / 10)];
    assert |NatToString(n / 10 / 10)| == 2;
    assert |NatToString(n / 10)| == 3;
  }

  /** The year, month, day, hour, minute and second read back from the
      string are the ones formatted into it. */
  lemma IsoFormatFields(t: DateTime)
    requires ValidDateTime(t)
    ensures DigitsValue(IsoFormat(t)[..4]) == t.year
    ensures DigitsValue(IsoFormat(t)[5..7]) == t.month
    ensures DigitsValue(IsoFormat(t)[8..10]) == t.day
    ensures DigitsValue(IsoFormat(t)[11..13]) == t.hour
    ensures DigitsValue(IsoFormat(t)[14..16]) == t.minute
    ensures DigitsValue(IsoFormat(t)[17..19]) == t.second
  {
    var r := IsoFormat(t);
    YearDigits(t.year);
    assert r[..4] == NatToString(t.year);
    NatToStringValue(t.year);
    assert r[5..7] == Pad2(t.month) && r[8..10] == Pad2(t.day);
    assert r[11..13] == Pad2(t.hour) && r[14..16] == Pad2(t.minute) && r[17..19] == Pad2(t.second);
    Pad2Value(t.month);
    Pad2Value(t.day);
    Pad2Value(t.hour);
    Pad2Value(t.minute);
    Pad2Value(t.second);
  }

  lemma Pad2Value(n: nat)
    requires n < 100
    ensures DigitsValue(Pad2(n)) == n
  {
    var r := Pad2(n);
    assert r[..1] == [DigitChar(n / 10)];
    assert DigitsValue([DigitChar(n / 10)]) == n / 10 by {
      assert [DigitChar(n / 10)][..0] == [];
    }
  }
}
