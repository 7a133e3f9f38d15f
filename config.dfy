/**
 * Configuration loading helpers (config.py): environment-variable values
 * parsed into booleans, integers or strings; `EMS_A__B__C=v` variables
 * written into the nested configuration mapping; the device-type display
 * names and icons; and the minimum poll interval of a device.
 */
module Config {

  import opened Common
  import opened Strings

  const EnvPrefix := "EMS_"

  /** A parsed environment value. */
  datatype EnvValue = EBool(b: bool) | EInt(i: int) | EFloat(f: real) | EStr(s: string)

  /** Python's `int()` accepts digit groups joined by single underscores. */
  predicate DigitGroups(s: string)
    decreases |s|
  {
    |s| > 0 && IsAsciiDigit(s[0])
    && (|s| == 1 || DigitGroups(s[1..]) || (s[1] == '_' && DigitGroups(s[2..])))
  }

  predicate NotUnderscore(c: char)
  {
    c != '_'
  }

  /** The digits of `s` with the underscores removed: every other character is kept, in order. */
  function Digits(s: string): (r: string)
    ensures forall k :: 0 <= k < |r| ==> r[k] != '_'
    ensures |r| == |s| - CountChar(s, '_')
  {
    if |s| == 0 then "" else (if s[0] == '_' then "" else [s[0]]) + Digits(s[1..])
  }

  /** Dropping the underscores is filtering them out: the other characters stay, in their order. */
  lemma {:induction false} DigitsFilters(s: string)
    ensures Digits(s) == Filter(s, NotUnderscore)
  {
    if |s| > 0 {
      DigitsFilters(s[1..]);
    }
  }

  /** Python's `int(text)` in base 10: surrounding white space, an optional sign, then digit groups. */
  function PyInt(text: string): (r: Option<int>)
    ensures r.Some? ==> |PyStrip(text)| > 0
  {
    var t := PyStrip(text);
    if |t| == 0 then None else SignedValue(t)
  }

  /** The value of a stripped, non-empty `int()` argument: an optional sign, then digit groups. */
  function SignedValue(t: string): Option<int>
    requires |t| > 0
  {
    var negative := t[0] == '-';
    var body := if t[0] == '-' || t[0] == '+' then t[1..] else t;
    if !DigitGroups(body) then None
    else
      var magnitude: int := DecimalValue(Digits(body));
      Some(if negative then -magnitude else magnitude)
  }

  lemma {:induction false} DigitsOfDigitString(s: string)
    requires forall k :: 0 <= k < |s| ==> IsAsciiDigit(s[k])
    ensures Digits(s) == s
  {
    if |s| > 0 {
      DigitsOfDigitString(s[1..]);
      assert [s[0]] + s[1..] == s;
    }
  }

  /** A string of decimal digits forms one digit group. */
  lemma {:induction false} DigitStringIsGroup(d: string)
    requires |d| > 0 && forall k :: 0 <= k < |d| ==> IsAsciiDigit(d[k])
    ensures DigitGroups(d) && Digits(d) == d
  {
    DigitsOfDigitString(d);
    if |d| > 1 {
      DigitStringIsGroup(d[1..]);
    }
  }

  /** The signed value of decimal digits. */
  lemma SignedDigits(d: string)
    requires |d| > 0 && forall k :: 0 <= k < |d| ==> IsAsciiDigit(d[k])
    ensures SignedValue(d) == Some(DecimalValue(d) as int)
  {
    DigitStringIsGroup(d);
    assert d[0] != '-' && d[0] != '+';
  }

  /** The signed value of a '-' followed by decimal digits. */
  lemma SignedNegatedDigits(d: string, s: string)
    requires |d| > 0 && forall k :: 0 <= k < |d| ==> IsAsciiDigit(d[k])
    requires |s| == |d| + 1 && s[0] == '-' && s[1..] == d
    ensures SignedValue(s) == Some(-(DecimalValue(d) as int))
  {
    DigitStringIsGroup(d);
    assert s[0] != '+' && DigitGroups(s[1..]) && Digits(s[1..]) == d;
  }

  /** A text with no white space at either end is its own strip. */
  lemma DigitEndsUnstripped(s: string)
    requires |s| > 0 && (s[0] == '-' || IsAsciiDigit(s[0])) && IsAsciiDigit(s[|s| - 1])
    ensures PyStrip(s) == s
  {
    assert !IsPySpace(s[0]);
    assert !IsPySpace(s[|s| - 1]);
    TrimByNoSpaceEnds(s, IsPySpace);
  }

  /** `int()` of decimal digits. */
  lemma PyIntOfDigits(d: string)
    requires |d| > 0 && forall k :: 0 <= k < |d| ==> IsAsciiDigit(d[k])
    ensures PyInt(d) == Some(DecimalValue(d) as int)
  {
    PyIntOfNumberText(d);
    SignedDigits(d);
  }

  /** `int()` of a text that starts with a sign or digit and ends with a digit has nothing to strip. */
  lemma PyIntOfNumberText(t: string)
    requires |t| > 0 && (t[0] == '-' || IsAsciiDigit(t[0])) && IsAsciiDigit(t[|t| - 1])
    ensures PyInt(t) == SignedValue(t)
  {
    DigitEndsUnstripped(t);
  }



  /** `int()` of a '-' followed by decimal digits. */
  lemma PyIntOfNegatedDigits(d: string)
    requires |d| > 0 && forall k :: 0 <= k < |d| ==> IsAsciiDigit(d[k])
    ensures PyInt("-" + d) == Some(-(DecimalValue(d) as int))
  {
    var s := "-" + d;
    assert s[|s| - 1] == d[|d| - 1];
    assert s[1..] == d;
    DigitEndsUnstripped(s);
    SignedNegatedDigits(d, s);
  }

  /** `int()` reads back every integer written in decimal. */
  lemma PyIntRoundTrip(n: int)
    ensures PyInt(IntToString(n)) == Some(n)
  {
    var m: nat := if n < 0 then -n else n;
    DecimalRoundTrip(m);
    if n < 0 {
      PyIntOfNegatedDigits(NatToString(m));
    } else {
      PyIntOfDigits(NatToString(m));
    }
  }

  /**
   * `_parse_env_value`: 'true'/'false' in any letter case are booleans;
   * a value with a '.' is whatever `float()` makes of it; any other value is
   * an integer when `int()` accepts it; a value that fails to parse stays the
   * string it was. `parseFloat` stands for Python's `float()`.
   */
  function ParseEnvValue(value: string, parseFloat: string -> Option<real>): (r: EnvValue)
    ensures Lower(value) == "true" ==> r == EBool(true)
    ensures Lower(value) == "false" ==> r == EBool(false)
    ensures r.EBool? ==> Lower(value) == "true" || Lower(value) == "false"
    ensures r.EFloat? ==> '.' in value && parseFloat(value) == Some(r.f)
    ensures r.EInt? ==> '.' !in value && PyInt(value) == Some(r.i)
    ensures r.EStr? ==> r.s == value
    ensures Lower(value) != "true" && Lower(value) != "false" && '.' !in value && PyInt(value).Some? ==> r == EInt(PyInt(value).value)
    ensures Lower(value) != "true" && Lower(value) != "false" && '.' in value && parseFloat(value).Some? ==> r == EFloat(parseFloat(value).value)
    ensures r.EStr? <==> (Lower(value) != "true" && Lower(value) != "false"
                          && (if '.' in value then parseFloat(value).None? else PyInt(value).None?))
  {
    var lowered := Lower(value);
    if lowered == "true" || lowered == "false" then EBool(lowered == "true")
    else if '.' in value then
      match parseFloat(value)
      case Some(f) => EFloat(f)
      case None => EStr(value)
    else
      match PyInt(value)
      case Some(i) => EInt(i)
      case None => EStr(value)
  }

  /** A decimal integer in an environment variable is read as that integer. */
  lemma IntegerValuesParse(n: int, parseFloat: string -> Option<real>)
    ensures ParseEnvValue(IntToString(n), parseFloat) == EInt(n)
  {
    var s := IntToString(n);
    PyIntRoundTrip(n);
    IntTextLowered(n);
    NotAWord(s);
    IntTextHasNoDot(n);
  }

  /** A text ending in a digit is neither 'true' nor 'false'. */
  lemma NotAWord(s: string)
    requires |s| > 0 && IsAsciiDigit(s[|s| - 1])
    ensures s != "true" && s != "false"
  {
  }

  /** The decimal text of an integer has no capital, so lowering keeps it. */
  lemma IntTextLowered(n: int)
    ensures Lower(IntToString(n)) == IntToString(n)
  {
    var s := IntToString(n);
    assert forall k :: 0 <= k < |s| ==> s[k] == '-' || IsAsciiDigit(s[k]);
    LowerWithoutCapitals(s);
  }

  /** The decimal text of an integer has no point in it. */
  lemma IntTextHasNoDot(n: int)
    ensures '.' !in IntToString(n)
  {
    var s := IntToString(n);
    forall k | 0 <= k < |s|
      ensures s[k] != '.'
    {
      assert s[k] == '-' || IsAsciiDigit(s[k]);
    }
  }

  /**
   * A node of the configuration as loaded from YAML: a mapping, or any other
   * value (scalar or list), which the override walk only ever replaces.
   */
  datatype Node = Mapping(entries: map<string, Node>) | Atom(value: EnvValue)

  /**
   * The assignment `cursor[path[-1]] = value` after walking `path[:-1]`:
   * a missing or non-mapping step is replaced by an empty mapping first.
   */
  function SetPath(m: map<string, Node>, path: seq<string>, value: EnvValue): (r: map<string, Node>)
    requires |path| >= 1
    ensures r.Keys == m.Keys + {path[0]}
    ensures forall k :: k in m && k != path[0] ==> r[k] == m[k]
    ensures |path| == 1 ==> r[path[0]] == Atom(value)
    ensures |path| > 1 ==> r[path[0]].Mapping?
    decreases |path|
  {
    if |path| == 1 then m[path[0] := Atom(value)]
    else
      var child := if path[0] in m && m[path[0]].Mapping? then m[path[0]].entries else map[];
      m[path[0] := Mapping(SetPath(child, path[1..], value))]
  }

  /** The node reached by following `path` from `m`, if every step is a mapping holding the next key. */
  function GetPath(m: map<string, Node>, path: seq<string>): Option<Node>
    requires |path| >= 1
    decreases |path|
  {
    if path[0] !in m then None
    else if |path| == 1 then Some(m[path[0]])
    else match m[path[0]]
      case Mapping(child) => GetPath(child, path[1..])
      case Atom(_) => None
  }

  /** After the walk, the path leads to the assigned value. */
  lemma {:induction false} SetThenGet(m: map<string, Node>, path: seq<string>, value: EnvValue)
    requires |path| >= 1
    ensures GetPath(SetPath(m, path, value), path) == Some(Atom(value))
    decreases |path|
  {
    if |path| > 1 {
      var child := if path[0] in m && m[path[0]].Mapping? then m[path[0]].entries else map[];
      SetThenGet(child, path[1..], value);
    }
  }

  /** A mapping met on the way keeps all its other keys; a missing or non-mapping step starts empty. */
  lemma IntermediateKept(m: map<string, Node>, path: seq<string>, value: EnvValue)
    requires |path| > 1
    ensures path[0] in m && m[path[0]].Mapping? ==>
      forall k :: k in m[path[0]].entries && k != path[1] ==>
        k in SetPath(m, path, value)[path[0]].entries && SetPath(m, path, value)[path[0]].entries[k] == m[path[0]].entries[k]
    ensures !(path[0] in m && m[path[0]].Mapping?) ==>
      SetPath(m, path, value)[path[0]].entries.Keys == {path[1]}
  {
  }

  /** `key[len('EMS_'):].lower().split('__')`. */
  function OverridePath(key: string): (path: seq<string>)
    requires |key| >= |EnvPrefix|
    ensures |path| >= 1
  {
    Split(Lower(key[|EnvPrefix|..]), "__")
  }

  predicate HasPrefix(key: string)
  {
    |key| >= |EnvPrefix| && key[..|EnvPrefix|] == EnvPrefix
  }

  /** The configuration after the environment entries `env`, taken in order. */
  function Applied(data: map<string, Node>, env: seq<(string, string)>, parseFloat: string -> Option<real>): map<string, Node>
  {
    if |env| == 0 then data
    else
      var before := Applied(data, env[..|env| - 1], parseFloat);
      var (key, value) := env[|env| - 1];
      if HasPrefix(key) then SetPath(before, OverridePath(key), ParseEnvValue(value, parseFloat))
      else before
  }

  /** The environment entries carrying the 'EMS_' prefix, in order. */
  function Prefixed(env: seq<(string, string)>): (r: seq<(string, string)>)
    ensures |r| <= |env|
    ensures forall k :: 0 <= k < |r| ==> HasPrefix(r[k].0)
  {
    if |env| == 0 then []
    else
      var before := Prefixed(env[..|env| - 1]);
      if HasPrefix(env[|env| - 1].0) then before + [env[|env| - 1]] else before
  }

  /** No 'EMS_' entry is dropped. */
  lemma {:induction false} PrefixedKeepsAll(env: seq<(string, string)>)
    ensures forall k :: 0 <= k < |env| && HasPrefix(env[k].0) ==> env[k] in Prefixed(env)
  {
    if |env| > 0 {
      var n := |env| - 1;
      PrefixedKeepsAll(env[..n]);
      forall k | 0 <= k < |env| && HasPrefix(env[k].0)
        ensures env[k] in Prefixed(env)
      {
        if k < n {
          assert env[k] == env[..n][k];
        }
      }
    }
  }

  /** Variables without the 'EMS_' prefix are ignored: only the prefixed ones matter. */
  lemma {:induction false} OnlyPrefixedCount(data: map<string, Node>, env: seq<(string, string)>, parseFloat: string -> Option<real>)
    ensures Applied(data, env, parseFloat) == Applied(data, Prefixed(env), parseFloat)
  {
    if |env| > 0 {
      var n := |env| - 1;
      OnlyPrefixedCount(data, env[..n], parseFloat);
      if HasPrefix(env[n].0) {
        assert Prefixed(env) == Prefixed(env[..n]) + [env[n]];
        AppliedSnoc(data, Prefixed(env[..n]), env[n], parseFloat);
      } else {
        assert Prefixed(env) == Prefixed(env[..n]);
        assert Applied(data, env, parseFloat) == Applied(data, env[..n], parseFloat);
      }
    }
  }

  /** Applying one more entry after `kept`. */
  lemma AppliedSnoc(data: map<string, Node>, kept: seq<(string, string)>, e: (string, string), parseFloat: string -> Option<real>)
    requires HasPrefix(e.0)
    ensures Applied(data, kept + [e], parseFloat)
         == SetPath(Applied(data, kept, parseFloat), OverridePath(e.0), ParseEnvValue(e.1, parseFloat))
  {
    var all := kept + [e];
    assert all[..|all| - 1] == kept;
  }

  /** The last variable naming a path decides the value found there. */
  lemma LastAssignmentWins(data: map<string, Node>, env: seq<(string, string)>, key: string, value: string, parseFloat: string -> Option<real>)
    requires HasPrefix(key)
    ensures GetPath(Applied(data, env + [(key, value)], parseFloat), OverridePath(key)) == Some(Atom(ParseEnvValue(value, parseFloat)))
  {
    var all := env + [(key, value)];
    assert all[..|all| - 1] == env;
    SetThenGet(Applied(data, env, parseFloat), OverridePath(key), ParseEnvValue(value, parseFloat));
  }

  /**
   * `_apply_env_overrides`: each prefixed variable, in the environment's
   * order, writes its parsed value at its lower-cased '__'-separated path.
   */
  method ApplyEnvOverrides(data: map<string, Node>, env: seq<(string, string)>, parseFloat: string -> Option<real>)
    returns (result: map<string, Node>)
    ensures result == Applied(data, env, parseFloat)
  {
    result := data;
    var i := 0;
    while i < |env|
      invariant 0 <= i <= |env|
      invariant result == Applied(data, env[..i], parseFloat)
    {
      assert env[..i + 1][..i] == env[..i];
      var (key, value) := env[i];
      if HasPrefix(key) {
        result := SetPath(result, OverridePath(key), ParseEnvValue(value, parseFloat));
      }
      i := i + 1;
    }
    assert env[..i] == env;
  }

  /** The fixed display names of the known device types. */
  function DisplayNames(): map<string, string>
  {
    map[
      "inverter" := "Solar Inverter",
      "meter" := "Energy Meter",
      "weather" := "Weather Station",
      "tracker" := "Solar Tracker",
      "bms" := "Battery Management System",
      "breaker" := "Smart Breaker",
      "facility" := "Facility Monitor",
      "security" := "Security System",
      "power_analyzer" := "Power Quality Analyzer",
      "string_monitor" := "String Monitor",
      "transformer" := "Transformer Monitor",
      "scada_gateway" := "SCADA Gateway",
      "generic_modbus" := "Generic Modbus Device",
      "dio" := "Digital I/O Expander"
    ]
  }

  /** The fixed icons of the known device types. */
  function Icons(): map<string, string>
  {
    map[
      "inverter" := "\U{26A1}",
      "meter" := "\U{1F4CA}",
      "weather" := "\U{1F324}",
      "tracker" := "\U{1F3AF}",
      "bms" := "\U{1F50B}",
      "breaker" := "\U{1F50C}",
      "facility" := "\U{1F3ED}",
      "security" := "\U{1F512}",
      "power_analyzer" := "\U{1F4C8}",
      "string_monitor" := "\U{1F517}",
      "transformer" := "\U{26A1}",
      "scada_gateway" := "\U{1F310}",
      "generic_modbus" := "\U{1F4E1}",
      "dio" := "\U{1F39B}"
    ]
  }

  const FallbackIcon := "\U{1F4DF}"

  /** One character of a title: a letter after a letter is lower case, a letter after anything else upper case. */
  function TitledChar(c: char, afterLetter: bool): char
  {
    if !IsAsciiLetter(c) then c else if afterLetter then LowerChar(c) else UpperChar(c)
  }

  /** Whether the character before position `i` is a letter (`afterLetter` before the first). */
  predicate LetterBefore(s: string, i: nat, afterLetter: bool)
    requires i <= |s|
  {
    if i == 0 then afterLetter else IsAsciiLetter(s[i - 1])
  }

  /** Python's `str.title()`, continuing after a letter when `afterLetter`. */
  function TitleFrom(s: string, afterLetter: bool): (r: string)
    ensures |r| == |s|
  {
    if |s| == 0 then ""
    else [TitledChar(s[0], afterLetter)] + TitleFrom(s[1..], IsAsciiLetter(s[0]))
  }

  function Title(s: string): (r: string)
    ensures |r| == |s|
  {
    TitleFrom(s, false)
  }

  /** Each character of the title depends only on itself and whether a letter precedes it. */
  lemma {:induction false} TitleCharacters(s: string, afterLetter: bool)
    ensures forall i :: 0 <= i < |s| ==> TitleFrom(s, afterLetter)[i] == TitledChar(s[i], LetterBefore(s, i, afterLetter))
  {
    if |s| > 0 {
      var tail := s[1..];
      var rest := TitleFrom(tail, IsAsciiLetter(s[0]));
      TitleCharacters(tail, IsAsciiLetter(s[0]));
      assert TitleFrom(s, afterLetter) == [TitledChar(s[0], afterLetter)] + rest;
      forall i | 1 <= i < |s|
        ensures TitleFrom(s, afterLetter)[i] == TitledChar(s[i], LetterBefore(s, i, afterLetter))
      {
        assert tail[i - 1] == s[i];
        assert LetterBefore(tail, i - 1, IsAsciiLetter(s[0])) == LetterBefore(s, i, afterLetter);
      }
    }
  }

  /** `get_display_name`: the fixed name, or the type with '_' as ' ' in title case. */
  function DisplayName(deviceType: string): (r: string)
    ensures deviceType in DisplayNames() ==> r == DisplayNames()[deviceType]
    ensures deviceType !in DisplayNames() ==> r == Title(ReplaceChar(deviceType, '_', " "))
  {
    if deviceType in DisplayNames() then DisplayNames()[deviceType]
    else Title(ReplaceChar(deviceType, '_', " "))
  }

  /** An unknown type is shown in title case with its underscores turned into spaces. */
  lemma UnknownDisplayName(u: string)
    requires u == "unknown"
    ensures DisplayName(u) == "Unknown"
  {
    UnknownIsUnlisted();
    UnlistedLowerWord(u);
    assert UpperChar(u[0]) == 'U';
    assert u[1..] == "nknown";
  }

  /** An unlisted lower-case word is shown with its first letter capitalised. */
  lemma UnlistedLowerWord(t: string)
    requires t !in DisplayNames()
    requires |t| > 0 && forall k :: 0 <= k < |t| ==> IsAsciiLower(t[k])
    ensures DisplayName(t) == [UpperChar(t[0])] + t[1..]
  {
    assert '_' !in t;
    LowerAfterLetter(t[1..]);
    assert Title(t) == [UpperChar(t[0])] + TitleFrom(t[1..], true);
  }

  lemma UnknownIsUnlisted()
    ensures "unknown" !in DisplayNames()
  {
  }

  /** Lower-case letters after a letter stay as they are. */
  lemma {:induction false} LowerAfterLetter(s: string)
    requires forall k :: 0 <= k < |s| ==> IsAsciiLower(s[k])
    ensures TitleFrom(s, true) == s
  {
    if |s| > 0 {
      LowerAfterLetter(s[1..]);
      assert [s[0]] + s[1..] == s;
    }
  }

  /** `get_icon`: the fixed icon, or the pager. */
  function Icon(deviceType: string): (r: string)
    ensures deviceType in Icons() ==> r == Icons()[deviceType]
    ensures deviceType !in Icons() ==> r == FallbackIcon
  {
    if deviceType in Icons() then Icons()[deviceType] else FallbackIcon
  }

  /** Both tables cover exactly the fourteen device types. */
  lemma TablesCoverSameTypes()
    ensures forall t :: t in DisplayNames() <==> t in Icons()
  {
  }

  datatype Validated<T> = Valid(value: T) | Invalid(message: string)

  /** `DeviceConfig._min_poll`: poll intervals below five seconds are refused. */
  function MinPoll(value: int): (r: Validated<int>)
    ensures r.Valid? <==> value >= 5
    ensures r.Valid? ==> r.value == value
    ensures r.Invalid? ==> r.message == "poll_interval_s must be >= 5 seconds"
  {
    if value < 5 then Invalid("poll_interval_s must be >= 5 seconds") else Valid(value)
  }
}
