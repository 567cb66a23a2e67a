/**
 * Reading the bridge's settings (Config.cs). The INI file is a map from
 * (section, key) to the stored string; a missing entry reads as "", which is
 * the default `GetPrivateProfileString` is given.
 */
module Config {
  import opened Wrappers

  type Ini = map<(string, string), string>

  const MIN_INT32 := -0x8000_0000
  const MAX_INT32 := 0x7FFF_FFFF

  datatype ConfigError = Missing(section: string, key: string) | NotAnInteger(section: string, key: string)

  /** The ten settings `Create` fills. */
  datatype Settings = Settings(
    sipServer: string,
    sipUsername: string,
    sipPassword: string,
    sipRegistrationExpiry: int,
    sipPort: int,
    speechKey: string,
    speechRegion: string,
    bargeInOnDtmf: bool,
    bargeInOnSpeech: bool,
    dialogBitsUrl: string)

  /** The INI lookup with default "". */
  function Lookup(ini: Ini, section: string, key: string): string {
    if (section, key) in ini then ini[(section, key)] else ""
  }

  /** `Read`: the stored value, or an error when it is empty (and so also when it is missing). */
  function Read(ini: Ini, section: string, key: string): (r: Result<string, ConfigError>)
    ensures r.Ok? <==> Lookup(ini, section, key) != ""
    ensures r.Ok? ==> r.value == Lookup(ini, section, key)
    ensures r.Err? ==> r.error == Missing(section, key)
  {
    var value := Lookup(ini, section, key);
    if |value| == 0 then Err(Missing(section, key)) else Ok(value)
  }

  // ---------------------------------------------------------------------------
  // `int.TryParse` with the default number style: optional white space at
  // either end, an optional leading sign, decimal digits, and an Int32 range check.

  /** The white space a number may carry at either end: U+0009 to U+000D and the space. */
  predicate IsNumberWhite(c: char) {
    c == ' ' || '\t' <= c <= '\r'
  }

  function StripNumberWhite(s: string): (r: string)
    ensures |r| <= |s|
    ensures (|s| > 0 ==> !IsNumberWhite(s[0]) && !IsNumberWhite(s[|s| - 1])) ==> r == s
  {
    if |s| > 0 && IsNumberWhite(s[0]) then StripNumberWhite(s[1..])
    else if |s| > 0 && IsNumberWhite(s[|s| - 1]) then StripNumberWhite(s[..|s| - 1])
    else s
  }

  predicate IsDigit(c: char) {
    '0' <= c <= '9'
  }

  predicate AllDigits(s: string) {
    forall i :: 0 <= i < |s| ==> IsDigit(s[i])
  }

  /** The value of a string of decimal digits, most significant first. */
  function DigitsValue(s: string): nat
    requires AllDigits(s)
  {
    if s == [] then 0 else DigitsValue(s[..|s| - 1]) * 10 + (s[|s| - 1] as int - '0' as int)
  }

  /** The decimal parser: `None` where `int.TryParse` returns false. */
  function ParseInt32(s: string): (r: Option<int>)
    ensures r.Some? ==> MIN_INT32 <= r.value <= MAX_INT32
    ensures s == "" ==> r.None?
  {
    var t := StripNumberWhite(s);
    var signed := |t| > 0 && (t[0] == '-' || t[0] == '+');
    var digits := if signed then t[1..] else t;
    if |digits| == 0 || !AllDigits(digits) then None
    else
      var magnitude: int := DigitsValue(digits);
      var v := if signed && t[0] == '-' then -magnitude else magnitude;
      if MIN_INT32 <= v <= MAX_INT32 then Some(v) else None
  }

  /** `ReadInt`: `Read`, then the parse; a missing value fails before any parsing. */
  function ReadInt(ini: Ini, section: string, key: string): (r: Result<int, ConfigError>)
    ensures Lookup(ini, section, key) == "" ==> r == Err(Missing(section, key))
    ensures Lookup(ini, section, key) != "" ==>
      (r.Ok? <==> ParseInt32(Lookup(ini, section, key)).Some?) &&
      (r.Ok? ==> r.value == ParseInt32(Lookup(ini, section, key)).value) &&
      (r.Err? ==> r.error == NotAnInteger(section, key))
    ensures r.Ok? ==> MIN_INT32 <= r.value <= MAX_INT32
  {
    var value :- Read(ini, section, key);
    match ParseInt32(value)
    case None => Err(NotAnInteger(section, key))
    case Some(n) => Ok(n)
  }

  /** The values `ReadBool` takes for true; the comparison is case-sensitive. */
  predicate IsTruthy(value: string) {
    value == "true" || value == "t" || value == "1" || value == "on"
  }

  /** `ReadBool`: `Read`, then true exactly for "true", "t", "1" and "on". */
  function ReadBool(ini: Ini, section: string, key: string): (r: Result<bool, ConfigError>)
    ensures Lookup(ini, section, key) == "" ==> r == Err(Missing(section, key))
    ensures Lookup(ini, section, key) != "" ==> r.Ok? && (r.value <==> Lookup(ini, section, key) in {"true", "t", "1", "on"})
  {
    var value :- Read(ini, section, key);
    Ok(IsTruthy(value))
  }

  /** `Config.Create()`: the ten reads in order; the first one that fails fails the whole creation. */
  function Create(ini: Ini): (r: Result<Settings, ConfigError>)
    ensures r.Ok? ==>
      ParseInt32(Lookup(ini, "sip", "registrationExpiry")).Some? && ParseInt32(Lookup(ini, "sip", "port")).Some?
    ensures r.Ok? ==> r.value == Settings(
      Lookup(ini, "sip", "server"), Lookup(ini, "sip", "username"), Lookup(ini, "sip", "password"),
      ParseInt32(Lookup(ini, "sip", "registrationExpiry")).value, ParseInt32(Lookup(ini, "sip", "port")).value,
      Lookup(ini, "speech", "key"), Lookup(ini, "speech", "region"),
      IsTruthy(Lookup(ini, "general", "bargeInOnDtmf")), IsTruthy(Lookup(ini, "general", "bargeInOnSpeech")),
      Lookup(ini, "general", "dialogBitsUrl"))
  {
    var server :- Read(ini, "sip", "server");
    var username :- Read(ini, "sip", "username");
    var password :- Read(ini, "sip", "password");
    var expiry :- ReadInt(ini, "sip", "registrationExpiry");
    var port :- ReadInt(ini, "sip", "port");
    var speechKey :- Read(ini, "speech", "key");
    var speechRegion :- Read(ini, "speech", "region");
    var bargeInOnDtmf :- ReadBool(ini, "general", "bargeInOnDtmf");
    var bargeInOnSpeech :- ReadBool(ini, "general", "bargeInOnSpeech");
    var dialogBitsUrl :- Read(ini, "general", "dialogBitsUrl");
    Ok(Settings(server, username, password, expiry, port, speechKey, speechRegion,
                bargeInOnDtmf, bargeInOnSpeech, dialogBitsUrl))
  }

  // ---------------------------------------------------------------------------
  // Properties

  /** The decimal digits of `n`, most significant first, without leading zeros. */
  function NatDigits(n: nat): (r: string)
    ensures |r| > 0 && AllDigits(r)
  {
    if n < 10 then [('0' as int + n) as char] else NatDigits(n / 10) + [('0' as int + n % 10) as char]
  }

  lemma {:induction false} NatDigitsValue(n: nat)
    ensures DigitsValue(NatDigits(n)) == n
  {
    if n >= 10 {
      var r := NatDigits(n);
      assert r[..|r| - 1] == NatDigits(n / 10);
      NatDigitsValue(n / 10);
    }
  }

  /** How an integer is written in the settings file: an optional minus sign and its decimal digits. */
  function Decimal(n: int): string {
    if n < 0 then "-" + NatDigits(-n) else NatDigits(n)
  }

  /** Every Int32 written in decimal parses back to itself. */
  lemma ParseDecimal(n: int)
    requires MIN_INT32 <= n <= MAX_INT32
    ensures ParseInt32(Decimal(n)) == Some(n)
  {
    var d := Decimal(n);
    var digits := NatDigits(if n < 0 then -n else n);
    assert d[|d| - 1] == digits[|digits| - 1];
    assert StripNumberWhite(d) == d;
    NatDigitsValue(if n < 0 then -n else n);
    if n < 0 {
      assert d[1..] == digits;
    }
  }

  /** A decimal outside the Int32 range does not parse: `int.TryParse` reports overflow as failure. */
  lemma DecimalOutOfRangeFails(n: int)
    requires n < MIN_INT32 || n > MAX_INT32
    ensures ParseInt32(Decimal(n)) == None
  {
    var d := Decimal(n);
    var digits := NatDigits(if n < 0 then -n else n);
    assert d[|d| - 1] == digits[|digits| - 1];
    assert StripNumberWhite(d) == d;
    NatDigitsValue(if n < 0 then -n else n);
    if n < 0 {
      assert d[1..] == digits;
    }
  }

  /** Stripping keeps the infix `s[k..m]` and drops only number white space around it. */
  lemma {:induction false} StripNumberWhiteInfix(s: string) returns (k: nat, m: nat)
    ensures k <= m <= |s| && StripNumberWhite(s) == s[k..m]
    ensures forall j :: 0 <= j < k || m <= j < |s| ==> IsNumberWhite(s[j])
  {
    if |s| > 0 && IsNumberWhite(s[0]) {
      var k', m' := StripNumberWhiteInfix(s[1..]);
      k, m := k' + 1, m' + 1;
      assert s[k..m] == s[1..][k'..m'];
    } else if |s| > 0 && IsNumberWhite(s[|s| - 1]) {
      k, m := StripNumberWhiteInfix(s[..|s| - 1]);
      assert s[k..m] == s[..|s| - 1][k..m];
    } else {
      k, m := 0, |s|;
    }
  }

  /**
   * A character that is neither a digit nor white space, and is not a sign
   * standing first after leading white space, makes the parse fail.
   */
  lemma NonDigitFails(s: string, i: int)
    requires 0 <= i < |s| && !IsDigit(s[i]) && !IsNumberWhite(s[i])
    requires (forall j :: 0 <= j < i ==> IsNumberWhite(s[j])) ==> s[i] != '-' && s[i] != '+'
    ensures ParseInt32(s) == None
  {
    var k, m := StripNumberWhiteInfix(s);
    var t := StripNumberWhite(s);
    assert k <= i < m;
    assert t[i - k] == s[i];
    if i == k {
      assert forall j :: 0 <= j < i ==> IsNumberWhite(s[j]);
    } else {
      var signed := t[0] == '-' || t[0] == '+';
      var digits := if signed then t[1..] else t;
      assert digits[if signed then i - k - 1 else i - k] == s[i];
    }
  }

  /** A setting stored as a decimal Int32 reads back as that integer. */
  lemma ReadIntOfDecimal(ini: Ini, section: string, key: string, n: int)
    requires MIN_INT32 <= n <= MAX_INT32
    requires Lookup(ini, section, key) == Decimal(n)
    ensures ReadInt(ini, section, key) == Ok(n)
  {
    ParseDecimal(n);
  }

  /** A setting stored as a decimal outside the Int32 range fails as not an integer. */
  lemma ReadIntOutOfRange(ini: Ini, section: string, key: string, n: int)
    requires n < MIN_INT32 || n > MAX_INT32
    requires Lookup(ini, section, key) == Decimal(n)
    ensures ReadInt(ini, section, key) == Err(NotAnInteger(section, key))
  {
    DecimalOutOfRangeFails(n);
  }

  /** The truthy set is case-sensitive: "True", "yes" and "0" all read as false. */
  lemma ReadBoolIsCaseSensitive(ini: Ini, section: string, key: string)
    requires Lookup(ini, section, key) in {"True", "yes", "0", "ON", "T"}
    ensures ReadBool(ini, section, key) == Ok(false)
  {
  }

  /** How each setting is parsed after it is read. */
  datatype Parse = AsText | AsInteger | AsFlag

  /** The settings in the order `Create` reads them. */
  const Fields: seq<(string, string, Parse)> := [
    ("sip", "server", AsText), ("sip", "username", AsText), ("sip", "password", AsText),
    ("sip", "registrationExpiry", AsInteger), ("sip", "port", AsInteger),
    ("speech", "key", AsText), ("speech", "region", AsText),
    ("general", "bargeInOnDtmf", AsFlag), ("general", "bargeInOnSpeech", AsFlag),
    ("general", "dialogBitsUrl", AsText)]

  /** Why one setting cannot be read, if it cannot. */
  function FieldError(ini: Ini, f: (string, string, Parse)): Option<ConfigError> {
    if Lookup(ini, f.0, f.1) == "" then Some(Missing(f.0, f.1))
    else if f.2 == AsInteger && ParseInt32(Lookup(ini, f.0, f.1)).None? then Some(NotAnInteger(f.0, f.1))
    else None
  }

  /** The first unreadable setting of `fs`, scanning in order. */
  function FirstError(ini: Ini, fs: seq<(string, string, Parse)>): Option<ConfigError> {
    if fs == [] then None
    else if FieldError(ini, fs[0]).Some? then FieldError(ini, fs[0])
    else FirstError(ini, fs[1..])
  }

  /** `Create` fails exactly when some setting is unreadable, and then with the error of the first one. */
  lemma CreateReportsFirstError(ini: Ini)
    ensures Create(ini).Ok? <==> FirstError(ini, Fields).None?
    ensures Create(ini).Err? ==> Some(Create(ini).error) == FirstError(ini, Fields)
  {
    FirstErrorUnrolled(ini);
    FirstErrorUnrolledTail(ini);
    if Lookup(ini, "sip", "server") == "" {
      assert FieldError(ini, Fields[0]) == Some(Create(ini).error);
    } else if Lookup(ini, "sip", "username") == "" {
      assert FieldError(ini, Fields[1]) == Some(Create(ini).error);
    } else if Lookup(ini, "sip", "password") == "" {
      assert FieldError(ini, Fields[2]) == Some(Create(ini).error);
    } else if Lookup(ini, "sip", "registrationExpiry") == "" || ParseInt32(Lookup(ini, "sip", "registrationExpiry")).None? {
      assert FieldError(ini, Fields[3]) == Some(Create(ini).error);
    } else if Lookup(ini, "sip", "port") == "" || ParseInt32(Lookup(ini, "sip", "port")).None? {
      assert FieldError(ini, Fields[4]) == Some(Create(ini).error);
    } else if Lookup(ini, "speech", "key") == "" {
      assert FieldError(ini, Fields[5]) == Some(Create(ini).error);
    } else if Lookup(ini, "speech", "region") == "" {
      assert FieldError(ini, Fields[6]) == Some(Create(ini).error);
    } else if Lookup(ini, "general", "bargeInOnDtmf") == "" {
      assert FieldError(ini, Fields[7]) == Some(Create(ini).error);
    } else if Lookup(ini, "general", "bargeInOnSpeech") == "" {
      assert FieldError(ini, Fields[8]) == Some(Create(ini).error);
    } else if Lookup(ini, "general", "dialogBitsUrl") == "" {
      assert FieldError(ini, Fields[9]) == Some(Create(ini).error);
    } else {
      assert Create(ini).Ok?;
    }
  }

  lemma FirstErrorUnrolled(ini: Ini)
    ensures FirstError(ini, Fields) ==
      if FieldError(ini, Fields[0]).Some? then FieldError(ini, Fields[0]) else
      if FieldError(ini, Fields[1]).Some? then FieldError(ini, Fields[1]) else
      if FieldError(ini, Fields[2]).Some? then FieldError(ini, Fields[2]) else
      if FieldError(ini, Fields[3]).Some? then FieldError(ini, Fields[3]) else
      if FieldError(ini, Fields[4]).Some? then FieldError(ini, Fields[4]) else
      FirstError(ini, Fields[5..])
  {
    FirstErrorFrom(ini, 0);
    FirstErrorFrom(ini, 1);
    FirstErrorFrom(ini, 2);
    FirstErrorFrom(ini, 3);
    FirstErrorFrom(ini, 4);
    assert Fields[0..] == Fields;
  }

  lemma FirstErrorUnrolledTail(ini: Ini)
    ensures FirstError(ini, Fields[5..]) ==
      if FieldError(ini, Fields[5]).Some? then FieldError(ini, Fields[5]) else
      if FieldError(ini, Fields[6]).Some? then FieldError(ini, Fields[6]) else
      if FieldError(ini, Fields[7]).Some? then FieldError(ini, Fields[7]) else
      if FieldError(ini, Fields[8]).Some? then FieldError(ini, Fields[8]) else
      if FieldError(ini, Fields[9]).Some? then FieldError(ini, Fields[9]) else
      None
  {
    FirstErrorFrom(ini, 5);
    FirstErrorFrom(ini, 6);
    FirstErrorFrom(ini, 7);
    FirstErrorFrom(ini, 8);
    FirstErrorFrom(ini, 9);
    assert Fields[10..] == [];
  }

  lemma FirstErrorFrom(ini: Ini, k: nat)
    requires k < |Fields|
    ensures FirstError(ini, Fields[k..]) ==
      if FieldError(ini, Fields[k]).Some? then FieldError(ini, Fields[k]) else FirstError(ini, Fields[k + 1..])
  {
    assert Fields[k..][1..] == Fields[k + 1..];
  }

  /** No setting of `fs` is unreadable exactly when the scan finds no error. */
  lemma {:induction false} FirstErrorNoneIff(ini: Ini, fs: seq<(string, string, Parse)>)
    ensures FirstError(ini, fs).None? <==> forall j :: 0 <= j < |fs| ==> FieldError(ini, fs[j]).None?
  {
    if fs != [] {
      FirstErrorNoneIff(ini, fs[1..]);
      assert forall j :: 1 <= j < |fs| ==> fs[j] == fs[1..][j - 1];
    }
  }

  /** `Create` succeeds exactly when every setting is present and both integers parse. */
  lemma CreateSucceedsIff(ini: Ini)
    ensures Create(ini).Ok? <==> forall j :: 0 <= j < |Fields| ==> FieldError(ini, Fields[j]).None?
  {
    CreateReportsFirstError(ini);
    FirstErrorNoneIff(ini, Fields);
  }

  /** A missing required key, any of the ten, makes `Create` fail. */
  lemma MissingKeyFailsCreate(ini: Ini, i: nat)
    requires i < |Fields| && (Fields[i].0, Fields[i].1) !in ini
    ensures Create(ini).Err?
  {
    CreateSucceedsIff(ini);
    assert FieldError(ini, Fields[i]).Some?;
  }
}
