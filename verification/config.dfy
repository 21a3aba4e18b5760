/**
 * Configuration handling shared by both variants: the JSON values a configuration file
 * can hold, `convert_hex` (hexadecimal or decimal strings to integers), its application to
 * the device-id keys by `load_config`, and the lookups with defaults the entry points use.
 */
module Config {

  datatype Option<T> = None | Some(value: T)

  /** A JSON value as `json.load` returns it (floats are not modelled). */
  datatype Json =
    | JNull
    | JBool(b: bool)
    | JInt(i: int)
    | JStr(s: string)
    | JList(items: seq<Json>)
    | JObject(fields: map<string, Json>)

  /** The keys `load_config` converts; `interface_number` is not among them. */
  const HexKeys: seq<string> := ["vendor_id", "product_id", "endpoint_address"]

  const DefaultVendorId: int := 0x1038
  const DefaultProductId: int := 0x2202
  const DefaultInterfaceNumber: int := 5
  const DefaultEndpointAddress: int := 0x86

  predicate HasHexPrefix(s: string) {
    |s| >= 2 && s[..2] == "0x"
  }

  predicate IsDigit(c: char) {
    '0' <= c <= '9' || 'a' <= c <= 'f' || 'A' <= c <= 'F'
  }

  function DigitValue(c: char): (d: nat)
    requires IsDigit(c)
    ensures d < 16
  {
    if '0' <= c <= '9' then c as int - '0' as int
    else if 'a' <= c <= 'f' then c as int - 'a' as int + 10
    else c as int - 'A' as int + 10
  }

  /** Every character of `s` is a digit of the given base. */
  predicate AllDigits(s: string, base: nat) {
    forall i :: 0 <= i < |s| ==> IsDigit(s[i]) && DigitValue(s[i]) < base
  }

  /** The value of a digit string, most significant digit first. */
  function ValueOf(s: string, base: nat): nat
    requires AllDigits(s, base)
  {
    if s == [] then 0
    else ValueOf(s[..|s| - 1], base) * base + DigitValue(s[|s| - 1])
  }

  /** `int(s, 16)` for a string that starts with "0x": the prefix and at least one hex digit. */
  function ParseHex(s: string): (r: Option<nat>)
    requires HasHexPrefix(s)
    ensures r.Some? <==> |s| > 2 && forall i :: 2 <= i < |s| ==> IsDigit(s[i])
  {
    var digits := s[2..];
    if digits != [] && AllDigits(digits, 16) then Some(ValueOf(digits, 16)) else None
  }

  /** `int(s)`: an optional sign followed by at least one decimal digit. */
  function ParseDecimal(s: string): (r: Option<int>)
    ensures r.Some? <==>
      (s != [] && AllDigits(s, 10)) || (|s| > 1 && (s[0] == '-' || s[0] == '+') && AllDigits(s[1..], 10))
    ensures r.Some? && r.value < 0 ==> s[0] == '-'
    ensures r.Some? && s[0] == '-' ==> ParseDecimal(s[1..]).Some? && r.value == -ParseDecimal(s[1..]).value
    ensures r.Some? && s[0] == '+' ==> r == ParseDecimal(s[1..])
  {
    if |s| > 0 && (s[0] == '-' || s[0] == '+') then
      var digits := s[1..];
      if digits != [] && AllDigits(digits, 10) then
        var magnitude: int := ValueOf(digits, 10);
        Some(if s[0] == '-' then -magnitude else magnitude)
      else None
    else if s != [] && AllDigits(s, 10) then Some(ValueOf(s, 10))
    else None
  }

  /** The result of `convert_hex`: a value, or the ValueError a malformed decimal string raises. */
  datatype Converted = Converted(value: Json) | Raised

  /**
   * `convert_hex`: a string starting with "0x" is read as hexadecimal and kept as it is
   * when that fails; any other string is read as decimal and raises when that fails;
   * anything that is not a string passes through.
   */
  function ConvertHex(value: Json): (r: Converted)
    ensures !value.JStr? ==> r == Converted(value)
    ensures r.Raised? <==> value.JStr? && !HasHexPrefix(value.s) && ParseDecimal(value.s).None?
    ensures value.JStr? && HasHexPrefix(value.s) ==>
      r == Converted(if ParseHex(value.s).Some? then JInt(ParseHex(value.s).value) else value)
    ensures value.JStr? && !HasHexPrefix(value.s) && ParseDecimal(value.s).Some? ==>
      r == Converted(JInt(ParseDecimal(value.s).value))
  {
    match value
    case JStr(s) =>
      if HasHexPrefix(s) then
        (match ParseHex(s)
         case Some(n) => Converted(JInt(n))
         case None => Converted(value))  // the warning is logged and the string returned
      else
        (match ParseDecimal(s)
         case Some(n) => Converted(JInt(n))
         case None => Raised)
    case _ => Converted(value)
  }

  /** Lower-case digit for a value below 16. */
  function DigitChar(d: nat): (c: char)
    requires d < 16
    ensures IsDigit(c) && DigitValue(c) == d
  {
    if d < 10 then ('0' as int + d) as char else ('a' as int + d - 10) as char
  }

  /** The digits of `n` in the given base, without leading zeros. */
  function Digits(n: nat, base: nat): (s: string)
    requires 2 <= base <= 16
    ensures s != []
    decreases n
  {
    if n < base then [DigitChar(n)] else Digits(n / base, base) + [DigitChar(n % base)]
  }

  /** Reading back the digits of `n` gives `n`. */
  lemma {:induction false} DigitsRoundTrip(n: nat, base: nat)
    requires 2 <= base <= 16
    ensures AllDigits(Digits(n, base), base) && ValueOf(Digits(n, base), base) == n
    decreases n
  {
    var s := Digits(n, base);
    if n < base {
      assert s[..0] == [];
    } else {
      var q, d := n / base, n % base;
      DivMod(n, base);
      DigitsRoundTrip(q, base);
      var front := Digits(q, base);
      assert s == front + [DigitChar(d)];
      assert s[..|s| - 1] == front;
      forall i | 0 <= i < |s| ensures IsDigit(s[i]) && DigitValue(s[i]) < base {
        if i < |front| {
          assert s[i] == front[i];
        }
      }
      assert ValueOf(s, base) == ValueOf(front, base) * base + DigitValue(DigitChar(d));
    }
  }

  /** Splitting off the last digit of `n` leaves a smaller number. */
  lemma DivMod(n: nat, base: nat)
    requires 2 <= base <= n
    ensures n == (n / base) * base + n % base && n / base < n
  {
  }

  /** A value written as "0x" and lower-case hex digits converts back to that value. */
  lemma HexRoundTrip(n: nat)
    ensures ConvertHex(JStr("0x" + Digits(n, 16))) == Converted(JInt(n))
  {
    var s := "0x" + Digits(n, 16);
    assert s[..2] == "0x" && s[2..] == Digits(n, 16);
    DigitsRoundTrip(n, 16);
  }

  /** Decimal text of an integer, with a minus sign when negative. */
  function DecimalText(n: int): string {
    if n < 0 then "-" + Digits(-n, 10) else Digits(n, 10)
  }

  /** The decimal digits of a natural number parse back to it, and do not start with "0x". */
  lemma UnsignedDecimal(n: nat)
    ensures ParseDecimal(Digits(n, 10)) == Some(n) && !HasHexPrefix(Digits(n, 10))
  {
    var s := Digits(n, 10);
    DigitsRoundTrip(n, 10);
    assert IsDigit(s[0]) && DigitValue(s[0]) < 10;
    assert !HasHexPrefix(s) by {
      if |s| >= 2 {
        assert s[..2][1] == s[1] && IsDigit(s[1]) && DigitValue(s[1]) < 10;
      }
    }
  }

  /** A minus sign and the decimal digits of a natural number parse back to its negation. */
  lemma SignedDecimal(n: nat)
    ensures ParseDecimal("-" + Digits(n, 10)) == Some(-(n as int)) && !HasHexPrefix("-" + Digits(n, 10))
  {
    var s := "-" + Digits(n, 10);
    DigitsRoundTrip(n, 10);
    assert s[0] == '-' && s[1..] == Digits(n, 10);
    assert !HasHexPrefix(s) by { assert s[..2][0] == '-'; }
  }

  /** A decimal written integer converts back to that integer. */
  lemma DecimalRoundTrip(n: int)
    ensures ConvertHex(JStr(DecimalText(n))) == Converted(JInt(n))
  {
    var s := DecimalText(n);
    if n < 0 {
      SignedDecimal(-n);
      assert s == "-" + Digits(-n, 10);
    } else {
      UnsignedDecimal(n);
      assert s == Digits(n, 10);
    }
  }

  /** Converting an already converted value changes nothing. */
  lemma ConvertHexIdempotent(value: Json)
    requires ConvertHex(value).Converted?
    ensures ConvertHex(ConvertHex(value).value) == ConvertHex(value)
  {
  }

  /**
   * The conversion loop of `load_config`: each listed key present in the file is
   * converted in turn; a ValueError leaves the rest as they are (the exception handler
   * returns the partly converted dictionary).
   */
  function ConvertKeys(config: map<string, Json>, keys: seq<string>): (r: map<string, Json>)
    ensures r.Keys == config.Keys
    ensures forall k :: k in config && k !in keys ==> r[k] == config[k]
    decreases |keys|
  {
    if keys == [] then config
    else
      var k := keys[0];
      if k !in config then ConvertKeys(config, keys[1..])
      else
        match ConvertHex(config[k])
        case Raised => config
        case Converted(v) => ConvertKeys(config[k := v], keys[1..])
  }

  /** When no listed key raises, every listed key present holds its converted value. */
  lemma {:induction false} ConvertKeysConverts(config: map<string, Json>, keys: seq<string>)
    requires forall k :: k in keys && k in config ==> ConvertHex(config[k]).Converted?
    ensures forall k :: k in keys && k in config ==> ConvertKeys(config, keys)[k] == ConvertHex(config[k]).value
    decreases |keys|
  {
    if keys != [] {
      var k := keys[0];
      var rest := keys[1..];
      if k !in config {
        ConvertKeysConverts(config, rest);
      } else {
        var v := ConvertHex(config[k]).value;
        ConvertHexIdempotent(config[k]);
        var config' := config[k := v];
        ConvertKeysConverts(config', rest);
      }
    }
  }

  /** A key whose value converts to itself keeps it, whatever keys are converted. */
  lemma {:induction false} ConvertKeysFixed(config: map<string, Json>, keys: seq<string>, k: string)
    requires k in config && ConvertHex(config[k]) == Converted(config[k])
    ensures ConvertKeys(config, keys)[k] == config[k]
    decreases |keys|
  {
    if keys != [] {
      var key := keys[0];
      if key in config && ConvertHex(config[key]).Converted? {
        ConvertKeysFixed(config[key := ConvertHex(config[key]).value], keys[1..], k);
      } else if key !in config {
        ConvertKeysFixed(config, keys[1..], k);
      }
    }
  }

  /**
   * The listed keys converted before the conversion stops keep their converted values:
   * when the first `j` listed keys all convert, each of them that is present holds its
   * converted value, whatever happens to the later ones.
   */
  lemma {:induction false} ConvertKeysConvertsPrefix(config: map<string, Json>, keys: seq<string>, j: nat)
    requires j <= |keys|
    requires forall i :: 0 <= i < j && keys[i] in config ==> ConvertHex(config[keys[i]]).Converted?
    ensures forall i :: 0 <= i < j && keys[i] in config ==>
      ConvertKeys(config, keys)[keys[i]] == ConvertHex(config[keys[i]]).value
    decreases |keys|
  {
    if j > 0 {
      var k := keys[0];
      var rest := keys[1..];
      if k !in config {
        forall i | 0 <= i < j - 1 && rest[i] in config ensures ConvertHex(config[rest[i]]).Converted? {
          assert rest[i] == keys[i + 1];
        }
        ConvertKeysConvertsPrefix(config, rest, j - 1);
        forall i | 0 <= i < j && keys[i] in config
          ensures ConvertKeys(config, keys)[keys[i]] == ConvertHex(config[keys[i]]).value
        {
          assert keys[i] == rest[i - 1];
        }
      } else {
        var v := ConvertHex(config[k]).value;
        ConvertHexIdempotent(config[k]);
        var config' := config[k := v];
        forall i | 0 <= i < j - 1 && rest[i] in config' ensures ConvertHex(config'[rest[i]]).Converted? {
          assert rest[i] == keys[i + 1];
        }
        ConvertKeysConvertsPrefix(config', rest, j - 1);
        ConvertKeysFixed(config', rest, k);
        forall i | 0 <= i < j && keys[i] in config
          ensures ConvertKeys(config, keys)[keys[i]] == ConvertHex(config[keys[i]]).value
        {
          if i > 0 {
            assert keys[i] == rest[i - 1];
            if keys[i] != k {
              assert config'[keys[i]] == config[keys[i]];
            }
          }
        }
      }
    }
  }

  /** A listed key that raises stops the conversion there: it and every later key keep their text. */
  lemma {:induction false} ConvertKeysStopsAtRaise(config: map<string, Json>, keys: seq<string>, j: nat)
    requires j < |keys| && keys[j] in config && ConvertHex(config[keys[j]]).Raised?
    requires forall i :: 0 <= i < j ==> keys[i] != keys[j]
    ensures forall i :: j <= i < |keys| && keys[i] in config && keys[i] !in keys[..j] ==>
      ConvertKeys(config, keys)[keys[i]] == config[keys[i]]
    decreases |keys|
  {
    var k := keys[0];
    if j > 0 {
      var rest := keys[1..];
      forall i | 0 <= i < j - 1 ensures rest[i] != rest[j - 1] {
        assert rest[i] == keys[i + 1];
      }
      var next := if k !in config then config else if ConvertHex(config[k]).Raised? then config else config[k := ConvertHex(config[k]).value];
      if k in config && ConvertHex(config[k]).Raised? {
      } else {
        assert keys[j] != k;
        ConvertKeysStopsAtRaise(next, rest, j - 1);
        forall i | j <= i < |keys| && keys[i] in config && keys[i] !in keys[..j]
          ensures ConvertKeys(config, keys)[keys[i]] == config[keys[i]]
        {
          assert keys[i] == rest[i - 1];
          assert keys[i] != k by { assert keys[0] in keys[..j]; }
          assert rest[..j - 1] == keys[1..j];
          assert keys[i] !in rest[..j - 1] by {
            forall m | 0 <= m < j - 1 ensures rest[m] != keys[i] {
              assert rest[m] == keys[..j][m + 1];
            }
          }
        }
      }
    }
  }

  /** `load_config` after a successful parse: the three id keys converted, all else as read. */
  function NormaliseConfig(config: map<string, Json>): (r: map<string, Json>)
    ensures r.Keys == config.Keys
    ensures forall k :: k in config && k !in HexKeys ==> r[k] == config[k]
    ensures (forall k :: k in HexKeys && k in config ==> ConvertHex(config[k]).Converted?) ==>
      forall k :: k in HexKeys && k in config ==> r[k] == ConvertHex(config[k]).value
    ensures "vendor_id" in config && ConvertHex(config["vendor_id"]).Raised? ==> r == config
    ensures ("vendor_id" in config ==> ConvertHex(config["vendor_id"]).Converted?) &&
            "product_id" in config && ConvertHex(config["product_id"]).Raised? ==>
      r["product_id"] == config["product_id"] &&
      ("vendor_id" in config ==> r["vendor_id"] == ConvertHex(config["vendor_id"]).value) &&
      ("endpoint_address" in config ==> r["endpoint_address"] == config["endpoint_address"])
    ensures ("vendor_id" in config ==> ConvertHex(config["vendor_id"]).Converted?) &&
            ("product_id" in config ==> ConvertHex(config["product_id"]).Converted?) &&
            "endpoint_address" in config && ConvertHex(config["endpoint_address"]).Raised? ==>
      r["endpoint_address"] == config["endpoint_address"] &&
      ("vendor_id" in config ==> r["vendor_id"] == ConvertHex(config["vendor_id"]).value) &&
      ("product_id" in config ==> r["product_id"] == ConvertHex(config["product_id"]).value)
  {
    var keys := HexKeys;
    assert keys[0] == "vendor_id" && keys[1] == "product_id" && keys[2] == "endpoint_address";
    if "vendor_id" in config && ConvertHex(config["vendor_id"]).Raised? then
      ConvertKeys(config, keys)
    else if "product_id" in config && ConvertHex(config["product_id"]).Raised? then
      ConvertKeysConvertsPrefix(config, keys, 1);
      ConvertKeysStopsAtRaise(config, keys, 1);
      ConvertKeys(config, keys)
    else if "endpoint_address" in config && ConvertHex(config["endpoint_address"]).Raised? then
      ConvertKeysConvertsPrefix(config, keys, 2);
      ConvertKeysStopsAtRaise(config, keys, 2);
      ConvertKeys(config, keys)
    else
      ConvertKeysConverts(config, keys);
      ConvertKeys(config, keys)
  }

  /** What reading the configuration file gave. */
  datatype ConfigFile = Missing | Unparsable | Parsed(config: map<string, Json>)

  /** `load_config`: an unreadable file yields an empty configuration. */
  function LoadConfig(file: ConfigFile): (r: map<string, Json>)
    ensures !file.Parsed? ==> r == map[]
    ensures file.Parsed? ==> r.Keys == file.config.Keys
    ensures file.Parsed? ==> forall k :: k in file.config && k !in HexKeys ==> r[k] == file.config[k]
    ensures file.Parsed? && (forall k :: k in HexKeys && k in file.config ==> ConvertHex(file.config[k]).Converted?) ==>
      forall k :: k in HexKeys && k in file.config ==> r[k] == ConvertHex(file.config[k]).value
  {
    match file
    case Parsed(config) => NormaliseConfig(config)
    case _ => map[]
  }

  /** `dict.get(key, default)`. */
  function Get(config: map<string, Json>, key: string, default: Json): Json {
    if key in config then config[key] else default
  }

  /**
   * `set(value)` for a configured app list, keeping the strings in it (the only members
   * a process name can equal); None when Python raises TypeError (a value that is not
   * iterable, or a list holding a list or an object, which are unhashable).
   */
  function AppNames(value: Json): (r: Option<set<string>>)
    ensures value.JList? && r.Some? ==> forall n :: n in r.value <==> JStr(n) in value.items
    ensures value.JList? ==>
      (r.Some? <==> forall i :: 0 <= i < |value.items| ==> !value.items[i].JList? && !value.items[i].JObject?)
    ensures value == JList([]) ==> r == Some({})
  {
    match value
    case JList(items) =>
      if exists i :: 0 <= i < |items| && (items[i].JList? || items[i].JObject?) then None
      else
        var names := set i | 0 <= i < |items| && items[i].JStr? :: items[i].s;
        assert items == [] ==> names == {};
        Some(names)
    case JStr(s) => Some(set i | 0 <= i < |s| :: [s[i]])
    case JObject(fields) => Some(fields.Keys)
    case _ => None
  }

  /** The settings a variant starts with. */
  datatype Settings = Settings(
    vendorId: Json, productId: Json, interfaceNumber: Json, endpointAddress: Json,
    voiceApps: set<string>, excludeApps: set<string>)

  const DefaultSettings: Settings := Settings(
    JInt(DefaultVendorId), JInt(DefaultProductId), JInt(DefaultInterfaceNumber), JInt(DefaultEndpointAddress), {}, {})
}
