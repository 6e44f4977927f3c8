/**
 * Application configuration read from the process environment, modelled as
 * a map from variable name to value (an unset variable is a missing key).
 */
module Config {
  import opened Common
  import opened Text

  type Env = map<string, string>

  /** `time.Minute` in nanoseconds. */
  const Minute: int := 60_000_000_000

  /** Go's `int` on a 64-bit platform. */
  predicate IsInt64(n: int) {
    -0x8000_0000_0000_0000 <= n < 0x8000_0000_0000_0000
  }

  datatype DatabaseConfig = DatabaseConfig(
    host: string,
    port: int,
    username: string,
    password: string,
    database: string,
    maxOpenConns: int,
    maxIdleConns: int,
    maxLifetime: int)

  datatype ServerConfig = ServerConfig(host: string, port: int)

  datatype Config = Config(database: DatabaseConfig, server: ServerConfig, environment: string)

  /** `os.Getenv`: an unset variable reads as the empty string. */
  function Lookup(env: Env, key: string): string {
    if key in env then env[key] else ""
  }

  /** `getEnv`: the variable's value when set and non-empty, else the default. */
  function GetEnv(env: Env, key: string, defaultValue: string): (r: string)
    ensures Lookup(env, key) != "" ==> r == env[key]
    ensures Lookup(env, key) == "" ==> r == defaultValue
  {
    var value := Lookup(env, key);
    if value != "" then value else defaultValue
  }

  /** `getEnvRequired`; the panic is returned as its message. */
  function GetEnvRequired(env: Env, key: string): (r: Result<string, string>)
    ensures r.Success? <==> key in env && env[key] != ""
    ensures r.Success? ==> r.value == env[key]
    ensures r.Failure? ==> r.error == "Environment variable " + key + " is required"
  {
    var value := Lookup(env, key);
    if value == "" then Failure("Environment variable " + key + " is required") else Success(value)
  }

  /** An optional leading '+' or '-', split off: whether it was '-', and the rest. */
  function SplitSign(s: string): (bool, string) {
    if |s| > 0 && (s[0] == '+' || s[0] == '-') then (s[0] == '-', s[1..]) else (false, s)
  }

  /**
   * `strconv.Atoi` in base ten: an optional sign, then at least one digit,
   * with a value that fits Go's 64-bit `int`.
   */
  function Atoi(s: string): (r: Option<int>)
    ensures r.Some? ==> IsInt64(r.value)
    ensures r.Some? ==> |SplitSign(s).1| > 0 && AllDigits(SplitSign(s).1)
    ensures (|s| == 0 || !AllDigits(SplitSign(s).1)) ==> r.None?
    ensures r.Some? ==> r.value == (if SplitSign(s).0 then -(DigitsValue(SplitSign(s).1) as int)
                                    else DigitsValue(SplitSign(s).1))
  {
    var (negative, digits) := SplitSign(s);
    if |digits| == 0 || !AllDigits(digits) then None
    else
      var magnitude: int := DigitsValue(digits);
      var value := if negative then -magnitude else magnitude;
      if IsInt64(value) then Some(value) else None
  }

  /** `getEnvAsInt`: the parsed value, or the default when unset, empty or not an integer. */
  function GetEnvAsInt(env: Env, key: string, defaultValue: int): (r: int)
    ensures Lookup(env, key) == "" ==> r == defaultValue
    ensures Atoi(Lookup(env, key)).None? ==> r == defaultValue
    ensures Atoi(Lookup(env, key)).Some? ==> r == Atoi(Lookup(env, key)).value
  {
    var valueStr := GetEnv(env, key, "");
    if valueStr == "" then defaultValue
    else
      match Atoi(valueStr)
      case None => defaultValue
      case Some(value) => value
  }

  /**
   * `getEnvAsDuration`; `parseDuration` stands for `time.ParseDuration`,
   * giving nanoseconds or `None` on a syntax error.
   */
  function GetEnvAsDuration(env: Env, key: string, defaultValue: int, parseDuration: string -> Option<int>)
    : (r: int)
    ensures Lookup(env, key) == "" ==> r == defaultValue
    ensures Lookup(env, key) != "" ==> r == parseDuration(env[key]).GetOr(defaultValue)
  {
    var valueStr := GetEnv(env, key, "");
    if valueStr == "" then defaultValue
    else
      match parseDuration(valueStr)
      case None => defaultValue
      case Some(value) => value
  }

  /** `Load`: every field from its variable or its default; `Environment` is never set. */
  function Load(env: Env, parseDuration: string -> Option<int>): (c: Config)
    ensures c.environment == ""
  {
    Config(
      DatabaseConfig(
        GetEnv(env, "DB_HOST", "localhost"),
        GetEnvAsInt(env, "DB_PORT", 3306),
        GetEnv(env, "DB_USERNAME", "root"),
        GetEnv(env, "DB_PASSWORD", "password"),
        GetEnv(env, "DB_NAME", ""),
        GetEnvAsInt(env, "DB_MAX_OPEN_CONNS", 25),
        GetEnvAsInt(env, "DB_MAX_IDLE_CONNS", 25),
        GetEnvAsDuration(env, "DB_MAX_LIFETIME", 5 * Minute, parseDuration)),
      ServerConfig(
        GetEnv(env, "SERVER_HOST", "localhost"),
        GetEnvAsInt(env, "SERVER_PORT", 8080)),
      "")
  }

  /** The connection options the data source name always ends with. */
  const Options: string := "?charset=utf8mb4&parseTime=True&loc=Local"

  /** The text after `prefix`, when `s` starts with it. */
  function After(s: string, prefix: string): Option<string> {
    if prefix <= s then Some(s[|prefix|..]) else None
  }

  lemma AfterConcat(prefix: string, rest: string)
    ensures After(prefix + rest, prefix) == Some(rest)
  {
    assert (prefix + rest)[|prefix|..] == rest;
  }

  /** `host:port`. */
  function GetServerAddress(c: Config): (r: string)
    ensures After(r, c.server.host + ":") == Some(Decimal(c.server.port))
  {
    c.server.host + ":" + Decimal(c.server.port)
  }

  /** The MySQL data source name `user:pass@tcp(host:port)/db?charset=utf8mb4&parseTime=True&loc=Local`. */
  function GetDatabaseConnectionString(c: Config): (r: string)
    ensures var head := c.database.username + ":" + c.database.password + "@tcp(" + c.database.host + ":";
            && head <= r
            && After(r, head + Decimal(c.database.port) + ")/") == Some(c.database.database + Options)
  {
    var address := c.database.username + ":" + c.database.password + "@tcp(" + c.database.host + ":"
                   + Decimal(c.database.port) + ")/";
    AfterConcat(address, c.database.database + Options);
    address + (c.database.database + Options)
  }

  function IsDevelopment(c: Config): (r: bool)
    ensures r <==> c.environment == "development"
  {
    c.environment == "development"
  }

  function IsProduction(c: Config): (r: bool)
    ensures r <==> c.environment == "production"
  {
    c.environment == "production"
  }

  /** No configuration is both the development and the production one. */
  lemma AtMostOneEnvironment(c: Config)
    ensures !(IsDevelopment(c) && IsProduction(c))
  {
  }

  /** `Atoi` reads back every 64-bit integer that `%d` writes. */
  lemma AtoiDecimal(n: int)
    requires IsInt64(n)
    ensures Atoi(Decimal(n)) == Some(n)
  {
    var s := Decimal(n);
    if n < 0 {
      assert SplitSign(s) == (true, NatDigits(-n));
      DigitsRoundTrip(-n);
    } else {
      assert IsDigit(s[0]);
      assert SplitSign(s) == (false, NatDigits(n));
      DigitsRoundTrip(n);
    }
  }

  /** A leading zero does not change the value of a digit string. */
  lemma {:induction false} DigitsValueLeadingZero(d: string)
    requires AllDigits(d)
    ensures AllDigits("0" + d) && DigitsValue("0" + d) == DigitsValue(d)
  {
    var z := "0" + d;
    assert AllDigits(z) by {
      forall i | 0 <= i < |z| ensures IsDigit(z[i]) {
        if i > 0 {
          assert z[i] == d[i - 1];
        }
      }
    }
    if d != [] {
      var init := d[..|d| - 1];
      assert z[..|z| - 1] == "0" + init;
      assert z[|z| - 1] == d[|d| - 1];
      DigitsValueLeadingZero(init);
    } else {
      assert z[..|z| - 1] == [];
    }
  }

  /** An explicit '+' is accepted and changes nothing. */
  lemma AtoiPlusSign(d: string)
    requires |d| > 0 && AllDigits(d)
    ensures Atoi("+" + d) == Atoi(d)
  {
    assert ("+" + d)[1..] == d;
    assert SplitSign(d) == (false, d);
  }

  /** Leading zeros are accepted after any sign and change nothing. */
  lemma AtoiLeadingZero(sign: string, d: string)
    requires sign == "" || sign == "+" || sign == "-"
    requires |d| > 0 && AllDigits(d)
    ensures Atoi(sign + "0" + d) == Atoi(sign + d)
  {
    DigitsValueLeadingZero(d);
    var a := sign + "0" + d;
    var b := sign + d;
    assert SplitSign(b) == (sign == "-", d) by {
      if sign == "" {
        assert b == d;
      } else {
        assert b[1..] == d;
      }
    }
    assert SplitSign(a) == (sign == "-", "0" + d) by {
      if sign == "" {
        assert a == "0" + d;
      } else {
        assert a[1..] == "0" + d;
      }
    }
  }

  lemma AtoiUnsigned(d: string)
    requires |d| > 0 && AllDigits(d) && IsInt64(DigitsValue(d))
    ensures Atoi(d) == Some(DigitsValue(d))
  {
  }

  lemma AtoiNegative(d: string)
    requires |d| > 0 && AllDigits(d) && IsInt64(-(DigitsValue(d) as int))
    ensures Atoi("-" + d) == Some(-(DigitsValue(d) as int))
  {
    assert ("-" + d)[0] == '-' && ("-" + d)[1..] == d;
  }

  /** Sign-then-digits text whose value fits in 64 bits always parses, to that value. */
  lemma AtoiAcceptsInRange(sign: string, d: string)
    requires sign == "" || sign == "+" || sign == "-"
    requires |d| > 0 && AllDigits(d)
    requires IsInt64(if sign == "-" then -(DigitsValue(d) as int) else DigitsValue(d))
    ensures Atoi(sign + d) == Some(if sign == "-" then -(DigitsValue(d) as int) else DigitsValue(d))
  {
    if sign == "-" {
      AtoiNegative(d);
    } else if sign == "+" {
      AtoiPlusSign(d);
      AtoiUnsigned(d);
    } else {
      assert sign + d == d;
      AtoiUnsigned(d);
    }
  }

  /** Sign-then-digits text whose value does not fit in 64 bits is rejected, as Go's range error. */
  lemma AtoiRejectsOutOfRange(sign: string, d: string)
    requires sign == "" || sign == "+" || sign == "-"
    requires |d| > 0 && AllDigits(d)
    requires !IsInt64(if sign == "-" then -(DigitsValue(d) as int) else DigitsValue(d))
    ensures Atoi(sign + d) == None
  {
    var t := sign + d;
    if sign == "" {
      assert t == d && IsDigit(d[0]);
    } else {
      assert t[0] == sign[0] && t[1..] == d;
    }
    assert SplitSign(t) == (sign == "-", d);
  }

  /** Text that `%d` never writes is still read: "+5" as 5. */
  lemma AtoiExplicitPlus()
    ensures Atoi("+5") == Some(5)
  {
    assert DigitsValue("5") == 5;
    AtoiAcceptsInRange("+", "5");
    assert "+" + "5" == "+5";
  }

  /** Text that `%d` never writes is still read: "007" as 7. */
  lemma AtoiLeadingZeros()
    ensures Atoi("007") == Some(7)
  {
    assert DigitsValue("7") == 7;
    DigitsValueLeadingZero("7");
    assert "0" + "7" == "07";
    DigitsValueLeadingZero("07");
    assert "0" + "07" == "007";
    AtoiAcceptsInRange("", "007");
    assert "" + "007" == "007";
  }

  /** An integer variable written with `%d` is read back unchanged, whatever the default. */
  lemma GetEnvAsIntReadsDecimal(env: Env, key: string, n: int, defaultValue: int)
    requires IsInt64(n) && key in env && env[key] == Decimal(n)
    ensures GetEnvAsInt(env, key, defaultValue) == n
  {
    AtoiDecimal(n);
  }

  /** A value that is not an integer, such as "abc", falls back to the default. */
  lemma GetEnvAsIntFallsBack(env: Env, key: string, defaultValue: int)
    requires key in env && env[key] == "abc"
    ensures GetEnvAsInt(env, key, defaultValue) == defaultValue
  {
    assert !IsDigit(env[key][0]);
  }

  /** A value written with `%d` that does not fit in 64 bits falls back to the default. */
  lemma GetEnvAsIntOutOfRange(env: Env, key: string, n: int, defaultValue: int)
    requires !IsInt64(n) && key in env && env[key] == Decimal(n)
    ensures GetEnvAsInt(env, key, defaultValue) == defaultValue
  {
    DecimalShape(n);
    if n < 0 {
      DigitsRoundTrip(-n);
      assert env[key] == "-" + NatDigits(-n);
      AtoiRejectsOutOfRange("-", NatDigits(-n));
    } else {
      DigitsRoundTrip(n);
      assert env[key] == "" + NatDigits(n);
      AtoiRejectsOutOfRange("", NatDigits(n));
    }
  }

  /** The spelling of `n` is that of `n / 10` followed by its last digit. */
  lemma NatDigitsStep(n: nat, prefix: string, spelled: string)
    requires n >= 10 && NatDigits(n / 10) == prefix && spelled == prefix + [DigitChar(n % 10)]
    ensures NatDigits(n) == spelled
  {
  }

  lemma HighDigitsSpelled()
    ensures NatDigits(9223372036) == "9223372036"
  {
    assert NatDigits(9) == "9";
    NatDigitsStep(92, "9", "92");
    NatDigitsStep(922, "92", "922");
    NatDigitsStep(9223, "922", "9223");
    NatDigitsStep(92233, "9223", "92233");
    NatDigitsStep(922337, "92233", "922337");
    NatDigitsStep(9223372, "922337", "9223372");
    NatDigitsStep(92233720, "9223372", "92233720");
    NatDigitsStep(922337203, "92233720", "922337203");
    NatDigitsStep(9223372036, "922337203", "9223372036");
  }

  /** 2^63 is spelled "9223372036854775808". */
  lemma Int64OverflowSpelled()
    ensures Decimal(0x8000_0000_0000_0000) == "9223372036854775808"
  {
    HighDigitsSpelled();
    NatDigitsStep(92233720368, "9223372036", "92233720368");
    NatDigitsStep(922337203685, "92233720368", "922337203685");
    NatDigitsStep(9223372036854, "922337203685", "9223372036854");
    NatDigitsStep(92233720368547, "9223372036854", "92233720368547");
    NatDigitsStep(922337203685477, "92233720368547", "922337203685477");
    NatDigitsStep(9223372036854775, "922337203685477", "9223372036854775");
    NatDigitsStep(92233720368547758, "9223372036854775", "92233720368547758");
    NatDigitsStep(922337203685477580, "92233720368547758", "922337203685477580");
    NatDigitsStep(9223372036854775808, "922337203685477580", "9223372036854775808");
  }

  /** One past the largest 64-bit integer, "9223372036854775808", gives the default. */
  lemma GetEnvAsIntOverflowFallsBack(env: Env, key: string, defaultValue: int)
    requires key in env && env[key] == "9223372036854775808"
    ensures GetEnvAsInt(env, key, defaultValue) == defaultValue
  {
    Int64OverflowSpelled();
    GetEnvAsIntOutOfRange(env, key, 0x8000_0000_0000_0000, defaultValue);
  }

  /** With nothing set, every field takes its default. */
  lemma LoadDefaults(parseDuration: string -> Option<int>)
    ensures Load(map[], parseDuration)
            == Config(DatabaseConfig("localhost", 3306, "root", "password", "", 25, 25, 5 * Minute),
                      ServerConfig("localhost", 8080), "")
  {
  }

  /** A loaded configuration is neither the development nor the production one. */
  lemma LoadedIsNeitherDevelopmentNorProduction(env: Env, parseDuration: string -> Option<int>)
    ensures !IsDevelopment(Load(env, parseDuration)) && !IsProduction(Load(env, parseDuration))
  {
  }

  /** The server port is set from `SERVER_PORT` and can be read back from the address. */
  lemma ServerAddressCarriesPort(env: Env, parseDuration: string -> Option<int>, port: int)
    requires IsInt64(port) && "SERVER_PORT" in env && env["SERVER_PORT"] == Decimal(port)
    ensures var c := Load(env, parseDuration);
            && c.server.port == port
            && After(GetServerAddress(c), c.server.host + ":") == Some(Decimal(port))
  {
    GetEnvAsIntReadsDecimal(env, "SERVER_PORT", port, 8080);
  }

  /** The defaults give the address the server listens on. */
  lemma DefaultServerAddress(parseDuration: string -> Option<int>)
    ensures GetServerAddress(Load(map[], parseDuration)) == "localhost:8080"
  {
    assert Decimal(8080) == "8080";
  }
}
