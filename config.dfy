/** The layered configuration of the chat-log client (config.js): a defaults
    tree built from the process environment, overridden per environment label,
    optionally overridden again by a loaded file, then read and written by
    dotted path, validated and exported.  The process environment is an explicit
    input map; the file read and JSON parse are an input that either holds the
    parsed value or reports failure. */
module Configuration {
  import opened Wrappers
  import opened Text
  import opened Json
  import opened Paths
  import opened Tree
  import opened DeepMerge

  type Env = map<string, string>

  /** `process.env[name] || fallback`: an unset or empty variable falls back. */
  function EnvOr(env: Env, name: string, fallback: string): (r: string)
    ensures name in env && env[name] != "" ==> r == env[name]
    ensures !(name in env && env[name] != "") ==> r == fallback
  {
    if name in env && env[name] != "" then env[name] else fallback
  }

  /** `process.env[name] === literal` */
  predicate EnvIs(env: Env, name: string, literal: string) {
    name in env && env[name] == literal
  }

  // ---------------------------------------------------------------------
  // parseInt(process.env.X) || fallback

  /** The white space and line terminators `parseInt` skips before the number. */
  predicate IsJsWhiteSpace(c: char) {
    c == '\t' || c == '\U{000B}' || c == '\U{000C}' || c == ' ' || c == '\U{00A0}' || c == '\U{FEFF}'
    || c == '\n' || c == '\r' || c == '\U{2028}' || c == '\U{2029}'
    || c == '\U{1680}' || ('\U{2000}' <= c <= '\U{200A}') || c == '\U{202F}' || c == '\U{205F}' || c == '\U{3000}'
  }

  function TrimStart(s: string): (r: string)
    ensures |r| > 0 ==> !IsJsWhiteSpace(r[0])
    ensures (|s| == 0 || !IsJsWhiteSpace(s[0])) ==> r == s
    ensures |r| <= |s| && r == s[|s| - |r|..]
    ensures forall i | 0 <= i < |s| - |r| :: IsJsWhiteSpace(s[i])
  {
    if |s| > 0 && IsJsWhiteSpace(s[0]) then TrimStart(s[1..]) else s
  }

  /** The value of a hexadecimal or decimal digit; 99 for anything else. */
  function DigitOf(c: char): nat {
    if '0' <= c <= '9' then c as int - '0' as int
    else if 'a' <= c <= 'f' then c as int - 'a' as int + 10
    else if 'A' <= c <= 'F' then c as int - 'A' as int + 10
    else 99
  }

  /** Length of the longest prefix of `s` made of digits below `radix`. */
  function DigitRun(s: string, radix: nat): (n: nat)
    ensures n <= |s|
    ensures forall i | 0 <= i < n :: DigitOf(s[i]) < radix
    ensures n < |s| ==> DigitOf(s[n]) >= radix
  {
    if |s| > 0 && DigitOf(s[0]) < radix then 1 + DigitRun(s[1..], radix) else 0
  }

  function RadixValue(s: string, radix: nat): nat {
    if |s| == 0 then 0 else RadixValue(s[..|s| - 1], radix) * radix + DigitOf(s[|s| - 1])
  }

  /** `parseInt(s)` with no radix: skip leading white space, take one optional
      sign, read hexadecimal after `0x`/`0X` and decimal otherwise, stop at the
      first non-digit; None is NaN (no digit at all). `parseInt(undefined)`
      reads the string "undefined". */
  function ParseInt(s: string): (r: Option<int>)
    ensures TrimStart(s) == "" ==> r.None?
    ensures r.Some? && r.value < 0 ==> TrimStart(s)[0] == '-'
  {
    var t := TrimStart(s);
    var negative := |t| > 0 && t[0] == '-';
    var u := if |t| > 0 && (t[0] == '-' || t[0] == '+') then t[1..] else t;
    var hex := |u| >= 2 && u[0] == '0' && (u[1] == 'x' || u[1] == 'X');
    var radix := if hex then 16 else 10;
    var w := if hex then u[2..] else u;
    var n := DigitRun(w, radix);
    if n == 0 then None
    else
      var magnitude := RadixValue(w[..n], radix);
      Some(if negative then -(magnitude as int) else magnitude)
  }

  lemma {:induction false} RadixValueDecimal(s: string)
    requires AllDigits(s)
    ensures RadixValue(s, 10) == ParseDigits(s)
  {
    if |s| > 0 {
      RadixValueDecimal(s[..|s| - 1]);
    }
  }

  lemma {:induction false} DigitRunAll(s: string, radix: nat)
    requires forall i | 0 <= i < |s| :: DigitOf(s[i]) < radix
    ensures DigitRun(s, radix) == |s|
  {
    if |s| > 0 {
      DigitRunAll(s[1..], radix);
    }
  }

  /** `parseInt(String(n)) === n` for every natural number. */
  lemma ParseIntShow(n: nat)
    ensures ParseInt(Show(n)) == Some(n)
  {
    var s := Show(n);
    ParseShow(n);
    assert !IsJsWhiteSpace(s[0]);
    assert s[0] != '-' && s[0] != '+';
    assert !(|s| >= 2 && s[1] == 'x') && !(|s| >= 2 && s[1] == 'X');
    DigitRunAll(s, 10);
    assert s[..|s|] == s;
    RadixValueDecimal(s);
  }

  /** `parseInt(process.env[name]) || fallback`: NaN and 0 fall back. An
      unset variable is `parseInt(undefined)`, which reads "undefined" and is
      NaN (`UndefinedIsNaN`), so it falls back too. */
  function IntOr(env: Env, name: string, fallback: int): (r: int)
    ensures r == fallback || (name in env && ParseInt(env[name]) == Some(r))
    ensures r == 0 ==> fallback == 0
    ensures name in env && ParseInt(env[name]).Some? && ParseInt(env[name]).value != 0 ==>
      r == ParseInt(env[name]).value
  {
    if name !in env then fallback
    else
      var parsed := ParseInt(env[name]);
      if parsed.None? || parsed.value == 0 then fallback else parsed.value
  }

  /** `parseInt(undefined)`, which parses the string "undefined", is NaN. */
  lemma UndefinedIsNaN()
    ensures ParseInt("undefined") == None
  {
    ParseIntNaN("undefined");
  }

  /** A variable holding a positive decimal number yields that number. */
  lemma IntOrReadsVariable(env: Env, name: string, fallback: int, n: nat)
    requires name in env && env[name] == Show(n) && n > 0
    ensures IntOr(env, name, fallback) == n
  {
    ParseIntShow(n);
  }

  /** A string that starts with a character other than white space, a sign or
      a digit parses to NaN. */
  lemma ParseIntNaN(s: string)
    requires |s| > 0 && !IsJsWhiteSpace(s[0]) && s[0] != '-' && s[0] != '+' && DigitOf(s[0]) >= 10
    ensures ParseInt(s) == None
  {
    assert TrimStart(s) == s;
  }

  // ---------------------------------------------------------------------
  // The layers

  const MiB: int := 1024 * 1024
  const GiB: int := 1024 * 1024 * 1024

  /** An object whose members are all leaves (no nested object). */
  predicate Flat(v: Value) {
    v.Obj? && forall k | k in v.fields :: !v.fields[k].Obj?
  }

  /** `defaultConfig` of `loadConfig` (config.js:20-70), one section per function. */
  function Defaults(env: Env): (v: Value)
    ensures v.Obj?
  {
    Obj(map[
      "aws" := DefaultAws(env),
      "lambda" := DefaultLambda(env),
      "upload" := DefaultUpload(env),
      "client" := DefaultClient(env),
      "logging" := DefaultLogging(env),
      "development" := DefaultDevelopment(env)])
  }

  /** The sections of the defaults, by name. */
  lemma DefaultsSections(env: Env)
    ensures Defaults(env).fields.Keys == {"aws", "lambda", "upload", "client", "logging", "development"}
    ensures Defaults(env).fields["aws"] == DefaultAws(env) && Defaults(env).fields["lambda"] == DefaultLambda(env)
    ensures Defaults(env).fields["logging"] == DefaultLogging(env) && Defaults(env).fields["development"] == DefaultDevelopment(env)
  {
  }

  function DefaultAws(env: Env): (v: Value)
    ensures v.Obj? && v.fields.Keys == {"region", "s3"} && Flat(v.fields["s3"])
  {
    Obj(map[
      "region" := Str(EnvOr(env, "AWS_REGION", "ap-northeast-1")),
      "s3" := Obj(map[
        "bucketNamePrefix" := Str("media-viewer-v209-chat-logs"),
        "keyPrefix" := Str("chat-logs/"),
        "serverSideEncryption" := Str("aws:kms")])])
  }

  function DefaultLambda(env: Env): (v: Value)
    ensures Flat(v)
  {
    Obj(map[
      "functionUrl" := Str(EnvOr(env, "LAMBDA_FUNCTION_URL", "")),
      "timeout" := Num(IntOr(env, "LAMBDA_TIMEOUT", 30000)),
      "retryAttempts" := Num(IntOr(env, "LAMBDA_RETRY_ATTEMPTS", 3)),
      "retryDelay" := Num(IntOr(env, "LAMBDA_RETRY_DELAY", 1000))])
  }

  function DefaultUpload(env: Env): (v: Value)
    ensures Flat(v)
  {
    Obj(map[
      "maxFileSize" := Num(IntOr(env, "MAX_FILE_SIZE", 100 * MiB)),
      "allowedContentTypes" := Arr([Str("application/json"), Str("text/plain")]),
      "presignedUrlExpiry" := Num(IntOr(env, "PRESIGNED_URL_EXPIRY", 3600)),
      "compressionEnabled" := Bool(EnvIs(env, "COMPRESSION_ENABLED", "true")),
      "encryptionRequired" := Bool(!EnvIs(env, "ENCRYPTION_REQUIRED", "false"))])
  }

  function DefaultClient(env: Env): (v: Value)
    ensures Flat(v)
  {
    Obj(map[
      "userAgent" := Str("MediaViewer-v209-ChatLogUploader/1.0"),
      "connectTimeout" := Num(IntOr(env, "CONNECT_TIMEOUT", 30000)),
      "readTimeout" := Num(IntOr(env, "READ_TIMEOUT", 60000)),
      "maxConcurrentUploads" := Num(IntOr(env, "MAX_CONCURRENT_UPLOADS", 3))])
  }

  function DefaultLogging(env: Env): (v: Value)
    ensures Flat(v)
  {
    Obj(map[
      "level" := Str(EnvOr(env, "LOG_LEVEL", "info")),
      "enableConsole" := Bool(!EnvIs(env, "LOG_CONSOLE", "false")),
      "enableFile" := Bool(EnvIs(env, "LOG_FILE", "true")),
      "logDirectory" := Str(EnvOr(env, "LOG_DIRECTORY", "./logs"))])
  }

  function DefaultDevelopment(env: Env): (v: Value)
    ensures Flat(v)
  {
    Obj(map[
      "skipSSLVerification" := Bool(EnvIs(env, "SKIP_SSL_VERIFICATION", "true")),
      "enableDebugMode" := Bool(EnvIs(env, "DEBUG_MODE", "true")),
      "mockAWSServices" := Bool(EnvIs(env, "MOCK_AWS", "true"))])
  }

  /** The `aws` block the staging and production overrides share. */
  const RegionOverride: Value := Obj(map["region" := Str("ap-northeast-1")])

  const DevOverrides: Value := Obj(map[
    "logging" := Obj(map["level" := Str("debug"), "enableConsole" := Bool(true)]),
    "development" := Obj(map["enableDebugMode" := Bool(true)])])

  const StagingOverrides: Value := Obj(map[
    "aws" := RegionOverride,
    "logging" := Obj(map["level" := Str("info"), "enableFile" := Bool(true)])])

  const ProdOverrides: Value := Obj(map[
    "aws" := RegionOverride,
    "logging" := Obj(map["level" := Str("warn"), "enableFile" := Bool(true), "enableConsole" := Bool(false)]),
    "development" := Obj(map[
      "skipSSLVerification" := Bool(false),
      "enableDebugMode" := Bool(false),
      "mockAWSServices" := Bool(false)])])

  /** `getEnvironmentOverrides()` (config.js:83-121): the block for `dev`,
      `staging` or `prod`, and `{}` for any other label. */
  function Overrides(environment: string): (v: Value)
    ensures v.Obj?
    ensures environment !in {"dev", "staging", "prod"} ==> v == EmptyObj
  {
    if environment == "dev" then DevOverrides
    else if environment == "staging" then StagingOverrides
    else if environment == "prod" then ProdOverrides
    else EmptyObj
  }

  /** The tree `loadConfig()` returns for a label. */
  function Loaded(env: Env, environment: string): (r: map<string, Value>)
    ensures r.Keys == Defaults(env).fields.Keys
  {
    OverridesSections(environment);
    Merged(Defaults(env), Overrides(environment))
  }

  /** Every override block names sections the defaults have. */
  lemma OverridesSections(environment: string)
    ensures Overrides(environment).fields.Keys <= {"aws", "logging", "development"}
  {
  }

  /** An unknown label leaves the defaults as they are. */
  lemma LoadedUnknownLabel(env: Env, environment: string)
    requires environment !in {"dev", "staging", "prod"}
    ensures Loaded(env, environment) == Defaults(env).fields
  {
    MergeEmptySource(Defaults(env).fields);
  }

  /** No override block replaces an object of the defaults by a non-object. */
  lemma OverridesCompatible(env: Env, environment: string)
    ensures Compatible(Defaults(env), Overrides(environment))
  {
    var s := Overrides(environment);
    if environment == "dev" {
      assert s.fields.Keys == {"logging", "development"};
    } else if environment == "staging" {
      assert s.fields.Keys == {"aws", "logging"};
    } else if environment == "prod" {
      assert s.fields.Keys == {"aws", "logging", "development"};
    } else {
      assert s.fields.Keys == {};
    }
    SectionsCompatible(env, s);
  }

  /** An override block made of objects under `aws` (the region block),
      `logging` and `development` is compatible with the defaults. */
  lemma SectionsCompatible(env: Env, s: Value)
    requires s.Obj? && s.fields.Keys <= {"aws", "logging", "development"}
    requires forall k | k in s.fields :: s.fields[k].Obj?
    requires "aws" in s.fields ==> s.fields["aws"] == RegionOverride
    ensures Compatible(Defaults(env), s)
  {
    var t := Defaults(env);
    DefaultsSections(env);
    CompatibleFlat(DefaultAws(env), RegionOverride);
    forall k | k in t.fields && k in s.fields && t.fields[k].Obj?
      ensures s.fields[k].Obj? && Compatible(t.fields[k], s.fields[k])
    {
      if k != "aws" {
        CompatibleFlat(t.fields[k], s.fields[k]);
      }
    }
  }

  /** Objects whose shared keys hold no object on the left are compatible. */
  lemma CompatibleFlat(t: Value, s: Value)
    requires forall k | t.Obj? && s.Obj? && k in t.fields && k in s.fields :: !t.fields[k].Obj?
    ensures Compatible(t, s)
  {
  }

  /** Whatever the label, every path of the defaults is still present after the
      override block is merged in. */
  lemma LoadedKeepsDefaultPaths(env: Env, environment: string, p: seq<string>)
    requires ThroughObjects(Defaults(env), p)
    ensures Lookup(Obj(Loaded(env, environment)), p).Some?
  {
    OverridesCompatible(env, environment);
    TargetPathsSurvive(Defaults(env), Overrides(environment), p);
  }

  /** The override block's leaf values are the loaded values ... */
  lemma LoadedOverrideWins(env: Env, environment: string, p: seq<string>)
    requires |p| > 0 && ThroughObjects(Overrides(environment), p) && Lookup(Overrides(environment), p).Some?
    requires !Lookup(Overrides(environment), p).value.Obj?
    ensures Lookup(Obj(Loaded(env, environment)), p) == Lookup(Overrides(environment), p)
  {
    LookupThroughObjects(Overrides(environment), p);
    SourceLeafWins(Defaults(env), Overrides(environment), p);
  }

  /** ... and a default the block does not mention keeps its value. */
  lemma LoadedKeepsUnmentioned(env: Env, environment: string, p: seq<string>)
    requires ThroughObjects(Defaults(env), p) && Untouched(Overrides(environment), p)
    ensures Lookup(Obj(Loaded(env, environment)), p) == Lookup(Defaults(env), p)
  {
    TargetKeptWhereUntouched(Defaults(env), Overrides(environment), p);
  }

  /** In production, logging drops to warnings with the console off, whatever
      the variables say ... */
  lemma ProdLogging(env: Env)
    ensures Lookup(Obj(Loaded(env, "prod")), ["logging", "level"]) == Some(Str("warn"))
    ensures Lookup(Obj(Loaded(env, "prod")), ["logging", "enableConsole"]) == Some(Bool(false))
  {
    var logging := ProdOverrides.fields["logging"];
    assert Lookup(ProdOverrides, ["logging", "level"]) == Some(Str("warn")) by {
      assert ["logging", "level"][1..] == ["level"];
      assert Lookup(logging, ["level"]) == Some(Str("warn"));
    }
    assert Lookup(ProdOverrides, ["logging", "enableConsole"]) == Some(Bool(false)) by {
      assert ["logging", "enableConsole"][1..] == ["enableConsole"];
      assert Lookup(logging, ["enableConsole"]) == Some(Bool(false));
    }
    LoadedOverrideWins(env, "prod", ["logging", "level"]);
    LoadedOverrideWins(env, "prod", ["logging", "enableConsole"]);
  }

  /** ... while the S3 key prefix, which no block mentions, stays the default. */
  lemma KeyPrefixDefault(env: Env, environment: string)
    ensures Lookup(Obj(Loaded(env, environment)), KeyPrefixKeys) == Some(Str("chat-logs/"))
  {
    DefaultKeyPrefix(env);
    OverridesLeaveS3(environment);
    LoadedKeepsUnmentioned(env, environment, KeyPrefixKeys);
  }

  const KeyPrefixKeys: seq<string> := ["aws", "s3", "keyPrefix"]

  lemma DefaultKeyPrefix(env: Env)
    ensures ThroughObjects(Defaults(env), KeyPrefixKeys)
    ensures Lookup(Defaults(env), KeyPrefixKeys) == Some(Str("chat-logs/"))
  {
    var p := KeyPrefixKeys;
    var s3 := DefaultAws(env).fields["s3"];
    assert p[1..] == ["s3", "keyPrefix"] && p[1..][1..] == ["keyPrefix"];
    assert ThroughObjects(s3, ["keyPrefix"]) && Lookup(s3, ["keyPrefix"]) == Some(Str("chat-logs/"));
    assert ThroughObjects(DefaultAws(env), p[1..]);
    DefaultsSections(env);
  }

  lemma OverridesLeaveS3(environment: string)
    ensures Untouched(Overrides(environment), KeyPrefixKeys)
  {
    var p := KeyPrefixKeys;
    assert p[1..] == ["s3", "keyPrefix"];
    assert Untouched(RegionOverride, p[1..]);
  }

  // ---------------------------------------------------------------------
  // detectEnvironment

  /** `detectEnvironment()` (config.js:275-290). */
  function DetectEnvironment(env: Env): (detected: string)
    ensures detected != ""
    ensures IsSet(env, "NODE_ENV") ==> detected == env["NODE_ENV"]
    ensures !IsSet(env, "NODE_ENV") && IsSet(env, "ENVIRONMENT") ==> detected == env["ENVIRONMENT"]
    ensures !IsSet(env, "NODE_ENV") && !IsSet(env, "ENVIRONMENT") ==> detected in {"prod", "staging", "dev"}
  {
    if IsSet(env, "NODE_ENV") then env["NODE_ENV"]
    else if IsSet(env, "ENVIRONMENT") then env["ENVIRONMENT"]
    else
      var hostname := EnvOr(env, "HOSTNAME", "");
      if Contains(hostname, "prod") then "prod"
      else if Contains(hostname, "staging") then "staging"
      else "dev"
  }

  /** A variable is set to a non-empty string (truthy). */
  predicate IsSet(env: Env, name: string) {
    name in env && env[name] != ""
  }

  /** With neither label variable set, the hostname decides, `prod` before
      `staging`, and anything else is `dev`. */
  lemma DetectFromHostname(env: Env)
    requires !IsSet(env, "NODE_ENV") && !IsSet(env, "ENVIRONMENT")
    ensures var host := EnvOr(env, "HOSTNAME", "");
      && (DetectEnvironment(env) == "prod" <==> Contains(host, "prod"))
      && (DetectEnvironment(env) == "staging" <==> !Contains(host, "prod") && Contains(host, "staging"))
      && (DetectEnvironment(env) == "dev" <==> !Contains(host, "prod") && !Contains(host, "staging"))
  {
  }

  /** A host named like `chat-prod-7` selects the production block even when it
      also mentions staging. */
  lemma DetectProdHost(env: Env, a: string, b: string)
    requires !IsSet(env, "NODE_ENV") && !IsSet(env, "ENVIRONMENT")
    requires "HOSTNAME" in env && env["HOSTNAME"] == a + "prod" + b
    ensures DetectEnvironment(env) == "prod"
  {
    ContainsInfix(a, "prod", b);
  }

  // ---------------------------------------------------------------------
  // Reading, validation and redaction, as functions of the tree

  /** `get(path, defaultValue)`: the node at the path, else the default. */
  function GetPath(config: map<string, Value>, path: string, default: Option<Value>): (r: Option<Value>)
    ensures r == default || r == Lookup(Obj(config), Split(path))
    ensures Lookup(Obj(config), Split(path)).Some? ==> r == Lookup(Obj(config), Split(path))
  {
    match Lookup(Obj(config), Split(path))
    case Some(v) => Some(v)
    case None => default
  }

  /** A path with a missing node part-way returns the default. */
  lemma GetMissingPrefix(config: map<string, Value>, path: string, default: Option<Value>, j: nat)
    requires j <= |Split(path)| && Lookup(Obj(config), Split(path)[..j]).None?
    ensures GetPath(config, path, default) == default
  {
    LookupPrefixNone(Obj(config), Split(path), j);
  }

  /** The dotted path of a key sequence, `keys.join('.')`. */
  function PathOf(keys: seq<string>): string {
    Join(keys, ".")
  }

  const UrlKeys: seq<string> := ["lambda", "functionUrl"]
  const RegionKeys: seq<string> := ["aws", "region"]
  const MaxFileSizeKeys: seq<string> := ["upload", "maxFileSize"]

  /** `requiredPaths` of `validate()`, in its order. */
  const Required: seq<seq<string>> := [UrlKeys, RegionKeys]

  /** The dotted paths of the required entries whose value is falsy, in order. */
  function MissingAmong(config: map<string, Value>, required: seq<seq<string>>): (missing: seq<string>)
    ensures |missing| <= |required|
    ensures forall i | 0 <= i < |required| && !TruthyOpt(Lookup(Obj(config), required[i])) :: PathOf(required[i]) in missing
    ensures |missing| == 0 <==> forall i | 0 <= i < |required| :: TruthyOpt(Lookup(Obj(config), required[i]))
  {
    if |required| == 0 then []
    else
      var rest := MissingAmong(config, required[..|required| - 1]);
      var keys := required[|required| - 1];
      if TruthyOpt(Lookup(Obj(config), keys)) then rest else rest + [PathOf(keys)]
  }

  /** Only falsy required paths are listed: each listed path names a required
      entry that reads falsy. */
  lemma {:induction false} MissingSound(config: map<string, Value>, required: seq<seq<string>>, p: string)
    requires p in MissingAmong(config, required)
    ensures exists i | 0 <= i < |required| :: p == PathOf(required[i]) && !TruthyOpt(Lookup(Obj(config), required[i]))
  {
    var n := |required|;
    var front := required[..n - 1];
    if p in MissingAmong(config, front) {
      MissingSound(config, front, p);
      var i :| 0 <= i < |front| && p == PathOf(front[i]) && !TruthyOpt(Lookup(Obj(config), front[i]));
      assert front[i] == required[i];
    } else {
      assert p == PathOf(required[n - 1]) && !TruthyOpt(Lookup(Obj(config), required[n - 1]));
    }
  }

  /** The list `validate()` reports, in order: the function URL first, then
      the region, each exactly when it reads falsy. */
  lemma MissingRequiredForm(config: map<string, Value>)
    ensures MissingAmong(config, Required)
         == (if TruthyOpt(FunctionUrl(config)) then [] else ["lambda.functionUrl"])
          + (if TruthyOpt(Region(config)) then [] else ["aws.region"])
  {
    assert Required[..1] == [UrlKeys] && Required[1] == RegionKeys && Required[..2] == Required;
    assert [UrlKeys][..0] == [];
    assert PathOf(UrlKeys) == "lambda" + "." + Join(["functionUrl"], ".");
    assert "lambda" + "." + "functionUrl" == "lambda.functionUrl";
    assert PathOf(RegionKeys) == "aws" + "." + Join(["region"], ".");
    assert "aws" + "." + "region" == "aws.region";
  }

  lemma FixedKeysDotFree()
    ensures AllDotFree(UrlKeys) && AllDotFree(RegionKeys) && AllDotFree(MaxFileSizeKeys)
  {
  }

  /** Nothing is missing exactly when both the URL and the region are truthy. */
  lemma RequiredPresent(config: map<string, Value>)
    ensures |MissingAmong(config, Required)| == 0 <==> TruthyOpt(FunctionUrl(config)) && TruthyOpt(Region(config))
  {
    assert Required[0] == UrlKeys && Required[1] == RegionKeys;
  }

  /** Reading a fixed key sequence by its dotted path reads those keys. */
  lemma GetKeys(config: map<string, Value>, keys: seq<string>, default: Option<Value>)
    requires |keys| >= 1 && AllDotFree(keys)
    ensures GetPath(config, PathOf(keys), default) == match Lookup(Obj(config), keys) case Some(v) => Some(v) case None => default
  {
    SplitJoin(keys);
  }

  function FunctionUrl(config: map<string, Value>): Option<Value> {
    Lookup(Obj(config), UrlKeys)
  }

  function Region(config: map<string, Value>): Option<Value> {
    Lookup(Obj(config), RegionKeys)
  }

  /** A `functionUrl` value for which `startsWith('https://')` holds. */
  predicate IsHttps(url: Option<Value>) {
    url.Some? && url.value.Str? && StartsWith(url.value.chars, "https://")
  }

  /** What `validate()` accepts: both required values truthy and the URL https. */
  predicate ValidConfig(config: map<string, Value>)
    ensures ValidConfig(config) ==> |MissingAmong(config, Required)| == 0
    ensures ValidConfig(config) ==> FunctionUrl(config).value.Str? && |FunctionUrl(config).value.chars| >= 8
  {
    RequiredPresent(config);
    TruthyOpt(FunctionUrl(config)) && TruthyOpt(Region(config)) && IsHttps(FunctionUrl(config))
  }

  const MissingMessagePrefix: string := "Missing required configuration: "
  const HttpsMessage: string := "Lambda function URL must use HTTPS"
  /** The TypeError calling `startsWith` on a truthy non-string raises. */
  const StartsWithTypeError: string := "functionUrl.startsWith is not a function"

  /** `exportConfig.lambda && exportConfig.lambda.functionUrl` */
  predicate HasSecretUrl(config: map<string, Value>)
    ensures HasSecretUrl(config) <==> TruthyOpt(FunctionUrl(config))
  {
    assert UrlKeys[0] == "lambda" && UrlKeys[1..] == ["functionUrl"];
    "lambda" in config && config["lambda"].Obj? && "functionUrl" in config["lambda"].fields
    && Truthy(config["lambda"].fields["functionUrl"])
  }

  const RedactedMarker: string := "[REDACTED]"

  /** The tree after `export(false)` overwrote the URL in the shared `lambda` object. */
  function Redacted(config: map<string, Value>): (r: map<string, Value>)
    ensures r.Keys == config.Keys
  {
    if HasSecretUrl(config) then
      config["lambda" := Obj(config["lambda"].fields["functionUrl" := Str(RedactedMarker)])]
    else config
  }

  /** Redaction is the write `set('lambda.functionUrl', '[REDACTED]')`, so the
      set lemmas say it touches nothing else. */
  lemma RedactedIsSet(config: map<string, Value>)
    requires HasSecretUrl(config)
    ensures SetIn(Obj(config), ["lambda", "functionUrl"], Str(RedactedMarker))
         == Success(Obj(Redacted(config)))
  {
    assert ["lambda", "functionUrl"][1..] == ["functionUrl"];
  }

  /** After redaction, the value at `lambda.functionUrl` is the marker or was
      never a secret (absent or falsy); every path branching off it is unchanged. */
  lemma RedactionHidesUrl(config: map<string, Value>, q: seq<string>, j: nat)
    ensures FunctionUrl(Redacted(config)) == Some(Str(RedactedMarker)) || !TruthyOpt(FunctionUrl(Redacted(config)))
    ensures HasSecretUrl(config) ==> FunctionUrl(Redacted(config)) == Some(Str(RedactedMarker))
    ensures DivergeAt(["lambda", "functionUrl"], q, j) ==> Lookup(Obj(Redacted(config)), q) == Lookup(Obj(config), q)
  {
    if HasSecretUrl(config) {
      RedactedIsSet(config);
      GetAfterSet(Obj(config), ["lambda", "functionUrl"], Str(RedactedMarker));
      if DivergeAt(["lambda", "functionUrl"], q, j) {
        SetFrame(Obj(config), ["lambda", "functionUrl"], Str(RedactedMarker), q, j);
      }
    }
  }

  lemma RedactedIdempotent(config: map<string, Value>)
    ensures Redacted(Redacted(config)) == Redacted(config)
  {
    if HasSecretUrl(config) {
      var f := config["lambda"].fields["functionUrl" := Str(RedactedMarker)];
      assert f["functionUrl" := Str(RedactedMarker)] == f;
      var c := config["lambda" := Obj(f)];
      assert c["lambda" := Obj(f)] == c;
    }
  }

  /** No override block mentions `lambda`, so the function URL is the
      variable's value (or ""); the region is always a non-empty string. */
  lemma LoadedRequired(env: Env, environment: string)
    ensures FunctionUrl(Loaded(env, environment)) == Some(Str(EnvOr(env, "LAMBDA_FUNCTION_URL", "")))
    ensures Region(Loaded(env, environment)).Some? && Region(Loaded(env, environment)).value.Str?
    ensures Region(Loaded(env, environment)).value.chars != ""
  {
    DefaultUrl(env);
    DefaultRegion(env);
    OverridesLeaveLambda(environment);
    LoadedKeepsUnmentioned(env, environment, UrlKeys);
    if environment == "staging" || environment == "prod" {
      OverrideRegion(environment);
      LoadedOverrideWins(env, environment, RegionKeys);
    } else {
      LoadedKeepsUnmentioned(env, environment, RegionKeys);
    }
  }

  lemma DefaultUrl(env: Env)
    ensures ThroughObjects(Defaults(env), UrlKeys)
    ensures Lookup(Defaults(env), UrlKeys) == Some(Str(EnvOr(env, "LAMBDA_FUNCTION_URL", "")))
  {
    var lambda := DefaultLambda(env);
    assert UrlKeys[1..] == ["functionUrl"];
    assert Lookup(lambda, ["functionUrl"]) == Some(Str(EnvOr(env, "LAMBDA_FUNCTION_URL", "")));
    assert ThroughObjects(lambda, ["functionUrl"]);
    DefaultsSections(env);
  }

  lemma DefaultRegion(env: Env)
    ensures ThroughObjects(Defaults(env), RegionKeys)
    ensures Lookup(Defaults(env), RegionKeys) == Some(Str(EnvOr(env, "AWS_REGION", "ap-northeast-1")))
  {
    var aws := DefaultAws(env);
    assert RegionKeys[1..] == ["region"];
    assert Lookup(aws, ["region"]) == Some(Str(EnvOr(env, "AWS_REGION", "ap-northeast-1")));
    assert ThroughObjects(aws, ["region"]);
    DefaultsSections(env);
  }

  lemma OverridesLeaveLambda(environment: string)
    ensures Untouched(Overrides(environment), UrlKeys)
  {
  }

  lemma OverrideRegion(environment: string)
    requires environment == "staging" || environment == "prod"
    ensures ThroughObjects(Overrides(environment), RegionKeys)
    ensures Lookup(Overrides(environment), RegionKeys) == Some(Str("ap-northeast-1"))
  {
    assert RegionKeys[1..] == ["region"];
    assert Lookup(RegionOverride, ["region"]) == Some(Str("ap-northeast-1"));
    assert ThroughObjects(RegionOverride, ["region"]);
  }

  /** A freshly loaded configuration passes `validate()` exactly when
      LAMBDA_FUNCTION_URL is an https URL: the region can never be missing. */
  lemma LoadedValid(env: Env, environment: string)
    ensures ValidConfig(Loaded(env, environment)) <==> StartsWith(EnvOr(env, "LAMBDA_FUNCTION_URL", ""), "https://")
  {
    LoadedRequired(env, environment);
  }

  /** `export(false)` makes every valid configuration invalid: the live URL is
      now the marker, which is not an https URL. */
  lemma ExportBreaksValidation(config: map<string, Value>)
    requires ValidConfig(config)
    ensures HasSecretUrl(config)
    ensures !ValidConfig(Redacted(config))
  {
    var lambda := config["lambda"];
    assert Child(Obj(config), "lambda") == Some(lambda);
    assert UrlKeys[1..] == ["functionUrl"];
    assert lambda.Obj? by {
      assert Child(lambda, "functionUrl").Some?;
    }
    RedactionHidesUrl(config, [], 0);
    assert !StartsWith(RedactedMarker, "https://") by {
      assert RedactedMarker[0] != 'h';
    }
  }

  /** The first loop of `set(path, value)`: walk down all but the last
      segment, recording each node passed. `thrown` is the exception raised on
      the way; otherwise `spine` holds the nodes the walk visits, and any failure
      of the remaining write is the failure of the whole write. */
  method Descend(root: Value, keys: seq<string>, value: Value) returns (spine: seq<Value>, thrown: Option<SetError>)
    requires |keys| >= 1
    ensures thrown.Some? ==> SetIn(root, keys, value) == Failure(thrown.value)
    ensures thrown.None? ==> |spine| == |keys| && spine[0] == root
    ensures thrown.None? ==> forall j | 0 <= j < |keys| - 1 :: StepInto(spine[j], keys[j]) == Success(spine[j + 1])
    ensures thrown.None? && SetIn(spine[|keys| - 1], keys[|keys| - 1..], value).Failure? ==>
              SetIn(root, keys, value) == SetIn(spine[|keys| - 1], keys[|keys| - 1..], value)
  {
    var n := |keys|;
    spine := [root];
    var i := 0;
    while i < n - 1
      invariant 0 <= i <= n - 1
      invariant |spine| == i + 1 && spine[0] == root
      invariant forall j | 0 <= j < i :: StepInto(spine[j], keys[j]) == Success(spine[j + 1])
      invariant SetIn(spine[i], keys[i..], value).Failure? ==> SetIn(root, keys, value) == SetIn(spine[i], keys[i..], value)
    {
      assert keys[i..][1..] == keys[i + 1..];
      var step := StepInto(spine[i], keys[i]);
      if step.Failure? {
        return spine, Some(step.error);
      }
      spine := spine + [step.value];
      i := i + 1;
    }
    thrown := None;
  }

  /** The nodes of a path walk rebuilt bottom-up around the new `leaf`: the
      whole write succeeds with the rebuilt root. */
  method Rebuild(spine: seq<Value>, keys: seq<string>, value: Value, leaf: Value) returns (node: Value)
    requires |spine| == |keys| >= 1
    requires forall j | 0 <= j < |keys| - 1 :: StepInto(spine[j], keys[j]) == Success(spine[j + 1])
    requires SetIn(spine[|keys| - 1], keys[|keys| - 1..], value) == Success(leaf)
    ensures SetIn(spine[0], keys, value) == Success(node)
  {
    node := leaf;
    var j := |keys| - 1;
    while j > 0
      invariant 0 <= j <= |keys| - 1
      invariant SetIn(spine[j], keys[j..], value) == Success(node)
    {
      assert keys[j - 1..][1..] == keys[j..];
      node := PutChild(spine[j - 1], keys[j - 1], node);
      j := j - 1;
    }
  }

  /** A write whose walk meets no `null` and no array before the last segment
      succeeds, and reading the same path afterwards returns the value. */
  lemma SetThenGet(config: map<string, Value>, path: string, value: Value)
    requires WalkClear(Obj(config), Split(path))
    ensures SetIn(Obj(config), Split(path), value).Success?
    ensures GetPath(SetIn(Obj(config), Split(path), value).value.fields, path, None) == Some(value)
  {
    SetSucceeds(Obj(config), Split(path), value);
    GetAfterSet(Obj(config), Split(path), value);
  }

  // ---------------------------------------------------------------------
  // The Config object

  class Config {
    var environment: string
    var config: map<string, Value>

    /** `new Config(environment)`: the defaults merged with the label's overrides. */
    constructor (environment: string, env: Env)
      ensures this.environment == environment
      ensures config == Loaded(env, environment)
    {
      var merged := MergeDeep(Defaults(env), Overrides(environment));
      this.environment := environment;
      config := merged;
    }

    /** `get(path, defaultValue)`: walk the dotted path from the root. */
    method Get(path: string, default: Option<Value>) returns (r: Option<Value>)
      ensures r == GetPath(config, path, default)
    {
      var keys := Split(path);
      var current := Obj(config);
      for i := 0 to |keys|
        invariant Lookup(Obj(config), keys) == Lookup(current, keys[i..])
      {
        assert keys[i..][1..] == keys[i + 1..];
        var next := Child(current, keys[i]);
        if next.None? {
          return default;
        }
        current := next.value;
      }
      return Some(current);
    }

    /** `set(path, value)`. The source walks a `current` pointer down the path,
        replacing missing or non-object intermediates by `{}`, and assigns in
        place; on immutable values the walk records the nodes it passes and then
        rebuilds them bottom-up. `thrown` is the exception the walk raises, in
        which case nothing has been changed. */
    method Set(path: string, value: Value) returns (thrown: Option<SetError>)
      modifies this
      ensures environment == old(environment)
      ensures var r := SetIn(Obj(old(config)), Split(path), value);
        && (r.Success? ==> thrown.None? && config == r.value.fields)
        && (r.Failure? ==> thrown == Some(r.error) && config == old(config))
    {
      var keys := Split(path);
      var root := Obj(config);
      var spine, stepError := Descend(root, keys, value);
      if stepError.Some? {
        return stepError;
      }
      var n := |keys|;
      assert keys[n - 1..] == [keys[n - 1]];
      var written := Assign(spine[n - 1], keys[n - 1], value);
      if written.Failure? {
        return Some(written.error);
      }
      var node := Rebuild(spine, keys, value, written.value);
      config := node.fields;
      return None;
    }

    /** `validate()` (config.js:188-217). On success the flag tells whether the
        size warning was printed; `maxFileSize` above 5 GiB never throws. */
    method Validate() returns (r: Result<bool, string>)
      ensures var missing := MissingAmong(config, Required);
        && (|missing| > 0 ==> r == Failure(MissingMessagePrefix + Join(missing, ", ")))
        && (|missing| == 0 && !IsHttps(FunctionUrl(config)) ==>
              r == Failure(if FunctionUrl(config).Some? && FunctionUrl(config).value.Str? then HttpsMessage else StartsWithTypeError))
      ensures r.Failure? <==> !ValidConfig(config)
      ensures r.Success? ==> r.value == (var m := Lookup(Obj(config), MaxFileSizeKeys); m.Some? && m.value.Num? && m.value.n > 5 * GiB)
    {
      var missing := MissingRequired();
      RequiredPresent(config);
      FixedKeysDotFree();
      if |missing| > 0 {
        return Failure(MissingMessagePrefix + Join(missing, ", "));
      }
      GetKeys(config, UrlKeys, None);
      var functionUrl := Get(PathOf(UrlKeys), None);
      if TruthyOpt(functionUrl) && !IsHttps(functionUrl) {
        return Failure(if functionUrl.Some? && functionUrl.value.Str? then HttpsMessage else StartsWithTypeError);
      }
      GetKeys(config, MaxFileSizeKeys, None);
      var maxFileSize := Get(PathOf(MaxFileSizeKeys), None);
      return Success(maxFileSize.Some? && maxFileSize.value.Num? && maxFileSize.value.n > 5 * GiB);
    }

    /** The first loop of `validate()`: collect the required paths that read falsy. */
    method MissingRequired() returns (missing: seq<string>)
      ensures missing == MissingAmong(config, Required)
      ensures missing == (if TruthyOpt(FunctionUrl(config)) then [] else ["lambda.functionUrl"])
                       + (if TruthyOpt(Region(config)) then [] else ["aws.region"])
    {
      FixedKeysDotFree();
      missing := [];
      for i := 0 to |Required|
        invariant missing == MissingAmong(config, Required[..i])
      {
        assert Required[..i + 1][..i] == Required[..i];
        GetKeys(config, Required[i], None);
        var v := Get(PathOf(Required[i]), None);
        if !TruthyOpt(v) {
          missing := missing + [PathOf(Required[i])];
        }
      }
      assert Required[..|Required|] == Required;
      MissingRequiredForm(config);
    }

    /** `getAll()`: a top-level copy of the tree. */
    method GetAll() returns (all: map<string, Value>)
      ensures all == config
    {
      all := config;
    }

    /** `export(includeSecrets)`, returning the tree `JSON.stringify` would
        render. The copy is shallow, so without secrets the live `lambda`
        object gets the marker too and later reads see it. */
    method Export(includeSecrets: bool) returns (exported: Value)
      modifies this
      ensures environment == old(environment)
      ensures config == if includeSecrets then old(config) else Redacted(old(config))
      ensures exported == Obj(config)
    {
      if !includeSecrets && HasSecretUrl(config) {
        var lambda := config["lambda"].fields;
        config := config["lambda" := Obj(lambda["functionUrl" := Str(RedactedMarker)])];
      }
      exported := Obj(config);
    }

    /** The export the redaction evidently intends: the same tree out, the
        live tree untouched (a copy deep enough to include `lambda`). */
    method ExportCopy(includeSecrets: bool) returns (exported: Value)
      ensures exported == Obj(if includeSecrets then config else Redacted(config))
    {
      var copy := config;
      if !includeSecrets && HasSecretUrl(copy) {
        var lambda := copy["lambda"].fields;
        copy := copy["lambda" := Obj(lambda["functionUrl" := Str(RedactedMarker)])];
      }
      exported := Obj(copy);
    }

    /** `loadFromFile(filePath)` without the read: `file` is the parsed content,
        or None when reading or parsing failed, in which case only a warning is
        printed (`warned`) and the tree stays as it was. */
    method LoadFromFile(file: Option<Value>) returns (warned: bool)
      modifies this
      ensures environment == old(environment)
      ensures warned == file.None?
      ensures config == if file.Some? then Merged(Obj(old(config)), file.value) else old(config)
    {
      if file.None? {
        return true;
      }
      var merged := MergeDeep(Obj(config), file.value);
      config := merged;
      return false;
    }

    /** `saveToFile(filePath, includeSecrets)` without the write: it exports
        and reports the write failure, given as `writeError`, with its message
        prefixed. It uses the corrected export, so the live tree stays as it was
        (`Config.Export` keeps the source's shallow copy). */
    method SaveToFile(filePath: string, includeSecrets: bool, writeError: Option<string>)
      returns (r: Result<Value, string>)
      ensures writeError.None? ==> r == Success(Obj(if includeSecrets then config else Redacted(config)))
      ensures writeError.Some? ==> r == Failure("Failed to save config to " + filePath + ": " + writeError.value)
    {
      var data := ExportCopy(includeSecrets);
      if writeError.Some? {
        return Failure("Failed to save config to " + filePath + ": " + writeError.value);
      }
      return Success(data);
    }
  }
}
