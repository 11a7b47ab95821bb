/** `path.basename` on POSIX paths, as the uploader uses it to name the file
    it asks a grant for. */
module PosixPath {
  /** `p` without its trailing slashes. */
  function StripTrailingSlashes(p: string): (r: string)
    ensures |r| <= |p| && r == p[..|r|]
    ensures |r| == 0 || r[|r| - 1] != '/'
    ensures forall i | |r| <= i < |p| :: p[i] == '/'
  {
    if |p| > 0 && p[|p| - 1] == '/' then StripTrailingSlashes(p[..|p| - 1]) else p
  }

  /** The part of `p` after its last slash. */
  function AfterLastSlash(p: string): (r: string)
    ensures |r| <= |p| && r == p[|p| - |r|..]
    ensures forall i | 0 <= i < |r| :: r[i] != '/'
    ensures |r| < |p| ==> p[|p| - |r| - 1] == '/'
  {
    if |p| == 0 || p[|p| - 1] == '/' then "" else AfterLastSlash(p[..|p| - 1]) + [p[|p| - 1]]
  }

  /** `path.basename(p)`: the last non-empty segment; "" for "" and "/". */
  function Basename(p: string): (r: string)
    ensures forall i | 0 <= i < |r| :: r[i] != '/'
  {
    AfterLastSlash(StripTrailingSlashes(p))
  }

  predicate SlashFree(s: string) {
    forall i | 0 <= i < |s| :: s[i] != '/'
  }

  /** The base name of a path ending in a non-empty slash-free name, after a
      directory or alone, is that name. */
  lemma BasenameOfJoin(dir: string, name: string)
    requires |name| > 0 && SlashFree(name)
    ensures Basename(name) == name
    ensures Basename(dir + "/" + name) == name
  {
    AfterLastSlashOf("", name);
    assert "" + name == name;
    AfterLastSlashOf(dir + "/", name);
    assert dir + "/" + name == (dir + "/") + name;
  }

  /** Trailing slashes do not change the base name: `path.basename('logs/a.json/')`
      is `a.json`. */
  lemma BasenameTrailingSlash(dir: string, name: string)
    requires |name| > 0 && SlashFree(name)
    ensures Basename(name + "/") == name
    ensures Basename(dir + "/" + name + "/") == name
  {
    BasenameOfJoin(dir, name);
    StripOneSlash(name);
    StripOneSlash(dir + "/" + name);
  }

  /** One slash after a name that does not end in one is stripped. */
  lemma StripOneSlash(p: string)
    requires |p| > 0 && p[|p| - 1] != '/'
    ensures StripTrailingSlashes(p + "/") == p
  {
    assert (p + "/")[..|p + "/"| - 1] == p;
  }

  /** After a slash (or nothing), a slash-free name is all there is after the
      last slash. */
  lemma AfterLastSlashOf(pre: string, name: string)
    requires SlashFree(name)
    requires |pre| == 0 || pre[|pre| - 1] == '/'
    ensures AfterLastSlash(pre + name) == name
  {
    var p := pre + name;
    assert p[|pre|..] == name;
    SuffixAfterSlash(p, AfterLastSlash(p), |pre|);
  }

  /** A slash-free suffix `r` of `p` that reaches back to a slash (or to the
      start) is the suffix after `k`, when `p` has a slash (or its start) just
      before `k` and none after: a shorter one would stop at a slash after `k`,
      a longer one would contain the slash at `k - 1`. */
  lemma SuffixAfterSlash(p: string, r: string, k: nat)
    requires k <= |p| && |r| <= |p| && r == p[|p| - |r|..] && SlashFree(r)
    requires |r| < |p| ==> p[|p| - |r| - 1] == '/'
    requires SlashFree(p[k..]) && (k == 0 || p[k - 1] == '/')
    ensures r == p[k..]
  {
    assert forall i | k <= i < |p| :: p[i] != '/' by {
      forall i | k <= i < |p| ensures p[i] != '/' {
        assert p[i] == p[k..][i - k];
      }
    }
    assert forall i | |p| - |r| <= i < |p| :: p[i] != '/' by {
      forall i | |p| - |r| <= i < |p| ensures p[i] != '/' {
        assert p[i] == r[i - (|p| - |r|)];
      }
    }
    assert |r| == |p| - k;
  }
}

/** `ChatLogUploader` (chat-log-uploader.js): local file checks, the grant
    request to the Lambda function, the PUT to the presigned URL, and the two
    upload operations that sequence them. The transport is abstract: a reply
    value stands for what the server (or the socket) did, and a URL-parser
    verdict `parsesAsUrl` stands for `new URL(...)`. Each operation also
    returns the requests it issued, in order. */
module Uploader {
  import opened Wrappers
  import opened Text
  import opened Json
  import Utf8
  import opened PosixPath

  // ---------------------------------------------------------------------
  // validateFile

  const MaxUploadBytes: nat := 100 * 1024 * 1024

  /** What `fs.stat` produced: an error with its `code` and message, or the
      stats of an existing path. */
  datatype StatResult = StatError(code: Option<string>, message: string) | Stats(isFile: bool, size: nat)

  datatype Check = Passed | Rejected(message: string)

  /** `validateFile(filePath)` (chat-log-uploader.js:120-137). */
  function ValidateFile(filePath: string, stat: StatResult): (r: Check)
    ensures r.Passed? <==> stat.Stats? && stat.isFile && 0 < stat.size <= MaxUploadBytes
    ensures stat.StatError? ==> r == Rejected(if stat.code == Some("ENOENT") then "File not found: " + filePath else stat.message)
    ensures stat.Stats? && !stat.isFile ==> r == Rejected("Path is not a file: " + filePath)
    ensures stat.Stats? && stat.isFile && stat.size == 0 ==> r == Rejected("File is empty: " + filePath)
    ensures stat.Stats? && stat.isFile && stat.size > MaxUploadBytes ==> r == Rejected("File too large (>100MB): " + filePath)
  {
    match stat
    case StatError(code, message) =>
      if code == Some("ENOENT") then Rejected("File not found: " + filePath) else Rejected(message)
    case Stats(isFile, size) =>
      // the three checks throw inside the `try`; their errors have no `code`,
      // so the `catch` rethrows them unchanged
      if !isFile then Rejected("Path is not a file: " + filePath)
      else if size == 0 then Rejected("File is empty: " + filePath)
      else if size > MaxUploadBytes then Rejected("File too large (>100MB): " + filePath)
      else Passed
  }

  /** Exactly 100 MiB is accepted, one byte more is not. */
  lemma SizeLimitBoundary(filePath: string)
    ensures ValidateFile(filePath, Stats(true, 100 * 1024 * 1024)) == Passed
    ensures ValidateFile(filePath, Stats(true, 100 * 1024 * 1024 + 1)).Rejected?
  {
  }

  // ---------------------------------------------------------------------
  // The transport, abstracted

  /** What issuing the grant request came to. */
  datatype GrantReply =
    | GrantTransportError(message: string)     // the request's `error` event
    | GrantTimeout                             // the request's `timeout` event
    | GrantResponse(status: int, body: Parse)  // a complete response; its body as `JSON.parse` saw it

  datatype Parse = Unparsable(message: string) | Parsed(value: Value)

  /** What issuing the PUT came to. */
  datatype PutReply =
    | PutTransportError(message: string)
    | PutTimeout
    | PutResponse(status: int, headers: map<string, Value>, body: string)

  /** The value `uploadToS3` resolves with. */
  datatype PutResult = PutResult(statusCode: int, headers: map<string, Value>, etag: Option<Value>)

  /** A request put on the wire. */
  datatype Request =
    | GrantRequest(url: string, params: Value, timeout: Option<Value>)
    | PutRequest(url: string, content: string, contentType: string, contentLength: nat, timeout: Option<Value>)

  const InvalidUrl: string := "Invalid URL"
  const JsonType: string := "application/json"

  /** A member read `v.name` that cannot throw (`v` is not null). */
  function Prop(v: Value, name: string): (r: Option<Value>)
    ensures v != Null ==> ReadProp(v, name) == Got(r)
  {
    if v.Obj? && name in v.fields then Some(v.fields[name]) else None
  }

  /** The handler of a complete grant response (chat-log-uploader.js:170-181):
      parse first, then the status. Reading `error` off a `null` body throws
      inside the `try`, so it is reported as a parse failure. */
  function ClassifyGrant(reply: GrantReply): (r: Result<Value, string>)
    ensures r.Success? <==> reply.GrantResponse? && reply.status == 200 && reply.body.Parsed?
    ensures r.Success? ==> r.value == reply.body.value
    ensures reply.GrantResponse? && reply.body.Unparsable? ==>
      r == Failure("Failed to parse Lambda response: " + reply.body.message)
    ensures reply.GrantResponse? && reply.status != 200 && reply.body.Parsed? && reply.body.value != Null ==>
      var v := reply.body.value;
      r == Failure("Lambda function error: " + DisplayOpt(if TruthyOpt(Prop(v, "error")) then Prop(v, "error") else Prop(v, "message")))
    ensures reply.GrantTransportError? ==> r == Failure("Request failed: " + reply.message)
    ensures reply.GrantTimeout? ==> r == Failure("Request timeout")
  {
    match reply
    case GrantTransportError(m) => Failure("Request failed: " + m)
    case GrantTimeout => Failure("Request timeout")
    case GrantResponse(status, Unparsable(m)) => Failure("Failed to parse Lambda response: " + m)
    case GrantResponse(status, Parsed(v)) =>
      if status == 200 then Success(v)
      else
        match ReadProp(v, "error")
        case Threw(m) => Failure("Failed to parse Lambda response: " + m)
        case Got(e) =>
          var shown := if TruthyOpt(e) then e else ReadProp(v, "message").value;
          Failure("Lambda function error: " + DisplayOpt(shown))
  }

  /** The handler of a complete PUT response (chat-log-uploader.js:229-238). */
  function ClassifyPut(reply: PutReply): (r: Result<PutResult, string>)
    ensures r.Success? <==> reply.PutResponse? && reply.status == 200
    ensures r.Success? ==> r.value == PutResult(200, reply.headers, if "etag" in reply.headers then Some(reply.headers["etag"]) else None)
    ensures reply.PutResponse? && reply.status != 200 ==>
      r == Failure("S3 upload failed: " + ShowInt(reply.status) + " " + reply.body)
    ensures reply.PutTransportError? ==> r == Failure("S3 upload request failed: " + reply.message)
    ensures reply.PutTimeout? ==> r == Failure("S3 upload timeout")
  {
    match reply
    case PutTransportError(m) => Failure("S3 upload request failed: " + m)
    case PutTimeout => Failure("S3 upload timeout")
    case PutResponse(status, headers, body) =>
      if status == 200 then Success(PutResult(status, headers, if "etag" in headers then Some(headers["etag"]) else None))
      else Failure("S3 upload failed: " + ShowInt(status) + " " + body)
  }

  /** Every status other than 200, 2xx included, fails the PUT, and the
      message starts with that status. */
  lemma PutStatusInMessage(status: int, headers: map<string, Value>, body: string)
    requires status != 200
    ensures ClassifyPut(PutResponse(status, headers, body)).Failure?
    ensures StartsWith(ClassifyPut(PutResponse(status, headers, body)).error, "S3 upload failed: " + ShowInt(status))
  {
    var prefix := "S3 upload failed: " + ShowInt(status);
    assert ClassifyPut(PutResponse(status, headers, body)).error == prefix + (" " + body);
  }

  /** A 200 status with an unparsable body is still a parse failure. */
  lemma GrantParsesBeforeStatus(message: string)
    ensures ClassifyGrant(GrantResponse(200, Unparsable(message))) == Failure("Failed to parse Lambda response: " + message)
  {
  }

  /** A `null` error body cannot be read for `error`: the TypeError surfaces as a
      parse failure. */
  lemma GrantNullBody(status: int)
    requires status != 200
    ensures ClassifyGrant(GrantResponse(status, Parsed(Null)))
         == Failure("Failed to parse Lambda response: " + NullRead("error"))
  {
  }

  /** The body of the grant request (chat-log-uploader.js:40-45, 85-90). */
  function GrantParams(fileName: string): (v: Value)
    ensures v.Obj? && v.fields.Keys == {"action", "fileName", "contentType", "expiresIn"}
    ensures Prop(v, "fileName") == Some(Str(fileName)) && Prop(v, "action") == Some(Str("upload"))
    ensures Prop(v, "contentType") == Some(Str(JsonType)) && Prop(v, "expiresIn") == Some(Num(3600))
  {
    Obj(map[
      "action" := Str("upload"),
      "fileName" := Str(fileName),
      "contentType" := Str(JsonType),
      "expiresIn" := Num(3600)])
  }

  /** What a successful upload resolves with. */
  datatype UploadOutcome = UploadOutcome(
    success: bool,
    s3Key: Option<Value>,
    fileName: string,
    uploadTimestamp: Option<Value>,
    fileSize: nat,
    metadata: Value)

  /** A grant that resolved with something whose members can be read. */
  predicate Usable(grant: GrantReply) {
    ClassifyGrant(grant).Success? && ClassifyGrant(grant).value != Null
  }

  /** The string `new URL(presignedData.presignedUrl)` parses. */
  function PutTarget(g: Value): string {
    DisplayOpt(Prop(g, "presignedUrl"))
  }

  /** The result object of a successful upload of `content` under a grant `g`. */
  function Outcome(g: Value, fileName: string, content: string, metadata: Option<Value>): (o: UploadOutcome)
    ensures o.success && o.fileName == fileName && o.fileSize == Utf8.Length(content)
    ensures o.s3Key == Prop(g, "s3Key") && o.uploadTimestamp == Prop(g, "timestamp")
    ensures metadata.Some? ==> o.metadata == metadata.value
    ensures metadata.None? ==> o.metadata == EmptyObj
  {
    UploadOutcome(true, Prop(g, "s3Key"), fileName, Prop(g, "timestamp"), Utf8.Length(content), metadata.GetOr(EmptyObj))
  }

  const UploadPrefix: string := "Upload failed: "
  const ContentPrefix: string := "Content upload failed: "

  const DefaultOptions: map<string, Value> :=
    map["timeout" := Num(30000), "retryAttempts" := Num(3), "retryDelay" := Num(1000)]

  /** `{ timeout: 30000, retryAttempts: 3, retryDelay: 1000, ...options }` */
  function MergedOptions(options: Value): (r: map<string, Value>)
    ensures r.Keys == DefaultOptions.Keys + Spread(options).Keys
    ensures forall k | k in Spread(options) :: r[k] == Spread(options)[k]
    ensures forall k | k in DefaultOptions && k !in Spread(options) :: r[k] == DefaultOptions[k]
  {
    DefaultOptions + Spread(options)
  }

  /** With no options the defaults apply; a caller's `timeout` replaces only
      the timeout. */
  lemma OptionsExamples(t: Value)
    ensures MergedOptions(EmptyObj) == DefaultOptions
    ensures MergedOptions(Obj(map["timeout" := t])) == DefaultOptions["timeout" := t]
  {
  }

  class ChatLogUploader {
    var functionUrl: string
    var options: map<string, Value>

    /** `new ChatLogUploader(functionUrl, options)`; None for `options` is the
        omitted argument, which defaults to `{}`. */
    constructor (functionUrl: string, options: Option<Value>)
      ensures this.functionUrl == functionUrl
      ensures this.options == MergedOptions(options.GetOr(EmptyObj))
    {
      this.functionUrl := functionUrl;
      this.options := MergedOptions(options.GetOr(EmptyObj));
    }

    /** `this.options.timeout`, passed to every request. */
    function Timeout(): Option<Value>
      reads this
    {
      if "timeout" in options then Some(options["timeout"]) else None
    }

    /** `getPresignedUrl(params)`: an unparsable function URL rejects before
        anything is sent; otherwise the request goes out and its reply is
        classified. */
    method GetPresignedUrl(params: Value, parsesAsUrl: string -> bool, reply: GrantReply)
      returns (r: Result<Value, string>, sent: seq<Request>)
      ensures !parsesAsUrl(functionUrl) ==> r == Failure(InvalidUrl) && sent == []
      ensures parsesAsUrl(functionUrl) ==> r == ClassifyGrant(reply) && sent == [GrantRequest(functionUrl, params, Timeout())]
    {
      if !parsesAsUrl(functionUrl) {
        return Failure(InvalidUrl), [];
      }
      sent := [GrantRequest(functionUrl, params, Timeout())];
      r := ClassifyGrant(reply);
    }

    /** `uploadToS3(presignedUrl, content, contentType)`. The URL is whatever
        the grant held, converted to a string by `new URL`. */
    method UploadToS3(presignedUrl: Option<Value>, content: string, contentType: string,
                      parsesAsUrl: string -> bool, reply: PutReply)
      returns (r: Result<PutResult, string>, sent: seq<Request>)
      ensures !parsesAsUrl(DisplayOpt(presignedUrl)) ==> r == Failure(InvalidUrl) && sent == []
      ensures parsesAsUrl(DisplayOpt(presignedUrl)) ==>
        && r == ClassifyPut(reply)
        && sent == [PutRequest(DisplayOpt(presignedUrl), content, contentType, Utf8.Length(content), Timeout())]
    {
      var url := DisplayOpt(presignedUrl);
      if !parsesAsUrl(url) {
        return Failure(InvalidUrl), [];
      }
      sent := [PutRequest(url, content, contentType, Utf8.Length(content), Timeout())];
      r := ClassifyPut(reply);
    }

    /** What both uploads do once they hold the content
        (chat-log-uploader.js:38-70 and 84-113): ask for a grant for
        `fileName`, read its `firstKey` member (the first read of the grant,
        which throws when the grant is `null`), PUT the content to its
        `presignedUrl`, and build the result. Every failure message follows
        `prefix`. */
    method Transfer(content: string, fileName: string, metadata: Option<Value>, prefix: string, firstKey: string,
                    parsesAsUrl: string -> bool, grant: GrantReply, put: PutReply)
      returns (r: Result<UploadOutcome, string>, sent: seq<Request>)
      ensures |sent| <= 2
      ensures |sent| >= 1 <==> parsesAsUrl(functionUrl)
      ensures |sent| >= 1 ==> sent[0] == GrantRequest(functionUrl, GrantParams(fileName), Timeout())
      ensures !parsesAsUrl(functionUrl) ==> r == Failure(prefix + InvalidUrl)
      ensures parsesAsUrl(functionUrl) && ClassifyGrant(grant).Failure? ==>
        |sent| == 1 && r == Failure(prefix + ClassifyGrant(grant).error)
      ensures parsesAsUrl(functionUrl) && ClassifyGrant(grant) == Success(Null) ==>
        |sent| == 1 && r == Failure(prefix + NullRead(firstKey))
      ensures parsesAsUrl(functionUrl) && Usable(grant) && !parsesAsUrl(PutTarget(ClassifyGrant(grant).value)) ==>
        |sent| == 1 && r == Failure(prefix + InvalidUrl)
      ensures |sent| == 2 <==> parsesAsUrl(functionUrl) && Usable(grant) && parsesAsUrl(PutTarget(ClassifyGrant(grant).value))
      ensures |sent| == 2 ==>
        && sent[1] == PutRequest(PutTarget(ClassifyGrant(grant).value), content, JsonType, Utf8.Length(content), Timeout())
        && r == match ClassifyPut(put)
                case Success(_) => Success(Outcome(ClassifyGrant(grant).value, fileName, content, metadata))
                case Failure(e) => Failure(prefix + e)
      ensures r.Failure? ==> StartsWith(r.error, prefix)
      ensures r.Success? ==> |sent| == 2
    {
      var granted;
      granted, sent := GetPresignedUrl(GrantParams(fileName), parsesAsUrl, grant);
      if granted.Failure? {
        return Failure(prefix + granted.error), sent;
      }
      var presigned := granted.value;
      var first := ReadProp(presigned, firstKey);
      if first.Threw? {
        return Failure(prefix + first.message), sent;
      }
      var stored, putSent := UploadToS3(Prop(presigned, "presignedUrl"), content, JsonType, parsesAsUrl, put);
      sent := sent + putSent;
      if stored.Failure? {
        return Failure(prefix + stored.error), sent;
      }
      r := Success(UploadOutcome(true, Prop(presigned, "s3Key"), fileName, Prop(presigned, "timestamp"),
                                 Utf8.Length(content), metadata.GetOr(EmptyObj)));
    }

    /** `uploadChatLog(filePath, metadata)` (chat-log-uploader.js:28-71):
        validate, read, then transfer under the file's base name, reading the
        grant's `s3Key` first. `read` is what `fs.readFile` gave; None for
        `metadata` is the omitted argument. */
    method UploadChatLog(filePath: string, metadata: Option<Value>, stat: StatResult, read: Result<string, string>,
                         parsesAsUrl: string -> bool, grant: GrantReply, put: PutReply)
      returns (r: Result<UploadOutcome, string>, sent: seq<Request>)
      // nothing goes on the wire before the file is validated and read
      ensures ValidateFile(filePath, stat).Rejected? ==>
        sent == [] && r == Failure(UploadPrefix + ValidateFile(filePath, stat).message)
      ensures ValidateFile(filePath, stat).Passed? && read.Failure? ==>
        sent == [] && r == Failure(UploadPrefix + read.error)
      ensures |sent| <= 2
      ensures |sent| >= 1 <==> ValidateFile(filePath, stat).Passed? && read.Success? && parsesAsUrl(functionUrl)
      // the first request is the grant for the file's base name
      ensures |sent| >= 1 ==> sent[0] == GrantRequest(functionUrl, GrantParams(Basename(filePath)), Timeout())
      ensures ValidateFile(filePath, stat).Passed? && read.Success? ==>
        && (!parsesAsUrl(functionUrl) ==> r == Failure(UploadPrefix + InvalidUrl))
        && (parsesAsUrl(functionUrl) && ClassifyGrant(grant).Failure? ==>
              |sent| == 1 && r == Failure(UploadPrefix + ClassifyGrant(grant).error))
        && (parsesAsUrl(functionUrl) && ClassifyGrant(grant) == Success(Null) ==>
              |sent| == 1 && r == Failure(UploadPrefix + NullRead("s3Key")))
        && (parsesAsUrl(functionUrl) && Usable(grant) && !parsesAsUrl(PutTarget(ClassifyGrant(grant).value)) ==>
              |sent| == 1 && r == Failure(UploadPrefix + InvalidUrl))
      // the PUT follows only a usable grant, and targets its presignedUrl
      ensures |sent| == 2 <==>
        && ValidateFile(filePath, stat).Passed? && read.Success? && parsesAsUrl(functionUrl)
        && Usable(grant) && parsesAsUrl(PutTarget(ClassifyGrant(grant).value))
      ensures |sent| == 2 ==>
        && sent[1] == PutRequest(PutTarget(ClassifyGrant(grant).value), read.value, JsonType, Utf8.Length(read.value), Timeout())
        && r == match ClassifyPut(put)
                case Success(_) => Success(Outcome(ClassifyGrant(grant).value, Basename(filePath), read.value, metadata))
                case Failure(e) => Failure(UploadPrefix + e)
      ensures r.Failure? ==> StartsWith(r.error, UploadPrefix)
      ensures r.Success? ==> |sent| == 2
    {
      var check := ValidateFile(filePath, stat);
      if check.Rejected? {
        return Failure(UploadPrefix + check.message), [];
      }
      if read.Failure? {
        return Failure(UploadPrefix + read.error), [];
      }
      r, sent := Transfer(read.value, Basename(filePath), metadata, UploadPrefix, "s3Key", parsesAsUrl, grant, put);
    }

    /** `uploadChatLogContent(content, fileName, metadata)`
        (chat-log-uploader.js:80-114): the transfer alone, reading the grant's
        `presignedUrl` first. */
    method UploadChatLogContent(content: string, fileName: string, metadata: Option<Value>,
                                parsesAsUrl: string -> bool, grant: GrantReply, put: PutReply)
      returns (r: Result<UploadOutcome, string>, sent: seq<Request>)
      ensures |sent| <= 2
      ensures |sent| >= 1 <==> parsesAsUrl(functionUrl)
      ensures |sent| >= 1 ==> sent[0] == GrantRequest(functionUrl, GrantParams(fileName), Timeout())
      ensures !parsesAsUrl(functionUrl) ==> r == Failure(ContentPrefix + InvalidUrl)
      ensures parsesAsUrl(functionUrl) && ClassifyGrant(grant).Failure? ==>
        |sent| == 1 && r == Failure(ContentPrefix + ClassifyGrant(grant).error)
      ensures parsesAsUrl(functionUrl) && ClassifyGrant(grant) == Success(Null) ==>
        |sent| == 1 && r == Failure(ContentPrefix + NullRead("presignedUrl"))
      ensures parsesAsUrl(functionUrl) && Usable(grant) && !parsesAsUrl(PutTarget(ClassifyGrant(grant).value)) ==>
        |sent| == 1 && r == Failure(ContentPrefix + InvalidUrl)
      ensures |sent| == 2 <==> parsesAsUrl(functionUrl) && Usable(grant) && parsesAsUrl(PutTarget(ClassifyGrant(grant).value))
      ensures |sent| == 2 ==>
        && sent[1] == PutRequest(PutTarget(ClassifyGrant(grant).value), content, JsonType, Utf8.Length(content), Timeout())
        && r == match ClassifyPut(put)
                case Success(_) => Success(Outcome(ClassifyGrant(grant).value, fileName, content, metadata))
                case Failure(e) => Failure(ContentPrefix + e)
      ensures r.Failure? ==> StartsWith(r.error, ContentPrefix)
      ensures r.Success? ==> |sent| == 2
    {
      r, sent := Transfer(content, fileName, metadata, ContentPrefix, "presignedUrl", parsesAsUrl, grant, put);
    }
  }
}
