/** Concrete runs of the model against stub replies, for the uploader and for
    validation. */
module Scenarios {
  import opened Wrappers
  import opened Text
  import opened Json
  import opened Uploader
  import opened Configuration

  /** A stub URL parser: anything starting with `https://` parses. */
  function StubParse(url: string): bool {
    StartsWith(url, "https://")
  }

  const StubGrant: Value := Obj(map[
    "s3Key" := Str("chat-logs/t.json"),
    "presignedUrl" := Str("https://stub/put"),
    "timestamp" := Str("T")])

  /** Uploading `{}` as `t.json` reports two bytes, the grant's key and
      timestamp and the default `{}` metadata, after a grant and one PUT to the
      granted URL. */
  method StubContentUpload() returns (r: Result<UploadOutcome, string>, sent: seq<Request>)
    ensures r == Success(UploadOutcome(true, Some(Str("chat-logs/t.json")), "t.json", Some(Str("T")), 2, EmptyObj))
    ensures |sent| == 2 && sent[0].GrantRequest? && sent[1].PutRequest? && sent[1].url == "https://stub/put"
  {
    var uploader := new ChatLogUploader("https://stub/grant", None);
    StubGrantUsable();
    StubOutcome();
    r, sent := uploader.UploadChatLogContent("{}", "t.json", None, StubParse,
                                             GrantResponse(200, Parsed(StubGrant)), PutResponse(200, map[], ""));
  }

  /** The stub grant is accepted, and both stub URLs parse. */
  lemma StubGrantUsable()
    ensures ClassifyGrant(GrantResponse(200, Parsed(StubGrant))) == Success(StubGrant)
    ensures Usable(GrantResponse(200, Parsed(StubGrant)))
    ensures PutTarget(StubGrant) == "https://stub/put"
    ensures StubParse("https://stub/grant") && StubParse("https://stub/put")
    ensures ClassifyPut(PutResponse(200, map[], "")).Success?
  {
    assert Prop(StubGrant, "presignedUrl") == Some(Str("https://stub/put"));
  }

  /** The result of uploading `{}` under the stub grant. */
  lemma StubOutcome()
    ensures Outcome(StubGrant, "t.json", "{}", None)
         == UploadOutcome(true, Some(Str("chat-logs/t.json")), "t.json", Some(Str("T")), 2, EmptyObj)
  {
    assert Prop(StubGrant, "s3Key") == Some(Str("chat-logs/t.json"));
    assert Prop(StubGrant, "timestamp") == Some(Str("T"));
    Utf8.LengthBounds("{}");
  }

  /** A refused grant is reported with the service's error, and nothing is PUT. */
  method StubGrantRefused() returns (r: Result<UploadOutcome, string>, sent: seq<Request>)
    ensures r == Failure(ContentPrefix + "Lambda function error: denied")
    ensures |sent| == 1 && sent[0].GrantRequest?
  {
    var uploader := new ChatLogUploader("https://stub/grant", None);
    r, sent := uploader.UploadChatLogContent("{}", "t.json", None, StubParse,
                                             GrantResponse(403, Parsed(Obj(map["error" := Str("denied")]))),
                                             PutResponse(200, map[], ""));
    assert "Lambda function error: " + "denied" == "Lambda function error: denied";
  }

  /** An empty file is refused before any request. */
  method StubEmptyFile() returns (r: Result<UploadOutcome, string>, sent: seq<Request>)
    ensures r == Failure(UploadPrefix + "File is empty: logs/a.json")
    ensures sent == []
  {
    var uploader := new ChatLogUploader("https://stub/grant", None);
    r, sent := uploader.UploadChatLog("logs/a.json", None, Stats(true, 0), Success(""), StubParse,
                                      GrantResponse(200, Parsed(StubGrant)), PutResponse(200, map[], ""));
    assert "File is empty: " + "logs/a.json" == "File is empty: logs/a.json";
  }

  /** An `http://` URL with a region: nothing is missing, but the scheme is wrong. */
  lemma PlainHttpOnly(config: map<string, Value>)
    requires FunctionUrl(config) == Some(Str("http://x"))
    requires Region(config).Some? && Region(config).value.Str? && Region(config).value.chars != ""
    ensures |MissingAmong(config, Required)| == 0
    ensures !IsHttps(FunctionUrl(config))
  {
    RequiredPresent(config);
    assert !StartsWith("http://x", "https://") by {
      assert "http://x"[4] != "https://"[4];
    }
  }

  /** With an `http://` function URL, validation names the scheme. */
  method PlainHttpRejected() returns (r: Result<bool, string>)
    ensures r == Failure(HttpsMessage)
  {
    var env := map["LAMBDA_FUNCTION_URL" := "http://x"];
    var config := new Config("dev", env);
    LoadedRequired(env, "dev");
    PlainHttpOnly(config.config);
    r := config.Validate();
  }

  /** With an empty function URL and a region, only the URL path is missing. */
  lemma OnlyUrlMissing(config: map<string, Value>)
    requires FunctionUrl(config) == Some(Str(""))
    requires Region(config).Some? && Region(config).value.Str? && Region(config).value.chars != ""
    ensures MissingAmong(config, Required) == ["lambda.functionUrl"]
  {
    assert Required[..1] == [UrlKeys] && Required[1] == RegionKeys;
    assert [UrlKeys][..0] == [];
    assert MissingAmong(config, [UrlKeys]) == [PathOf(UrlKeys)];
    assert MissingAmong(config, Required) == [PathOf(UrlKeys)];
    assert PathOf(UrlKeys) == "lambda" + "." + Join(["functionUrl"], ".");
    assert "lambda" + "." + "functionUrl" == "lambda.functionUrl";
  }

  /** With no function URL at all, validation names `lambda.functionUrl`. */
  method MissingUrlRejected() returns (r: Result<bool, string>)
    ensures r == Failure(MissingMessagePrefix + "lambda.functionUrl")
  {
    var env: Env := map[];
    var config := new Config("prod", env);
    LoadedRequired(env, "prod");
    OnlyUrlMissing(config.config);
    r := config.Validate();
  }
}
