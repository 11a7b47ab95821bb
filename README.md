# Chat-log client of Media Viewer v209: configuration and uploader

This project models the two classes of the AWS S3 chat-log client
(`infrastructure/aws/s3-chat-logs/phase1/client/`) and proves properties about them.

- **`Config`** (`config.js`) builds a layered settings tree:
  - a defaults tree computed from the process environment;
  - the `dev`, `staging` or `prod` override block merged over the defaults by `mergeDeep`;
  - optionally a parsed configuration file merged over that.

  The tree is then read and written by dotted path (`get`, `set`), checked by `validate`, and exported with or without the Lambda function URL. `detectEnvironment` picks the label.
- **`ChatLogUploader`** (`chat-log-uploader.js`) uploads a chat log in two phases:
  1. it validates the file (`validateFile`);
  2. it asks the Lambda function URL for a presigned grant (`getPresignedUrl`);
  3. it PUTs the content to the grant's `presignedUrl` (`uploadToS3`);
  4. it reports the S3 key, the timestamp and the UTF-8 byte size.

Module layout:

| file | module | what it holds |
|---|---|---|
| `wrappers.dfy` | `Wrappers` | `Option`, `Result` |
| `text.dfy` | `Text` | prefixes, substrings, `join`, decimal rendering |
| `json.dfy` | `Json` | the values the tree and the replies are made of, with JavaScript truthiness, `typeof`, spread / `for...in` enumeration, property reads and template-literal rendering |
| `paths.dfy` | `Paths` | `split('.')` and `join('.')` |
| `utf8.dfy` | `Utf8` | `Buffer.byteLength(s, 'utf8')` with the encoding it counts |
| `tree.dfy` | `Tree` | the reading and the writing walk of `get` / `set` as functions |
| `merge.dfy` | `DeepMerge` | `mergeDeep` |
| `config.dfy` | `Configuration` | the defaults, the overrides, `detectEnvironment`, validation, redaction and the `Config` class |
| `uploader.dfy` | `PosixPath` | `path.basename` |
| `uploader.dfy` | `Uploader` | `validateFile`, the reply handlers and the `ChatLogUploader` class |
| `scenarios.dfy` | `Scenarios` | concrete runs against stub replies |

Inputs the source takes from outside are parameters of the model:
- The process environment is a `map<string, string>`.
- `fs.stat`, `fs.readFile` and the parsed configuration file are given results.
- `saveToFile`'s write failure is an optional message.
- `new URL(...)` is a caller-supplied predicate saying whether a string parses.
- Each HTTPS exchange is an abstract reply: a transport error, a timeout, or a complete response with its status and its body. For the grant, the body is what `JSON.parse` made of it.

An upload returns the requests it put on the wire, so the contracts can say which request goes out, and when.

## Model

| member | source | states |
|---|---|---|
| Paths.Split | infrastructure/aws/s3-chat-logs/phase1/client/config.js:150 | `split('.')` never gives an empty array |
| Paths.SplitDotFree | infrastructure/aws/s3-chat-logs/phase1/client/config.js:150 | no segment of a split path contains a dot |
| Paths.JoinSplit | infrastructure/aws/s3-chat-logs/phase1/client/config.js:150 | joining the segments with dots gives back the path |
| Paths.SplitJoin | infrastructure/aws/s3-chat-logs/phase1/client/config.js:189-197 | a dotted path built from dot-free keys splits back into exactly those keys (the required paths of `validate` read the keys they name) |
| Json.ArrayIndex | infrastructure/aws/s3-chat-logs/phase1/client/config.js:154 | a key names an array element only when it is the canonical decimal rendering of that index |
| Json.IndexMap | infrastructure/aws/s3-chat-logs/phase1/client/config.js:130-132 | an array or string enumerates exactly its canonical index keys below its length, each mapped to its element |
| Json.Spread | infrastructure/aws/s3-chat-logs/phase1/client/config.js:130-132 | `{...v}` / `for...in` visit an object's own fields; a string visits only string values; numbers, booleans and null visit nothing |
| Json.SpreadString | infrastructure/aws/s3-chat-logs/phase1/client/config.js:130-132 | a string spreads to exactly its index keys below its length, each holding that one character as a string |
| Json.SpreadArray | infrastructure/aws/s3-chat-logs/phase1/client/config.js:130-132 | an array spreads to exactly its index keys below its length, each holding its element |
| Json.FalsyValues | infrastructure/aws/s3-chat-logs/phase1/client/config.js:133 | the falsy values are exactly `null`, `false`, `0` and `""` |
| Json.Display | infrastructure/aws/s3-chat-logs/phase1/client/chat-log-uploader.js:177 | `${v}` of a string is the string, of a number its decimal rendering, and only a string or an array can render empty |
| Json.ReadProp | infrastructure/aws/s3-chat-logs/phase1/client/chat-log-uploader.js:47 | reading a member throws exactly when the value is `null`, with Node's message; a value is read exactly when it is the object's own field, and then it is that field |
| Json.DisplayOpt | infrastructure/aws/s3-chat-logs/phase1/client/chat-log-uploader.js:177 | `${undefined}` is "undefined"; a string renders as itself |
| Utf8.Length | infrastructure/aws/s3-chat-logs/phase1/client/chat-log-uploader.js:63 | the byte count is between one and four bytes per character |
| Utf8.CharLength | infrastructure/aws/s3-chat-logs/phase1/client/chat-log-uploader.js:63 | one scalar value takes between one and four bytes |
| Utf8.EncodeChar | infrastructure/aws/s3-chat-logs/phase1/client/chat-log-uploader.js:216 | the encoding of one scalar value is as long as its byte count |
| Utf8.EncodeLength | infrastructure/aws/s3-chat-logs/phase1/client/chat-log-uploader.js:63 | the reported `fileSize` is the length of the UTF-8 encoding of the content |
| Utf8.DecodeFirst | infrastructure/aws/s3-chat-logs/phase1/client/chat-log-uploader.js:63 | a decoded scalar value occupies exactly its byte count, so no overlong form is accepted |
| Utf8.OverlongRejected | infrastructure/aws/s3-chat-logs/phase1/client/chat-log-uploader.js:63 | the overlong two-, three- and four-byte forms of U+0000 are refused |
| Utf8.DecodedLength | infrastructure/aws/s3-chat-logs/phase1/client/chat-log-uploader.js:63 | every well-formed byte sequence is as long as the count of the text it decodes to |
| Utf8.DecodeEncode | infrastructure/aws/s3-chat-logs/phase1/client/chat-log-uploader.js:216 | the counted encoding decodes back to the content, so nothing is lost |
| Utf8.LengthAppend | infrastructure/aws/s3-chat-logs/phase1/client/chat-log-uploader.js:106 | the byte count of a concatenation is the sum of the counts |
| Utf8.LengthBounds | infrastructure/aws/s3-chat-logs/phase1/client/chat-log-uploader.js:106 | the count is between one and four bytes per character, and exactly one per character for ASCII |
| Tree.Lookup | infrastructure/aws/s3-chat-logs/phase1/client/config.js:153-161 | the empty path reads the root itself; a non-empty path reads something only from an object or an array |
| Tree.Child | infrastructure/aws/s3-chat-logs/phase1/client/config.js:154-155 | a read step succeeds only on an object or an array |
| Tree.StepInto | infrastructure/aws/s3-chat-logs/phase1/client/config.js:175-178 | the write walk continues exactly from an object or an existing array index, and always lands on an object-typed node |
| Tree.PutChild | infrastructure/aws/s3-chat-logs/phase1/client/config.js:176 | after the assignment the key reads the new child; an object gains at most that key; an array keeps its length |
| Tree.Assign | infrastructure/aws/s3-chat-logs/phase1/client/config.js:181 | the final assignment succeeds exactly on an object or an existing array index |
| Tree.SetIn | infrastructure/aws/s3-chat-logs/phase1/client/config.js:169-182 | a successful write keeps the root an object (or an array of the same length) |
| Tree.LookupPrefixNone | infrastructure/aws/s3-chat-logs/phase1/client/config.js:153-158 | once the read walk finds nothing, every longer path finds nothing |
| Tree.LookupAfterSet | infrastructure/aws/s3-chat-logs/phase1/client/config.js:169-182 | reading below a written path reads inside the written value |
| Tree.SetSucceeds | infrastructure/aws/s3-chat-logs/phase1/client/config.js:169-182 | a write into an object succeeds when its walk meets no `null` and no array before the last segment |
| Tree.SetFreshSucceeds | infrastructure/aws/s3-chat-logs/phase1/client/config.js:169-182 | a write under a key the object does not have yet always succeeds |
| Tree.GetAfterSet | infrastructure/aws/s3-chat-logs/phase1/client/config.js:149-182 | `set(p, v)` then `get(p)` gives `v` |
| Tree.ChildFrame | infrastructure/aws/s3-chat-logs/phase1/client/config.js:176 | an assignment leaves the node's other children as they were |
| Tree.SetFrame | infrastructure/aws/s3-chat-logs/phase1/client/config.js:169-182 | a write changes nothing reached by a path that branches off before the written path ends |
| Tree.SetThroughNull | infrastructure/aws/s3-chat-logs/phase1/client/config.js:175 | a write whose walk meets an existing `null` before the last segment throws |
| Tree.SetCreatesIntermediates | infrastructure/aws/s3-chat-logs/phase1/client/config.js:175-177 | where no object-typed node existed, the write leaves an object holding only the next segment |
| DeepMerge.BaseFor | infrastructure/aws/s3-chat-logs/phase1/client/config.js:134 | the base of a recursive merge (`result[key] \|\| {}`) is always truthy |
| DeepMerge.Merged | infrastructure/aws/s3-chat-logs/phase1/client/config.js:129-141 | the merged keys are the target's keys plus the source's keys |
| DeepMerge.MergedEntries | infrastructure/aws/s3-chat-logs/phase1/client/config.js:133-137 | a target key the source lacks keeps its value; a non-object source value replaces the target's wholesale |
| DeepMerge.MergeDeep | infrastructure/aws/s3-chat-logs/phase1/client/config.js:129-141 | the loop over the source keys, recursing into object values, computes the merge |
| DeepMerge.MergeKeys | infrastructure/aws/s3-chat-logs/phase1/client/config.js:130-140 | starting from the spread target and assigning each source key in turn, the loop ends holding exactly the merge |
| DeepMerge.SourceLeafWins | infrastructure/aws/s3-chat-logs/phase1/client/config.js:133-137 | a non-object value the source holds at a path of objects is the merged value there |
| DeepMerge.TargetKeptWhereUntouched | infrastructure/aws/s3-chat-logs/phase1/client/config.js:130-137 | a target node the source says nothing about keeps its value |
| DeepMerge.TargetPathsSurvive | infrastructure/aws/s3-chat-logs/phase1/client/config.js:130-137 | if the source never puts a non-object where the target has an object, no target path is lost |
| DeepMerge.MergeEmptySource | infrastructure/aws/s3-chat-logs/phase1/client/config.js:120 | merging `{}` copies the target |
| DeepMerge.MergeIdempotent | infrastructure/aws/s3-chat-logs/phase1/client/config.js:253 | merging the same source a second time changes nothing, for an object, array, string or scalar source alike |
| Configuration.EnvOr | infrastructure/aws/s3-chat-logs/phase1/client/config.js:23 | `process.env.X \|\| fallback`: the variable when it is set and non-empty, otherwise the fallback |
| Configuration.TrimStart | infrastructure/aws/s3-chat-logs/phase1/client/config.js:34 | `parseInt` skips exactly the leading white space: the result is a suffix of the input, everything before it is white space, and it does not start with white space |
| Configuration.DigitRun | infrastructure/aws/s3-chat-logs/phase1/client/config.js:34 | `parseInt` reads the longest run of digits of its radix |
| Configuration.ParseInt | infrastructure/aws/s3-chat-logs/phase1/client/config.js:34-53 | `parseInt` of blank text is NaN, and a negative result needs a leading minus sign |
| Configuration.ParseIntShow | infrastructure/aws/s3-chat-logs/phase1/client/config.js:34-53 | `parseInt` of a rendered natural number gives back that number |
| Configuration.ParseIntNaN | infrastructure/aws/s3-chat-logs/phase1/client/config.js:34-53 | text that starts with neither white space, a sign nor a digit is NaN |
| Configuration.UndefinedIsNaN | infrastructure/aws/s3-chat-logs/phase1/client/config.js:34-53 | an unset variable is `parseInt(undefined)`, which is NaN, so its setting falls back |
| Configuration.IntOr | infrastructure/aws/s3-chat-logs/phase1/client/config.js:34-53 | a setting is its fallback or the variable's parsed value; a parsed non-zero value wins, and the setting is never zero unless the fallback is |
| Configuration.IntOrReadsVariable | infrastructure/aws/s3-chat-logs/phase1/client/config.js:34-53 | a variable holding a positive decimal number sets that number |
| Configuration.Defaults | infrastructure/aws/s3-chat-logs/phase1/client/config.js:20-70 | the defaults are an object |
| Configuration.DefaultsSections | infrastructure/aws/s3-chat-logs/phase1/client/config.js:20-70 | the defaults have exactly the six sections aws, lambda, upload, client, logging and development |
| Configuration.DefaultAws | infrastructure/aws/s3-chat-logs/phase1/client/config.js:22-29 | the aws section holds the region and a flat s3 block |
| Configuration.DefaultLambda | infrastructure/aws/s3-chat-logs/phase1/client/config.js:32-37 | the lambda section holds leaves only |
| Configuration.DefaultUpload | infrastructure/aws/s3-chat-logs/phase1/client/config.js:40-46 | the upload section holds leaves only |
| Configuration.DefaultClient | infrastructure/aws/s3-chat-logs/phase1/client/config.js:49-54 | the client section holds leaves only |
| Configuration.DefaultLogging | infrastructure/aws/s3-chat-logs/phase1/client/config.js:57-62 | the logging section holds leaves only |
| Configuration.DefaultDevelopment | infrastructure/aws/s3-chat-logs/phase1/client/config.js:65-69 | the development section holds leaves only |
| Configuration.Overrides | infrastructure/aws/s3-chat-logs/phase1/client/config.js:83-121 | the override block is an object, and `{}` for any label other than dev, staging and prod |
| Configuration.OverridesSections | infrastructure/aws/s3-chat-logs/phase1/client/config.js:83-121 | every override block names only the aws, logging and development sections |
| Configuration.Loaded | infrastructure/aws/s3-chat-logs/phase1/client/config.js:72-76 | the loaded tree has exactly the sections of the defaults, whatever the label |
| Configuration.LoadedUnknownLabel | infrastructure/aws/s3-chat-logs/phase1/client/config.js:72-76 | an unknown label loads the defaults unchanged |
| Configuration.OverridesCompatible | infrastructure/aws/s3-chat-logs/phase1/client/config.js:83-121 | no override block puts a non-object where the defaults have an object |
| Configuration.SectionsCompatible | infrastructure/aws/s3-chat-logs/phase1/client/config.js:84-117 | a block of objects under aws (the region block), logging and development fits the defaults |
| Configuration.LoadedKeepsDefaultPaths | infrastructure/aws/s3-chat-logs/phase1/client/config.js:72-76 | whatever the label, every path of the defaults is present in the loaded tree |
| Configuration.LoadedOverrideWins | infrastructure/aws/s3-chat-logs/phase1/client/config.js:72-76 | a leaf of the label's override block is the loaded value |
| Configuration.LoadedKeepsUnmentioned | infrastructure/aws/s3-chat-logs/phase1/client/config.js:72-76 | a default the block does not mention keeps its value |
| Configuration.ProdLogging | infrastructure/aws/s3-chat-logs/phase1/client/config.js:107-111 | in production the log level is `warn` and the console is off, whatever the environment says |
| Configuration.KeyPrefixDefault | infrastructure/aws/s3-chat-logs/phase1/client/config.js:26 | under every label the S3 key prefix is `chat-logs/` |
| Configuration.DefaultKeyPrefix | infrastructure/aws/s3-chat-logs/phase1/client/config.js:24-27 | the defaults hold `chat-logs/` at `aws.s3.keyPrefix` |
| Configuration.OverridesLeaveS3 | infrastructure/aws/s3-chat-logs/phase1/client/config.js:83-121 | no override block mentions `aws.s3.keyPrefix` |
| Configuration.DetectEnvironment | infrastructure/aws/s3-chat-logs/phase1/client/config.js:275-290 | the label is never empty: NODE_ENV when it is set, else ENVIRONMENT, else one of prod, staging and dev |
| Configuration.DetectFromHostname | infrastructure/aws/s3-chat-logs/phase1/client/config.js:285-289 | with neither variable set, the label is prod iff the hostname mentions prod; staging iff it mentions staging and not prod; dev iff neither |
| Configuration.DetectProdHost | infrastructure/aws/s3-chat-logs/phase1/client/config.js:286 | a hostname containing `prod` selects prod |
| Configuration.GetPath | infrastructure/aws/s3-chat-logs/phase1/client/config.js:149-162 | `get` returns the node the walk reaches, and the default only when the walk stops |
| Configuration.GetMissingPrefix | infrastructure/aws/s3-chat-logs/phase1/client/config.js:153-158 | a path with a missing node part-way returns the default |
| Configuration.MissingAmong | infrastructure/aws/s3-chat-logs/phase1/client/config.js:194-200 | every required path that reads falsy is listed, and at most one entry per required path; the list is empty exactly when all read truthy |
| Configuration.MissingSound | infrastructure/aws/s3-chat-logs/phase1/client/config.js:194-200 | only falsy required paths are listed: each listed path names a required entry that reads falsy |
| Configuration.MissingRequiredForm | infrastructure/aws/s3-chat-logs/phase1/client/config.js:189-200 | the reported list is `lambda.functionUrl` if the URL is falsy, followed by `aws.region` if the region is falsy, and nothing else |
| Configuration.RequiredPresent | infrastructure/aws/s3-chat-logs/phase1/client/config.js:189-202 | nothing is missing exactly when both the function URL and the region are truthy |
| Configuration.GetKeys | infrastructure/aws/s3-chat-logs/phase1/client/config.js:197 | reading a fixed key sequence by its dotted path reads exactly those keys |
| Configuration.ValidConfig | infrastructure/aws/s3-chat-logs/phase1/client/config.js:196-210 | a valid tree is missing nothing, and its URL is a string of at least the eight characters of `https://` |
| Configuration.HasSecretUrl | infrastructure/aws/s3-chat-logs/phase1/client/config.js:237 | the export's test `lambda && lambda.functionUrl` holds exactly when `get('lambda.functionUrl')` is truthy |
| Configuration.Redacted | infrastructure/aws/s3-chat-logs/phase1/client/config.js:237-238 | redaction keeps the tree's top-level keys |
| Configuration.RedactedIsSet | infrastructure/aws/s3-chat-logs/phase1/client/config.js:237-238 | redaction is the write of the marker at `lambda.functionUrl` |
| Configuration.RedactionHidesUrl | infrastructure/aws/s3-chat-logs/phase1/client/config.js:235-239 | after redaction the URL is the marker or was never a secret; every path branching off it is unchanged |
| Configuration.RedactedIdempotent | infrastructure/aws/s3-chat-logs/phase1/client/config.js:235-239 | redacting twice is redacting once |
| Configuration.LoadedRequired | infrastructure/aws/s3-chat-logs/phase1/client/config.js:23-33 | a loaded URL is LAMBDA_FUNCTION_URL or ""; a loaded region is always a non-empty string |
| Configuration.DefaultUrl | infrastructure/aws/s3-chat-logs/phase1/client/config.js:33 | the default function URL is LAMBDA_FUNCTION_URL or "" |
| Configuration.DefaultRegion | infrastructure/aws/s3-chat-logs/phase1/client/config.js:23 | the default region is AWS_REGION or `ap-northeast-1` |
| Configuration.OverridesLeaveLambda | infrastructure/aws/s3-chat-logs/phase1/client/config.js:83-121 | no override block mentions the function URL |
| Configuration.OverrideRegion | infrastructure/aws/s3-chat-logs/phase1/client/config.js:94-106 | staging and prod pin the region to `ap-northeast-1` |
| Configuration.LoadedValid | infrastructure/aws/s3-chat-logs/phase1/client/config.js:188-210 | a freshly loaded configuration validates iff LAMBDA_FUNCTION_URL starts with `https://` |
| Configuration.ExportBreaksValidation | infrastructure/aws/s3-chat-logs/phase1/client/config.js:232-243 | after `export(false)` redacts the live tree, no valid configuration validates any more |
| Configuration.SetThenGet | infrastructure/aws/s3-chat-logs/phase1/client/config.js:149-182 | a write whose walk meets no `null` and no array succeeds, and `get` of the same path then returns the value |
| Configuration.Descend | infrastructure/aws/s3-chat-logs/phase1/client/config.js:173-179 | the walk down all but the last segment either throws the error of the whole write or records the nodes the write passes |
| Configuration.Rebuild | infrastructure/aws/s3-chat-logs/phase1/client/config.js:173-181 | rebuilding the recorded nodes around the new leaf is the result of the whole write |
| Configuration.Config.constructor | infrastructure/aws/s3-chat-logs/phase1/client/config.js:10-13 | a new configuration holds its label and the defaults merged with the label's overrides |
| Configuration.Config.Get | infrastructure/aws/s3-chat-logs/phase1/client/config.js:149-162 | `get` returns the node at the dotted path, or the default when the walk stops |
| Configuration.Config.Set | infrastructure/aws/s3-chat-logs/phase1/client/config.js:169-182 | `set` leaves the written tree, or throws and changes nothing |
| Configuration.Config.Validate | infrastructure/aws/s3-chat-logs/phase1/client/config.js:188-217 | lists the missing paths in order; a non-https URL fails (with a TypeError for a non-string); fails exactly when the tree is not valid; on success reports whether the 5 GiB warning applies |
| Configuration.Config.MissingRequired | infrastructure/aws/s3-chat-logs/phase1/client/config.js:194-200 | the loop collects `lambda.functionUrl` if the URL is falsy, then `aws.region` if the region is falsy, and nothing else |
| Configuration.Config.GetAll | infrastructure/aws/s3-chat-logs/phase1/client/config.js:223-225 | the copy holds the whole tree |
| Configuration.Config.Export | infrastructure/aws/s3-chat-logs/phase1/client/config.js:232-243 | without secrets the live tree is redacted too, and the export is the tree |
| Configuration.Config.ExportCopy | infrastructure/aws/s3-chat-logs/phase1/client/config.js:232-243 | the export is the redacted tree, and the live tree is untouched |
| Configuration.Config.LoadFromFile | infrastructure/aws/s3-chat-logs/phase1/client/config.js:249-257 | a parsed file is merged over the tree; a failed read only warns and changes nothing |
| Configuration.Config.SaveToFile | infrastructure/aws/s3-chat-logs/phase1/client/config.js:264-271 | writes the export the corrected `ExportCopy` makes, leaving the live tree as it was, and reports a write failure with its path prefixed |
| PosixPath.StripTrailingSlashes | infrastructure/aws/s3-chat-logs/phase1/client/chat-log-uploader.js:37 | the result is the path with exactly its trailing slashes removed: a prefix, not ending in a slash, followed only by slashes |
| PosixPath.AfterLastSlash | infrastructure/aws/s3-chat-logs/phase1/client/chat-log-uploader.js:37 | the result is the slash-free suffix that reaches back to the last slash |
| PosixPath.Basename | infrastructure/aws/s3-chat-logs/phase1/client/chat-log-uploader.js:37 | a base name holds no slash |
| PosixPath.BasenameOfJoin | infrastructure/aws/s3-chat-logs/phase1/client/chat-log-uploader.js:37 | the base name of `dir/name`, or of `name` alone, is `name` |
| PosixPath.BasenameTrailingSlash | infrastructure/aws/s3-chat-logs/phase1/client/chat-log-uploader.js:37 | a trailing slash does not change the base name: `name/` and `dir/name/` give `name` |
| PosixPath.AfterLastSlashOf | infrastructure/aws/s3-chat-logs/phase1/client/chat-log-uploader.js:37 | after a slash, a slash-free name is all that follows the last slash |
| Uploader.ValidateFile | infrastructure/aws/s3-chat-logs/phase1/client/chat-log-uploader.js:120-137 | passes iff the path is a non-empty file of at most 100 MiB; each rejection carries the source's message, ENOENT included |
| Uploader.SizeLimitBoundary | infrastructure/aws/s3-chat-logs/phase1/client/chat-log-uploader.js:129 | exactly 100 MiB passes, one byte more does not |
| Uploader.Prop | infrastructure/aws/s3-chat-logs/phase1/client/chat-log-uploader.js:51 | a member read on a non-null value cannot throw |
| Uploader.ClassifyGrant | infrastructure/aws/s3-chat-logs/phase1/client/chat-log-uploader.js:170-192 | the grant resolves iff the status is 200 and the body parsed; every failure has the source's message |
| Uploader.ClassifyPut | infrastructure/aws/s3-chat-logs/phase1/client/chat-log-uploader.js:229-249 | the PUT resolves iff the status is 200, capturing the headers and the etag; every failure has the source's message |
| Uploader.PutStatusInMessage | infrastructure/aws/s3-chat-logs/phase1/client/chat-log-uploader.js:230-237 | every status other than 200, other 2xx included, fails, and the message starts with that status |
| Uploader.GrantParsesBeforeStatus | infrastructure/aws/s3-chat-logs/phase1/client/chat-log-uploader.js:172-180 | an unparsable body is a parse failure even with status 200 |
| Uploader.GrantNullBody | infrastructure/aws/s3-chat-logs/phase1/client/chat-log-uploader.js:177-180 | an error reply whose body is `null` surfaces as a parse failure |
| Uploader.GrantParams | infrastructure/aws/s3-chat-logs/phase1/client/chat-log-uploader.js:40-45 | the grant request holds exactly `action: upload`, the file name, `contentType: application/json` and `expiresIn: 3600` |
| Uploader.Outcome | infrastructure/aws/s3-chat-logs/phase1/client/chat-log-uploader.js:58-65 | a result reports success, the grant's `s3Key` and `timestamp`, the file name, the content's UTF-8 byte count and the metadata (`{}` when omitted) |
| Uploader.MergedOptions | infrastructure/aws/s3-chat-logs/phase1/client/chat-log-uploader.js:14-19 | a caller's options win; the three defaults fill the rest |
| Uploader.OptionsExamples | infrastructure/aws/s3-chat-logs/phase1/client/chat-log-uploader.js:12-19 | with no options the defaults apply; a caller's timeout replaces only the timeout |
| Uploader.ChatLogUploader.constructor | infrastructure/aws/s3-chat-logs/phase1/client/chat-log-uploader.js:12-20 | holds the URL and the merged options |
| Uploader.ChatLogUploader.GetPresignedUrl | infrastructure/aws/s3-chat-logs/phase1/client/chat-log-uploader.js:145-197 | an unparsable function URL rejects before anything is sent; otherwise one grant request goes out with the timeout, and its reply decides |
| Uploader.ChatLogUploader.UploadToS3 | infrastructure/aws/s3-chat-logs/phase1/client/chat-log-uploader.js:206-254 | an unparsable URL rejects before anything is sent; otherwise one PUT with the content's byte length goes out and its reply decides |
| Uploader.ChatLogUploader.Transfer | infrastructure/aws/s3-chat-logs/phase1/client/chat-log-uploader.js:84-113 | the grant request comes first; the PUT follows only a usable grant and targets its `presignedUrl`; every failure message carries the prefix; a result comes only after both requests |
| Uploader.ChatLogUploader.UploadChatLog | infrastructure/aws/s3-chat-logs/phase1/client/chat-log-uploader.js:28-71 | nothing is sent before the file is validated and read; the grant is for the file's base name; a `null` grant fails on reading `s3Key`; every failure is prefixed "Upload failed: " |
| Uploader.ChatLogUploader.UploadChatLogContent | infrastructure/aws/s3-chat-logs/phase1/client/chat-log-uploader.js:80-114 | a grant then a PUT of the content; a `null` grant fails on reading `presignedUrl`; every failure is prefixed "Content upload failed: " |
| Scenarios.StubGrantUsable | infrastructure/aws/s3-chat-logs/phase1/client/chat-log-uploader.js:170-175 | the stub grant is accepted and names the stub PUT URL |
| Scenarios.StubOutcome | infrastructure/aws/s3-chat-logs/phase1/client/chat-log-uploader.js:101-108 | uploading `{}` as `t.json` reports the stub's key and timestamp, two bytes and `{}` metadata |
| Scenarios.StubContentUpload | infrastructure/aws/s3-chat-logs/phase1/client/chat-log-uploader.js:80-114 | the content upload against the stubs succeeds with that result, after a grant and one PUT to the stub URL |
| Scenarios.StubGrantRefused | infrastructure/aws/s3-chat-logs/phase1/client/chat-log-uploader.js:177 | a refused grant is reported with the service's error, and nothing is PUT |
| Scenarios.StubEmptyFile | infrastructure/aws/s3-chat-logs/phase1/client/chat-log-uploader.js:126-127 | an empty file is refused before any request |
| Scenarios.PlainHttpOnly | infrastructure/aws/s3-chat-logs/phase1/client/config.js:202-208 | an `http://` URL with a region is missing nothing but is not https |
| Scenarios.PlainHttpRejected | infrastructure/aws/s3-chat-logs/phase1/client/config.js:207-210 | validation of an `http://` URL fails with the HTTPS message |
| Scenarios.OnlyUrlMissing | infrastructure/aws/s3-chat-logs/phase1/client/config.js:196-200 | with an empty URL and a region, only `lambda.functionUrl` is missing |
| Scenarios.MissingUrlRejected | infrastructure/aws/s3-chat-logs/phase1/client/config.js:202-204 | with no URL set, validation names `lambda.functionUrl` |

The model follows the code:
- The grant's members are `s3Key`, `presignedUrl` and `timestamp`, as the code reads them (chat-log-uploader.js:47-62).
- The upload limit is the hardcoded 100 MiB of chat-log-uploader.js:129. The configured `upload.maxFileSize` is not consulted.
- The first member read from the grant differs between the two uploads: `s3Key` for a file (line 47) and `presignedUrl` for content (line 94). That read is where a `null` grant throws.

## Left out

- Input/output is not modelled. This covers `fs.stat`, `fs.readFile`, `fs.readFileSync` and `fs.writeFileSync`, and the HTTPS transport: chunk accumulation, `req.destroy`, and the request headers `Content-Type`, `Content-Length` of the grant body and `User-Agent`. Their outcomes are parameters.
- `new URL(...)` is a caller-supplied predicate; hostname, port and path extraction are not modelled.
- `JSON.parse` is an oracle carried in the grant reply. `JSON.stringify` and its pretty-printing are not modelled, so `export` returns the tree rather than its text.
- Console output is not modelled. That includes the progress logs, `validate`'s warning (reported as a flag instead) and `loadFromFile`'s warning (also a flag).
- The command-line blocks of both files, `runTest` with its clock-based sample data, and the module-level singleton `new Config(detectEnvironment())` are not modelled; they are I/O glue.
- `src/js/main.js` is not part of this model: it is the browser UI, with floating-point formatting.
- `detectEnvironment` reads `HOSTNAME` through the same environment map as the other variables, not from the operating system.
- The retry options and `maxConcurrentUploads` are stored and never used, so they stay inert values in the tree and in the options.
- Prototype-chain keys such as `toString`, `constructor` or `__proto__` are not modelled. A label or path naming one of them would reach `Object.prototype` in the source.
- The key order of objects is not modelled; maps are unordered.
- `undefined` as a stored value is not modelled: an absent key is `None`, and no tree value is `undefined`.
- Numbers are integers. There are no fractions, no NaN or Infinity values in the tree and no precision loss in `parseInt`; a `parseInt` result is the exact integer.
- Strings are sequences of Unicode scalar values. UTF-16 code units and lone surrogates, which `Buffer.byteLength` counts as three bytes, are not modelled.
- Tree.SetIn: a write of a named property on an array, or past its end, fails with `ArrayPropertyNotModelled`. The source would add a property to the array object or extend it with holes.
- Configuration.Config.Validate: the 5 GiB warning flag is computed only for a numeric `maxFileSize`. JavaScript's coercion of any non-number value in `>` (a numeric string, a one-element array such as `[6000000000]`) is not modelled, and the flag is false for it.
- Configuration.Config.constructor: the label has no default; a caller omitting it passes `dev` itself, since the value model has no omitted argument.
- Configuration.Config.GetAll: returns a value map, so the nested objects that `{ ...this.config }` shares with the live tree are not modelled. A caller writing into `getAll().lambda` would change the live tree, and later `set` or `export(false)` calls show through a result returned earlier.
- Configuration.Config.SaveToFile: uses the corrected `ExportCopy`, so the live tree is no longer redacted. The source's `saveToFile` calls `export(includeSecrets)` and so redacts the live `lambda` object, as `Config.Export` models.
- Configuration.Config.Set: the tree is a value, so `set` stores a copy of the value it is given. The source stores the caller's object by reference, so one subtree can sit at two paths: `set('copy', get('lambda'))` followed by `set('lambda.timeout', 5)` makes `get('copy.timeout')` 5 in the source and the old value in the model. Tree.SetFrame and Tree.ChildFrame hold of the value model; they presume no subtree is shared between paths.
- Configuration.Config.Get: returns the node as a value. The source returns the live object, so a caller changing what `get` returned changes the configuration; the model does not capture that aliasing.
- PosixPath.Basename: models POSIX `path.basename` only. Under Node on Windows `path` is the win32 variant, which also splits on `\`, so `C:\logs\a.json` gives `a.json` there while the model returns the whole string.
- Configuration.Config.Export: returns the redacted tree as a value in place of the JSON text.

## Findings

| source | as written | input that shows it | evidently intended | confidence | as-written member | corrected member |
|---|---|---|---|---|---|---|
| infrastructure/aws/s3-chat-logs/phase1/client/config.js:232-243 | `{ ...this.config }` copies only the top level, so `exportConfig.lambda.functionUrl = '[REDACTED]'` writes into the live `lambda` object | a configuration with `lambda.functionUrl = "https://x"`: after `export(false)`, `get('lambda.functionUrl')` is `[REDACTED]` and `validate()` throws "Lambda function URL must use HTTPS" | exporting without secrets leaves the live configuration untouched; `SaveToFile` uses this corrected export | not executed | Configuration.ExportBreaksValidation | Configuration.Config.ExportCopy |
