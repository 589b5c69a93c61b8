# Lease-contract checker: the analysis pipeline of server.js

The service takes an uploaded lease contract (PDF or image), has a generative
model read it, and returns a structured risk assessment. This project models
the decision logic of its `POST /api/analyze` pipeline and its health flag:

- **Upload admission** (`Upload`): `upload.single('contract')` with the
  disk storage, the 10 MiB `fileSize` limit and the media-type `fileFilter`.
  A refused part never reaches the route body. The model also gives the
  name under which an admitted file is stored.
- **Reply interpretation** (`ReplyParsing`): the greedy regular expression
  `/\{[\s\S]*\}/`, `JSON.parse` on what it matched, and the two fixed
  fallbacks. Each fallback keeps the reply's first 300 UTF-16 code units as
  its summary.
- **The route body** (`Server.AnalyzeRoute`, `Server.PostAnalyze`): an
  imperative method over a `FileStore` class. The store's `paths` field is
  the set of files in the upload directory. The method follows the route's
  `try`/`catch`, its early return and its `fs.unlinkSync` calls.
- **Health** (`Server.GeminiConfigured`): `!!GEMINI_API_KEY`.

JavaScript strings are sequences of UTF-16 code units (`JsText.JsString`),
so `substring(0, 300)` counts what JavaScript counts. The model's collaborators
enter as parameters:

- the Gemini call is a `Generation` value: `Generated(text)` or `Failed`;
- `JSON.parse` is a `Parser` function that returns `None` where the library
  throws;
- `Date.now()` and `Math.round(Math.random() * 1E9)` are natural numbers;
- the upload directory is a path.

Four behaviours of the code that the model keeps as written:

- The file filter allows four media types, `image/jpg` among them.
- A refused upload never reaches the route. The middleware's error goes to
  Express, which has no error handler here, so the model says only that the
  route body is not entered (`Refused(reason)`) and claims no reply body.
- Extraction runs from the first `{` to the last `}`, so two objects and the
  text between them are extracted together.
- The route returns whatever `JSON.parse` produced and checks no field.

## Model

| member | source | states |
|---|---|---|
| Upload.Admit | server.js:31-42 | A part is admitted exactly when it comes under the field `contract`, its media type is one of `application/pdf`, `image/jpeg`, `image/png`, `image/jpg`, and it is at most 10·1024·1024 bytes. A type rejection implies a disallowed type; a size rejection implies an allowed type and a size above the limit. |
| Upload.StoredName | server.js:25-28 | The stored name is longer than the original name plus one, and it ends with `"-" + originalname`. |
| Upload.StoredNameInjective | server.js:26-27 | The stored name determines the clock reading, the random number and the original name. Two uploads get the same name only when all three agree. |
| Upload.StoredPath | server.js:21-28 | The stored path is the upload directory, then `/`, then the stored name, and nothing else. |
| Upload.StoredPathInjective | server.js:21-28 | Within one directory, different stored names give different paths. |
| Upload.LeadingDigitsBeforeDash | server.js:26-27 | Rendered digits followed by `-` form exactly the leading digit run of the name. This is why the name can be split at its dashes. |
| Upload.SplitAtDash | server.js:26-27 | A digit string followed by `-` splits off unambiguously. |
| JsText.Decimal | server.js:26 | The decimal rendering of a number is a non-empty string of digits, without a leading zero, and it reads back as that number. |
| ReplyParsing.Substring | server.js:76 | `substring(start, end)` clamps both bounds to the string, swaps them when they are out of order, and returns the contiguous slice between them. |
| ReplyParsing.Summary | server.js:76-83 | A fallback summary is a prefix of the reply, exactly min(300, length) code units long. |
| ReplyParsing.IndexOf | server.js:74 | The first position of a code unit, or `None` exactly when it does not occur. |
| ReplyParsing.LastIndexOf | server.js:74 | The last position of a code unit, or `None` exactly when it does not occur. |
| ReplyParsing.ExtractBraces | server.js:74 | Extraction succeeds exactly when some `}` occurs after some `{`. A match is at least two units long, starts with `{` and ends with `}`. |
| ReplyParsing.ExtractBracesIsRegexMatch | server.js:74 | Extraction finds nothing exactly when `\{[\s\S]*\}` has no match. Otherwise it returns the match a JavaScript regex reports: the leftmost start, and the longest match from there, as the greedy `*` gives. |
| ReplyParsing.NoMatchFallback | server.js:75-80 | The "no match" object: its summary is a prefix of the reply, min(300, length) code units long; its level is `주의`; its one risk factor is `AI가 분석하지 못했습니다.` and its one recommendation is `전문가 자문을 구하세요.`. |
| ReplyParsing.ParseErrorFallback | server.js:81-87 | The "parse failed" object: the same truncated summary and level `주의`; its one risk factor is `분석 중 오류가 발생했습니다.` and its one recommendation is `다시 시도하거나 전문가에게 문의하세요.`. |
| ReplyParsing.ToJson | server.js:75-87 | An analysis becomes an object whose four members are `summary`, `safetyLevel`, `riskFactors` and `recommendations`, in that order. The two lists become arrays of strings. With `StringsInjective`, `ToJsonInjective` and `FallbackRepliesDiffer`, different analyses give different objects, so the two fallback objects the client receives differ. |
| ReplyParsing.StringsInjective | server.js:78-86 | Different lists of strings give different JSON arrays. |
| ReplyParsing.ToJsonInjective | server.js:75-87 | Two analyses with the same JSON object are the same analysis. |
| ReplyParsing.FallbackRepliesDiffer | server.js:75-87 | The JSON objects of the "no match" fallback and the "parse failed" fallback differ. |
| ReplyParsing.Interpret | server.js:73-88 | `analysisResult` is one of three things: the "no match" fallback, the "parse failed" fallback, or a value the parser produced from the extracted text. `InterpretFollowsRegex` states exactly which one applies. |
| ReplyParsing.InterpretFollowsRegex | server.js:72-88 | With no regex match, the result is the "not analysed" fallback. With a match, the result is `JSON.parse` of exactly the reported match, returned unchanged. When that text does not parse, the result is the "analysis error" fallback. Interpretation never throws. |
| ReplyParsing.WholeReplyExtracted | server.js:74-75 | A reply that starts with `{` and ends with `}` goes to the parser whole. |
| ReplyParsing.EmbeddedObjectExtracted | server.js:74 | Suppose an object has no `{` before it and no `}` after it. Then exactly that object is extracted, whatever braces it contains. |
| ReplyParsing.BracelessReplyFallsBack | server.js:74-80 | A reply without `{` gets the first fallback, whose summary is the reply's first min(300, length) code units. |
| ReplyParsing.FallbacksAreCautious | server.js:75-87 | Both fallbacks carry the level `주의` and the same truncated summary. |
| ReplyParsing.FallbacksDiffer | server.js:78-86 | The "no match" fallback and the "parse failed" fallback are different values. |
| Server.FileStore.Exists | server.js:92 | `existsSync` is true exactly when the path is in the store. |
| Server.FileStore.Write | server.js:21-28 | The disk storage adds the path to the store and changes nothing else. |
| Server.FileStore.Unlink | server.js:89 | `unlinkSync` removes the path and changes nothing else. It fails (throws) exactly when the path was absent. |
| Server.NoFileResponse | server.js:57 | The reply without a file is status 400 with the error `파일이 업로드되지 않았습니다.`. |
| Server.FailureResponse | server.js:93 | The reply after any exception is status 500 with the error `분석 중 오류가 발생했습니다.`. |
| Server.AnalyzeRoute | server.js:53-95 | With no file, the reply is 400 with the fixed message; the collaborator is not called and nothing is deleted. With a file, the collaborator is called exactly when the file can be read. A readable file and a generated text give 200 with `Interpret` of that text. A read failure or a failed call gives 500 with the fixed message. On every path with a file, the store is the old store minus that file, and `unlinkSync` runs at most once. |
| Server.PostAnalyze | server.js:31-95 | A part the middleware refuses leaves the store unchanged, does not call the collaborator and does not enter the route. An admitted part is stored under its generated path and then removed again. The reply is 200 with the interpretation of the reply text, or 500 when the call fails. |
| Server.GeminiConfigured | server.js:97-99 | The health flag is true exactly when the key is set and non-empty. |

## Left out

- The Gemini call, the prompt text, the model name, and the reading and base64 encoding of the file's bytes. The call is the `Generation` parameter, and the read succeeds exactly when the file exists.
- `JSON.parse` internals: the parser is a function parameter. JSON numbers are modelled as integers, because nothing computes with them.
- Multer internals: multipart parsing, several files in one request, the partial write and cleanup of an oversized file, the other limits, and the reply Express sends for a middleware error.
- Upload.StoredPath: does not model the segment normalisation that `path.join` applies. An original name containing `/` (for example `a/../../x`) could place the file elsewhere; the model concatenates.
- The range of `Math.random()`: the random part of the name is any natural number.
- `JsText.Lit` handles only literals whose characters each take one code unit. Every string literal the model uses does: the media types, the field name, the object keys, and the messages and advice strings at server.js:35, 57, 77-79, 84-86 and 93.
- Static file serving, `express.json`, creating the upload directory, `dotenv`, `app.listen` and its logging.
- Concurrency between requests, `async` scheduling, and the missing timeout on the external call. The model assumes no other request deletes the file between the read and `unlinkSync`; two requests with the same stored path would share one file. `AnalyzeRoute` still follows the route's 500 path when `unlinkSync` throws.
- js/main.js: browser presentation code, not part of this model.
