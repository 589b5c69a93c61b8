/** The `POST /api/analyze` route and the `GET /api/health` route of server.js. */
module Server {
  import opened JsText
  import opened Json
  import opened Upload
  import opened ReplyParsing

  type Path = JsString

  /** The upload directory: the set of paths present on disk. */
  class FileStore {
    var paths: set<Path>

    constructor (initial: set<Path>)
      ensures paths == initial
    {
      paths := initial;
    }

    /** `fs.existsSync(p)`; `fs.readFileSync(p)` succeeds under the same
        condition (the bytes themselves are not modelled). */
    method Exists(p: Path) returns (b: bool)
      ensures b <==> p in paths
    {
      b := p in paths;
    }

    /** The disk storage writing an admitted file; an existing file of that
        name is overwritten. */
    method Write(p: Path)
      modifies this
      ensures paths == old(paths) + {p}
    {
      paths := paths + {p};
    }

    /** `fs.unlinkSync(p)`: removes `p`, and throws (`ok` is false) when there
        is no such file. */
    method Unlink(p: Path) returns (ok: bool)
      modifies this
      ensures ok <==> p in old(paths)
      ensures paths == old(paths) - {p}
    {
      ok := p in paths;
      paths := paths - {p};
    }
  }

  /** `req.file` as the route sees it once the middleware admitted a part. */
  datatype UploadedFile = UploadedFile(path: Path, mimetype: JsString)

  /** `model.generateContent(...)` followed by `response.text()`: the reply
      text, or an exception from the call or from reading its response. */
  datatype Generation = Generated(text: JsString) | Failed

  /** The JSON body of a reply: `{ success: true, analysis }` or
      `{ success: false, error }`. */
  datatype Body = Analysis(analysis: Value) | Error(error: JsString)

  datatype Response = Response(status: nat, body: Body)

  const NoFileMessage: JsString := Lit("파일이 업로드되지 않았습니다.")
  const AnalysisFailedMessage: JsString := Lit("분석 중 오류가 발생했습니다.")

  /** The reply when the request carries no file. */
  function NoFileResponse(): (r: Response)
    ensures r.status == 400 && r.body.Error? && r.body.error == NoFileMessage
  {
    Response(400, Error(NoFileMessage))
  }

  /** The reply when anything inside the route's `try` block throws. */
  function FailureResponse(): (r: Response)
    ensures r.status == 500 && r.body.Error? && r.body.error == AnalysisFailedMessage
  {
    Response(500, Error(AnalysisFailedMessage))
  }

  /** The route body, run once the middleware has let the request through.
      `called` says whether the model was asked at all; `unlinks` counts the
      calls to `fs.unlinkSync`. Every exit leaves the uploaded file gone and
      every other file as it was. */
  method AnalyzeRoute(store: FileStore, file: Option<UploadedFile>, generation: Generation, parse: Parser)
    returns (response: Response, called: bool, unlinks: nat)
    modifies store
    ensures file.None? ==>
              response == NoFileResponse() && !called && unlinks == 0 && store.paths == old(store.paths)
    ensures file.Some? ==> store.paths == old(store.paths) - {file.value.path}
    ensures file.Some? ==> (called <==> file.value.path in old(store.paths))
    ensures file.Some? ==> unlinks == (if file.value.path in old(store.paths) then 1 else 0)
    ensures file.Some? && file.value.path in old(store.paths) && generation.Generated? ==>
              response == Response(200, Analysis(Interpret(generation.text, parse)))
    ensures file.Some? && (file.value.path !in old(store.paths) || generation.Failed?) ==>
              response == FailureResponse()
  {
    called, unlinks := false, 0;
    var filePath: Option<Path> := None;
    // try
    if file.None? {
      return NoFileResponse(), called, unlinks;
    }
    filePath := Some(file.value.path);
    var readable := store.Exists(filePath.value);
    if readable {
      called := true;
      if generation.Generated? {
        var analysis := Interpret(generation.text, parse);
        var ok := store.Unlink(filePath.value);
        unlinks := unlinks + 1;
        if ok {
          return Response(200, Analysis(analysis)), called, unlinks;
        }
      }
    }
    // catch
    if filePath.Some? {
      var present := store.Exists(filePath.value);
      if present {
        var _ := store.Unlink(filePath.value);
        unlinks := unlinks + 1;
      }
    }
    response := FailureResponse();
  }

  /** What the request ends in: the route's reply, or a middleware error that
      Express's default error handling answers without entering the route. */
  datatype Outcome = Handled(response: Response) | Refused(reason: Rejection)

  /** The whole `POST /api/analyze` request: the upload middleware, then the
      route. The clock and random number that name the stored file are
      parameters, as is the upload directory. */
  method PostAnalyze(store: FileStore, dir: Path, part: Option<FilePart>, now: nat, random: nat,
                     generation: Generation, parse: Parser)
    returns (outcome: Outcome, called: bool, unlinks: nat)
    modifies store
    ensures part.None? ==>
              outcome == Handled(NoFileResponse()) && !called && unlinks == 0 && store.paths == old(store.paths)
    ensures part.Some? && Admit(part.value).Rejected? ==>
              outcome == Refused(Admit(part.value).reason) && !called && unlinks == 0 &&
              store.paths == old(store.paths)
    ensures part.Some? && Admit(part.value).Admitted? ==>
              var p := StoredPath(dir, StoredName(now, random, part.value.originalname));
              && store.paths == old(store.paths) - {p}
              && called && unlinks == 1
              && outcome == Handled(match generation
                                    case Generated(text) => Response(200, Analysis(Interpret(text, parse)))
                                    case Failed => FailureResponse())
  {
    if part.None? {
      var response;
      response, called, unlinks := AnalyzeRoute(store, None, generation, parse);
      return Handled(response), called, unlinks;
    }
    var admission := Admit(part.value);
    if admission.Rejected? {
      return Refused(admission.reason), false, 0;
    }
    var p := StoredPath(dir, StoredName(now, random, part.value.originalname));
    store.Write(p);
    var response;
    response, called, unlinks := AnalyzeRoute(store, Some(UploadedFile(p, part.value.mimetype)), generation, parse);
    outcome := Handled(response);
  }

  /** `geminiConfigured` in the health reply: `!!process.env.GEMINI_API_KEY`,
      false for an unset and for an empty key. */
  function GeminiConfigured(key: Option<JsString>): (configured: bool)
    ensures configured <==> key.Some? && key.value != []
  {
    match key
    case None => false
    case Some(k) => |k| > 0
  }
}
