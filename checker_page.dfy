/**
 * The ATS checker page: the user picks a PDF, optionally switches on the AI analysis, and
 * sends the file to one of the API's two endpoints; the page shows the returned result. The
 * request itself is not modelled: the page's handler is split before its first `await` (the
 * `fetch`), and how both awaits ended (the `fetch` and `res.json()`) is given as one parameter.
 */
module CheckerPage {
  import opened Wrappers

  /** The API base used when no base URL is configured. */
  const DefaultApiUrl := "http://localhost:8000"
  /** The heuristic and the AI-backed endpoint. */
  const AnalyzePath := "/analyze"
  const AnalyzeWithAiPath := "/analyze-with-ai"

  /** A chosen file, as far as the page distinguishes files. */
  datatype UploadFile = UploadFile(name: string, size: nat)

  /** The parsed response body as far as the page reads it; each field may be absent. */
  datatype AnalysisResult = AnalysisResult(
    score: Option<int>, sectionsFound: Option<seq<string>>, strengths: Option<seq<string>>,
    weaknesses: Option<seq<string>>, summary: Option<string>)

  /** How the request ended: a response, with its `ok` flag and what `res.json()` gives (None
      when it throws), or a `fetch` that threw. */
  datatype FetchOutcome = Responded(ok: bool, body: Option<AnalysisResult>) | FetchFailed

  /** The request the page sends: a POST of the file to this URL. */
  datatype Request = Request(url: string, file: UploadFile)

  /** `process.env.NEXT_PUBLIC_API_URL || "http://localhost:8000"`: an unset or empty value
      falls back to the default. */
  function ApiUrl(env: Option<string>): (r: string)
    ensures env.Some? && env.value != "" ==> r == env.value
    ensures env == None || env == Some("") ==> r == DefaultApiUrl
    ensures r != ""
  {
    if env.Some? && env.value != "" then env.value else DefaultApiUrl
  }

  /** The URL the analysis is sent to. */
  function RequestUrl(env: Option<string>, useAI: bool): (r: string)
    ensures ApiUrl(env) <= r && |r| > |ApiUrl(env)|
  {
    ApiUrl(env) + (if useAI then AnalyzeWithAiPath else AnalyzePath)
  }

  predicate EndsWith(s: string, suffix: string)
  {
    |suffix| <= |s| && s[|s| - |suffix|..] == suffix
  }

  /** The request URL is the base followed by exactly one endpoint, and it is the AI endpoint
      exactly when the AI switch is on. */
  lemma RequestUrlChoosesEndpoint(env: Option<string>, useAI: bool)
    ensures RequestUrl(env, useAI)[..|ApiUrl(env)|] == ApiUrl(env)
    ensures EndsWith(RequestUrl(env, useAI), AnalyzeWithAiPath) <==> useAI
    ensures EndsWith(RequestUrl(env, useAI), AnalyzePath) <==> !useAI
  {
    var u := RequestUrl(env, useAI);
    if useAI {
      assert u[|u| - |AnalyzeWithAiPath|..] == AnalyzeWithAiPath;
      assert u[|u| - |AnalyzePath|..] == AnalyzeWithAiPath[|AnalyzeWithAiPath| - |AnalyzePath|..];
      assert AnalyzeWithAiPath[|AnalyzeWithAiPath| - |AnalyzePath|..][0] == '-';
    } else {
      assert u[|u| - |AnalyzePath|..] == AnalyzePath;
      if |AnalyzeWithAiPath| <= |u| {
        assert u[|u| - |AnalyzeWithAiPath|..][|AnalyzeWithAiPath| - |AnalyzePath|] == '/';
      }
    }
  }

  /** The analyze button is disabled when no file is chosen or an analysis is running. */
  function AnalyzeDisabled(file: Option<UploadFile>, loading: bool): (r: bool)
    ensures !r <==> file.Some? && !loading
  {
    file == None || loading
  }

  /** `result.sections_found || result.strengths || []`: a present list wins even when it is
      empty, because an array is truthy. */
  function ShownSections(r: AnalysisResult): (shown: seq<string>)
    ensures r.sectionsFound.Some? ==> shown == r.sectionsFound.value
    ensures r.sectionsFound == None && r.strengths.Some? ==> shown == r.strengths.value
    ensures r.sectionsFound == None && r.strengths == None ==> shown == []
  {
    match r.sectionsFound
    case Some(sections) => sections
    case None =>
      match r.strengths
      case Some(strengths) => strengths
      case None => []
  }

  /** The improvement list is shown exactly when the result has a `weaknesses` list. */
  function ShowsWeaknesses(r: AnalysisResult): (shown: bool)
    ensures shown <==> r.weaknesses.Some?
  {
    match r.weaknesses
    case Some(_) => true
    case None => false
  }

  /** The checker page's state. */
  class CheckerPageState {
    var file: Option<UploadFile>
    var loading: bool
    var result: Option<AnalysisResult>
    var useAI: bool

    constructor ()
      ensures file == None && !loading && result == None && !useAI
    {
      file, loading, result, useAI := None, false, None, false;
    }

    /** `handleFileChange`: a chosen file replaces the current one and clears the result; an
        empty selection changes nothing. */
    method HandleFileChange(files: seq<UploadFile>)
      modifies this`file, this`result
      ensures |files| > 0 ==> file == Some(files[0]) && result == None
      ensures |files| == 0 ==> file == old(file) && result == old(result)
    {
      if |files| > 0 {
        file := Some(files[0]);
        result := None;
      }
    }

    /** The AI checkbox. */
    method SetUseAI(checked: bool)
      modifies this`useAI
      ensures useAI == checked
    {
      useAI := checked;
    }

    /** `handleAnalyze` up to its `await`: without a file nothing happens; otherwise the page
        starts loading and sends the file to the endpoint the AI switch selects. */
    method StartAnalyze(env: Option<string>) returns (request: Option<Request>)
      modifies this`loading
      ensures old(file) == None ==> request == None && loading == old(loading)
      ensures old(file).Some? ==> request == Some(Request(RequestUrl(env, useAI), file.value)) && loading
    {
      if file == None {
        return None;
      }
      loading := true;
      request := Some(Request(RequestUrl(env, useAI), file.value));
    }

    /** `handleAnalyze` after its two awaits: an ok response with a JSON body becomes the result;
        anything else raises the alert and keeps the previous result; loading always ends. */
    method FinishAnalyze(outcome: FetchOutcome) returns (alerted: bool)
      modifies this`loading, this`result
      ensures !loading
      ensures outcome.Responded? && outcome.ok && outcome.body.Some? ==>
        result == outcome.body && !alerted
      ensures !(outcome.Responded? && outcome.ok && outcome.body.Some?) ==>
        result == old(result) && alerted
    {
      alerted := false;
      match outcome {
        case Responded(ok, body) =>
          if !ok {
            alerted := true;
          } else if body == None {
            alerted := true;
          } else {
            result := body;
          }
        case FetchFailed =>
          alerted := true;
      }
      loading := false;
    }

    /** `handleAnalyze` run to completion without other events in between. */
    method HandleAnalyze(env: Option<string>, outcome: FetchOutcome) returns (request: Option<Request>, alerted: bool)
      modifies this`loading, this`result
      ensures old(file) == None ==> request == None && !alerted && loading == old(loading) && result == old(result)
      ensures old(file).Some? ==> request == Some(Request(RequestUrl(env, useAI), file.value)) && !loading
      ensures old(file).Some? && outcome.Responded? && outcome.ok && outcome.body.Some? ==> result == outcome.body && !alerted
      ensures old(file).Some? && !(outcome.Responded? && outcome.ok && outcome.body.Some?) ==> result == old(result) && alerted
    {
      request := StartAnalyze(env);
      alerted := false;
      if request.Some? {
        alerted := FinishAnalyze(outcome);
      }
    }
  }
}
