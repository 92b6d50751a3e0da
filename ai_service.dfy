/**
 * The AI-backed CV analysis of the API service: the service holds a generative model only when
 * an API key is configured, embeds at most the first 8000 characters of the CV text in its
 * prompt, and strips Markdown code fences and surrounding whitespace from the model's answer.
 * The model call itself is an oracle: a function from the prompt to a text or a raised error.
 */
module AiService {
  import opened Wrappers
  import opened PyStrings

  /** The model the service asks for. */
  const ModelName := "gemini-pro"
  /** The error text returned when no API key is configured. */
  const NotConfigured := "AI Service not configured (missing API Key)"
  /** The most characters of the CV text embedded in the prompt. */
  const MaxPromptText: nat := 8000

  /** The prompt's fixed text before the CV text. */
  const PromptHeader: string :=
    "\n"
    + "        Actúa como un experto reclutador y sistema ATS avanzado. Analiza el siguiente texto extraído de un CV y dame un reporte estructurado en formato JSON con los siguientes campos:\n"
    + "        1. \"score\": Un puntaje numérico de 0 a 100 basado en completitud y palabras clave.\n"
    + "        2. \"summary\": Un resumen profesional de 2 líneas del candidato.\n"
    + "        3. \"strengths\": Lista de 3 fortalezas clave detectadas.\n"
    + "        4. \"weaknesses\": Lista de 3 áreas de mejora o secciones faltantes.\n"
    + "        5. \"keywords_detected\": Lista de habilidades técnicas o blandas encontradas.\n"
    + "\n"
    + "        CV TEXT:\n"
    + "        "
  /** The prompt's fixed text after the CV text. */
  const PromptFooter: string := " \n        "

  /** A configured generative model. */
  datatype GenerativeModel = GenerativeModel(name: string, apiKey: string)

  /** What generating content for a prompt yields: the response text, or an exception whose
      string form is the message. */
  datatype Generation = Generated(text: string) | Raised(message: string)

  /** What `analyze_cv` returns: the cleaned response text, or an `{"error": message}` dict. */
  datatype CvAnalysis = Cleaned(text: string) | ErrorDict(error: string)

  /** One call of `analyze_cv`: the prompt sent to the model, if any, and the returned value. */
  datatype Call = Call(sentPrompt: Option<string>, result: CvAnalysis)

  /** `text[:8000]`: the first 8000 characters, or all of a shorter text. */
  function Truncate(text: string): (r: string)
    ensures r <= text
    ensures |r| == if |text| <= MaxPromptText then |text| else MaxPromptText
  {
    if |text| <= MaxPromptText then text else text[..MaxPromptText]
  }

  /** The prompt built for a CV text. */
  function Prompt(text: string): (r: string)
    ensures PromptHeader <= r
    ensures |r| <= |PromptHeader| + MaxPromptText + |PromptFooter|
  {
    PromptHeader + Truncate(text) + PromptFooter
  }

  /** The prompt is the fixed text around a prefix of the CV text of at most 8000 characters,
      and the whole text when it is no longer than that. */
  lemma PromptEmbedsPrefix(text: string)
    ensures exists n :: 0 <= n <= MaxPromptText && n <= |text| && Prompt(text) == PromptHeader + text[..n] + PromptFooter
    ensures |text| <= MaxPromptText ==> Prompt(text) == PromptHeader + text + PromptFooter
    ensures |Prompt(text)| <= |PromptHeader| + MaxPromptText + |PromptFooter|
  {
    var n := |Truncate(text)|;
    assert Truncate(text) == text[..n];
  }

  /** `response.text.replace("```json", "").replace("```", "").strip()`: the cleaned text is no
      longer than the response and has no leading or trailing whitespace. */
  function CleanResponse(response: string): (r: string)
    ensures |r| <= |response|
    ensures r == [] || (!IsSpace(r[0]) && !IsSpace(r[|r| - 1]))
  {
    Strip(Replace(Replace(response, "```json", ""), "```", ""))
  }

  /** A response without backticks only loses its surrounding whitespace. */
  lemma CleanWithoutBackticks(response: string)
    requires '`' !in response
    ensures CleanResponse(response) == Strip(response)
  {
    ReplaceAbsent(response, "```json", "");
    ReplaceAbsent(response, "```", "");
  }

  /** A body fenced as a JSON code block, with no backticks inside, cleans to the stripped body. */
  lemma CleanFencedJson(body: string)
    requires '`' !in body
    ensures CleanResponse("```json" + body + "```") == Strip(body)
  {
    var fence := "```";
    var s := "```json" + body + fence;
    assert "```json" <= s;
    assert s[|"```json"|..] == body + fence;
    ReplaceSkipsPrefix(body, fence, "```json", "");
    assert !("```json" <= fence);
    assert !("```json" <= fence[1..]) && fence[1..][1..] == "`";
    assert Replace(fence, "```json", "") == fence;
    assert Replace(s, "```json", "") == body + fence;
    ReplaceSkipsPrefix(body, fence, fence, "");
    assert fence[|fence|..] == [];
    assert Replace(fence, fence, "") == "";
    assert body + "" == body;
  }

  /** The service object; its model is fixed when it is created. */
  class AIService {
    const model: Option<GenerativeModel>

    /** `__init__` with the value of GOOGLE_API_KEY (None when unset): an unset or empty key
        leaves the service without a model. */
    constructor (apiKey: Option<string>)
      ensures apiKey == None || apiKey == Some("") ==> model == None
      ensures apiKey.Some? && apiKey.value != "" ==> model == Some(GenerativeModel(ModelName, apiKey.value))
    {
      if apiKey == None || apiKey.value == "" {
        model := None;
      } else {
        model := Some(GenerativeModel(ModelName, apiKey.value));
      }
    }

    /** `analyze_cv`: without a model it sends nothing and returns the not-configured error;
        otherwise it sends the prompt for `text` and returns the cleaned response, or the
        raised exception's message as an error dict, never raising itself. */
    function AnalyzeCv(text: string, generate: string -> Generation): (r: Call)
      ensures model == None ==> r == Call(None, ErrorDict(NotConfigured))
      ensures model != None ==> r.sentPrompt == Some(Prompt(text))
      ensures model != None && generate(Prompt(text)).Generated? ==>
        r.result == Cleaned(CleanResponse(generate(Prompt(text)).text))
      ensures model != None && generate(Prompt(text)).Raised? ==>
        r.result == ErrorDict(generate(Prompt(text)).message)
    {
      if model == None then
        Call(None, ErrorDict(NotConfigured))
      else
        var prompt := Prompt(text);
        match generate(prompt)
        case Generated(response) => Call(Some(prompt), Cleaned(CleanResponse(response)))
        case Raised(message) => Call(Some(prompt), ErrorDict(message))
    }
  }
}
