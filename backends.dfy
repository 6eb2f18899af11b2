/** The two speech-to-text clients and the factory that picks between them
    (src/main/services/TranscriptionAPI.ts, OpenAIWhisperAPI.ts,
    CustomWhisperAPI.ts). HTTP responses, the audio file's existence and the
    generated result id and clock are parameters. */
module Backends {
  import opened Types
  import opened Text

  /** An api_config row. A NULL `apiKey` column is None. */
  datatype ApiConfig = ApiConfig(
    configId: string,
    apiType: string,
    apiUrl: string,
    apiKey: Option<string>,
    model: string,
    timeout: int,
    maxRetries: int,
    isActive: bool)

  datatype ClientKind = OpenAIWhisper | CustomWhisper

  /** A constructed client: which implementation and the configuration it holds. */
  datatype Client = Client(kind: ClientKind, config: ApiConfig)

  // ---------------------------------------------------------------------
  // The factory
  // ---------------------------------------------------------------------

  /** `TranscriptionAPIFactory.createAPI`: dispatch on the lower-cased api type. */
  function CreateApi(config: ApiConfig): (r: Result<Client>)
    ensures r.Ok? ==> r.value.config == config
    ensures r.Ok? && r.value.kind == OpenAIWhisper <==> Lower(config.apiType) == "openai"
    ensures r.Ok? && r.value.kind == CustomWhisper <==> Lower(config.apiType) == "custom"
    ensures r.Err? ==> r.error == PlainError("Unsupported API type: " + config.apiType)
  {
    var t := Lower(config.apiType);
    if t == "openai" then Ok(Client(OpenAIWhisper, config))
    else if t == "custom" then Ok(Client(CustomWhisper, config))
    else Err(PlainError("Unsupported API type: " + config.apiType))
  }

  /** Only the letter case of the type is ignored: two configurations whose
      types agree up to ASCII case get the same kind of client. */
  lemma CreateApiIgnoresCase(a: ApiConfig, b: ApiConfig)
    requires Lower(a.apiType) == Lower(b.apiType)
    ensures CreateApi(a).Ok? == CreateApi(b).Ok?
    ensures CreateApi(a).Ok? ==> CreateApi(a).value.kind == CreateApi(b).value.kind
  {
  }

  // ---------------------------------------------------------------------
  // Client construction
  // ---------------------------------------------------------------------

  /** `${config.apiKey}`: a NULL key, which the row copy passes on as `null`,
      renders as "null". */
  function KeyText(apiKey: Option<string>): string
  {
    if apiKey.Some? then apiKey.value else "null"
  }

  predicate Truthy(s: Option<string>) { s.Some? && s.value != "" }

  /** The OpenAI client's default headers: the bearer header is always sent. */
  function OpenAIHeaders(config: ApiConfig): (h: map<string, string>)
    ensures h.Keys == {"Authorization", "Content-Type"}
    ensures h["Authorization"] == "Bearer " + KeyText(config.apiKey)
  {
    map["Authorization" := "Bearer " + KeyText(config.apiKey), "Content-Type" := "application/json"]
  }

  /** The OpenAI client's base URL: the configured one, or the public endpoint when empty. */
  function OpenAIBaseUrl(config: ApiConfig): (url: string)
    ensures config.apiUrl != "" ==> url == config.apiUrl
    ensures config.apiUrl == "" ==> url == "https://api.openai.com/v1"
  {
    if config.apiUrl != "" then config.apiUrl else "https://api.openai.com/v1"
  }

  /** The custom client's constructor: starts from the JSON content type and
      adds the bearer header only for a non-empty key. */
  method CustomHeaders(config: ApiConfig) returns (headers: map<string, string>)
    ensures "Content-Type" in headers && headers["Content-Type"] == "application/json"
    ensures "Authorization" in headers <==> Truthy(config.apiKey)
    ensures Truthy(config.apiKey) ==> headers["Authorization"] == "Bearer " + config.apiKey.value
    ensures headers.Keys <= {"Content-Type", "Authorization"}
  {
    headers := map["Content-Type" := "application/json"];
    if Truthy(config.apiKey) {
      headers := headers["Authorization" := "Bearer " + config.apiKey.value];
    }
  }

  // ---------------------------------------------------------------------
  // Word counting
  // ---------------------------------------------------------------------

  /** Leading whitespace removed. */
  function TrimStart(s: string): (r: string)
    ensures |r| <= |s| && (r == [] || !IsJsSpace(r[0]))
    ensures r == s[|s| - |r|..]
  {
    if s != [] && IsJsSpace(s[0]) then TrimStart(s[1..]) else s
  }

  /** Trailing whitespace removed. */
  function TrimEnd(s: string): (r: string)
    ensures |r| <= |s| && (r == [] || !IsJsSpace(r[|r| - 1]))
    ensures r == s[..|r|]
  {
    if s != [] && IsJsSpace(s[|s| - 1]) then TrimEnd(s[..|s| - 1]) else s
  }

  /** `s.trim()`. */
  function Trim(s: string): string { TrimEnd(TrimStart(s)) }

  /** `s.split(/\s+/)`: the pieces between maximal runs of whitespace. There is
      always at least one piece, and a piece is empty only at either end. */
  function SplitWs(s: string): (pieces: seq<string>)
    ensures |pieces| >= 1
    decreases |s|
  {
    if s == [] then [""]
    else if IsJsSpace(s[0]) then [""] + SplitWs(TrimStart(s))
    else
      var rest := SplitWs(s[1..]);
      [[s[0]] + rest[0]] + rest[1..]
  }

  /** How many pieces are non-empty (`.filter(word => word.length > 0).length`). */
  function NonEmptyCount(pieces: seq<string>): nat
  {
    if pieces == [] then 0 else (if pieces[0] != "" then 1 else 0) + NonEmptyCount(pieces[1..])
  }

  /** The number of maximal runs of non-whitespace characters, scanning left to
      right; `afterSpace` says whether the previous character was whitespace
      (or there was none). */
  function RunsFrom(s: string, afterSpace: bool): nat
  {
    if s == [] then 0
    else (if afterSpace && !IsJsSpace(s[0]) then 1 else 0) + RunsFrom(s[1..], IsJsSpace(s[0]))
  }

  function Runs(s: string): nat { RunsFrom(s, true) }

  /** `countWords`: 0 for an absent, non-string or empty text; otherwise the
      number of non-empty pieces of the trimmed text split on whitespace. */
  function CountWords(text: Option<string>): (n: nat)
    ensures text.None? || text.value == "" ==> n == 0
    ensures text.Some? ==> n == Runs(text.value)
  {
    if text.None? || text.value == "" then 0
    else
      CountWordsIsRuns(text.value);
      NonEmptyCount(SplitWs(Trim(text.value)))
  }

  lemma {:induction false} NonEmptyCountAppend(a: seq<string>, b: seq<string>)
    ensures NonEmptyCount(a + b) == NonEmptyCount(a) + NonEmptyCount(b)
    decreases |a|
  {
    if a == [] {
      assert a + b == b;
    } else {
      assert (a + b)[0] == a[0] && (a + b)[1..] == a[1..] + b;
      NonEmptyCountAppend(a[1..], b);
    }
  }

  /** Leading whitespace never starts a run. */
  lemma {:induction false} RunsTrimStart(s: string, afterSpace: bool)
    requires s != [] && IsJsSpace(s[0])
    ensures RunsFrom(s, afterSpace) == RunsFrom(TrimStart(s), true)
    decreases |s|
  {
    if s[1..] != [] && IsJsSpace(s[1]) {
      RunsTrimStart(s[1..], true);
    }
  }

  /** Counting the pieces of the split counts the runs; the tail lemma covers
      the pieces after the first, whose first piece continues a current run. */
  lemma {:induction false} SplitCountsRuns(s: string)
    ensures NonEmptyCount(SplitWs(s)) == RunsFrom(s, true)
    ensures NonEmptyCount(SplitWs(s)[1..]) == RunsFrom(s, false)
    decreases |s|
  {
    if s == [] {
    } else if IsJsSpace(s[0]) {
      var t := TrimStart(s);
      SplitCountsRuns(t);
      RunsTrimStart(s, true);
      RunsTrimStart(s, false);
      NonEmptyCountAppend([""], SplitWs(t));
      assert SplitWs(s)[1..] == SplitWs(t);
    } else {
      var rest := SplitWs(s[1..]);
      SplitCountsRuns(s[1..]);
      var pieces := SplitWs(s);
      assert pieces[1..] == rest[1..];
      NonEmptyCountAppend([[s[0]] + rest[0]], rest[1..]);
    }
  }

  /** Trailing whitespace never starts a run. */
  lemma {:induction false} RunsAppendSpace(s: string, c: char, afterSpace: bool)
    requires IsJsSpace(c)
    ensures RunsFrom(s + [c], afterSpace) == RunsFrom(s, afterSpace)
    decreases |s|
  {
    if s != [] {
      assert (s + [c])[1..] == s[1..] + [c];
      RunsAppendSpace(s[1..], c, IsJsSpace(s[0]));
    }
  }

  lemma {:induction false} RunsTrimEnd(s: string, afterSpace: bool)
    ensures RunsFrom(TrimEnd(s), afterSpace) == RunsFrom(s, afterSpace)
    decreases |s|
  {
    if s != [] && IsJsSpace(s[|s| - 1]) {
      RunsTrimEnd(s[..|s| - 1], afterSpace);
      assert s == s[..|s| - 1] + [s[|s| - 1]];
      RunsAppendSpace(s[..|s| - 1], s[|s| - 1], afterSpace);
    }
  }

  /** The split-and-filter count is the number of maximal non-whitespace runs;
      trimming first changes nothing. */
  lemma CountWordsIsRuns(s: string)
    ensures NonEmptyCount(SplitWs(Trim(s))) == Runs(s)
  {
    var t := TrimStart(s);
    SplitCountsRuns(TrimEnd(t));
    RunsTrimEnd(t, true);
    if s != [] && IsJsSpace(s[0]) {
      RunsTrimStart(s, true);
    }
  }

  /** Whitespace-only text has no words, and so does text with no non-space character. */
  lemma {:induction false} BlankHasNoWords(s: string, afterSpace: bool)
    requires forall i :: 0 <= i < |s| ==> IsJsSpace(s[i])
    ensures RunsFrom(s, afterSpace) == 0
    decreases |s|
  {
    if s != [] {
      BlankHasNoWords(s[1..], true);
    }
  }

  /** Runs add up over a concatenation, the second part continuing from the
      last character of the first. */
  lemma {:induction false} RunsConcat(a: string, b: string, afterSpace: bool)
    ensures RunsFrom(a + b, afterSpace)
      == RunsFrom(a, afterSpace) + RunsFrom(b, if a == [] then afterSpace else IsJsSpace(a[|a| - 1]))
    decreases |a|
  {
    if a == [] {
      assert a + b == b;
    } else {
      assert (a + b)[0] == a[0] && (a + b)[1..] == a[1..] + b;
      RunsConcat(a[1..], b, IsJsSpace(a[0]));
    }
  }

  /** A word (non-empty, no whitespace) is one run when it starts after
      whitespace and continues the current run otherwise. */
  lemma {:induction false} RunsOfWord(w: string, afterSpace: bool)
    requires w != [] && forall i :: 0 <= i < |w| ==> !IsJsSpace(w[i])
    ensures RunsFrom(w, afterSpace) == if afterSpace then 1 else 0
    decreases |w|
  {
    if w[1..] != [] {
      RunsOfWord(w[1..], false);
    }
  }

  /** Two words separated by one space count as two words. */
  lemma CountTwoWords(a: string, b: string)
    requires a != [] && forall i :: 0 <= i < |a| ==> !IsJsSpace(a[i])
    requires b != [] && forall i :: 0 <= i < |b| ==> !IsJsSpace(b[i])
    ensures CountWords(Some(a + " " + b)) == 2
  {
    RunsConcat(a + " ", b, true);
    RunsConcat(a, " ", true);
    RunsOfWord(a, true);
    RunsOfWord(b, true);
    assert RunsFrom(" ", false) == 0;
  }

  /** Text made only of whitespace counts as no words. */
  lemma CountBlank(s: string)
    requires forall i :: 0 <= i < |s| ==> IsJsSpace(s[i])
    ensures CountWords(Some(s)) == 0
  {
    BlankHasNoWords(s, true);
  }

  // ---------------------------------------------------------------------
  // Requests and results
  // ---------------------------------------------------------------------

  /** The per-call options; an absent option is None. */
  datatype TranscriptionOptions = TranscriptionOptions(
    model: Option<string>,
    language: Option<string>,
    temperature: Option<real>,
    prompt: Option<string>)

  /** `options.model || this.config.model`. */
  function ChosenModel(options: TranscriptionOptions, config: ApiConfig): (m: string)
    ensures Truthy(options.model) ==> m == options.model.value
    ensures !Truthy(options.model) ==> m == config.model
  {
    if Truthy(options.model) then options.model.value else config.model
  }

  /** One multipart form entry. */
  datatype FormValue = FileStream(path: string) | Text(text: string) | Number(number: real)

  /** The OpenAI multipart form as a whole: the file and the model, then
      language, temperature and prompt, each present under its condition.
      Every field name occurs once. */
  function FormFields(audioFile: string, options: TranscriptionOptions, config: ApiConfig): (fields: seq<(string, FormValue)>)
    ensures 2 <= |fields| <= 5
    ensures fields[0] == ("file", FileStream(audioFile)) && fields[1] == ("model", Text(ChosenModel(options, config)))
    ensures forall i, j :: 0 <= i < j < |fields| ==> fields[i].0 != fields[j].0
    ensures (exists v :: ("language", v) in fields) <==> Truthy(options.language)
    ensures Truthy(options.language) ==> ("language", Text(options.language.value)) in fields
    ensures (exists v :: ("temperature", v) in fields) <==> options.temperature.Some?
    ensures options.temperature.Some? ==> ("temperature", Number(options.temperature.value)) in fields
    ensures (exists v :: ("prompt", v) in fields) <==> Truthy(options.prompt)
    ensures Truthy(options.prompt) ==> ("prompt", Text(options.prompt.value)) in fields
  {
    var language := if Truthy(options.language) then [("language", Text(options.language.value))] else [];
    var temperature := if options.temperature.Some? then [("temperature", Number(options.temperature.value))] else [];
    var prompt := if Truthy(options.prompt) then [("prompt", Text(options.prompt.value))] else [];
    [("file", FileStream(audioFile)), ("model", Text(ChosenModel(options, config)))] + language + temperature + prompt
  }

  /** Builds the OpenAI multipart form entry by entry: the file and the model
      always; language and prompt only when non-empty; temperature whenever it
      is given, zero included. */
  method OpenAIForm(audioFile: string, options: TranscriptionOptions, config: ApiConfig)
    returns (form: seq<(string, FormValue)>)
    ensures form == FormFields(audioFile, options, config)
    ensures |form| >= 2 && form[0] == ("file", FileStream(audioFile)) && form[1] == ("model", Text(ChosenModel(options, config)))
    ensures (exists v :: ("language", v) in form) <==> Truthy(options.language)
    ensures Truthy(options.language) ==> ("language", Text(options.language.value)) in form
    ensures (exists v :: ("temperature", v) in form) <==> options.temperature.Some?
    ensures options.temperature.Some? ==> ("temperature", Number(options.temperature.value)) in form
    ensures (exists v :: ("prompt", v) in form) <==> Truthy(options.prompt)
    ensures Truthy(options.prompt) ==> ("prompt", Text(options.prompt.value)) in form
    ensures |form| <= 5
  {
    form := [("file", FileStream(audioFile))];
    form := form + [("model", Text(ChosenModel(options, config)))];
    if Truthy(options.language) {
      form := form + [("language", Text(options.language.value))];
    }
    if options.temperature.Some? {
      form := form + [("temperature", Number(options.temperature.value))];
    }
    if Truthy(options.prompt) {
      form := form + [("prompt", Text(options.prompt.value))];
    }
  }

  /** The custom backend's JSON request body; absent options stay absent. */
  datatype CustomRequest = CustomRequest(
    audioFile: string,
    model: string,
    language: Option<string>,
    temperature: Option<real>,
    prompt: Option<string>)

  function CustomRequestBody(audioFile: string, options: TranscriptionOptions, config: ApiConfig): (body: CustomRequest)
    ensures body.model == ChosenModel(options, config)
    ensures body.language == options.language && body.temperature == options.temperature && body.prompt == options.prompt
  {
    CustomRequest(audioFile, ChosenModel(options, config), options.language, options.temperature, options.prompt)
  }

  /** The result record both clients build from a response. */
  function ResultFrom(resultId: string, model: string, response: ApiResponse, processingTime: int, now: int): (r: TranscriptionResult)
    ensures r.taskId == "" && r.format == "TXT" && r.model == model
    ensures r.wordCount == CountWords(response.text)
    ensures r.language == response.language && r.confidence == response.confidence
    ensures r.apiResponse == Some(response) && r.processingTime == processingTime
  {
    TranscriptionResult(resultId, "", "TXT", model, response.language, response.confidence, processingTime,
      CountWords(response.text), Some(response), now, now)
  }

  /** What a transcription call sent, if anything. */
  datatype Request = Form(fields: seq<(string, FormValue)>) | Json(body: CustomRequest)

  /** `transcribe` on either client. A missing audio file fails before any
      request is sent; a failed request passes its error through. */
  method Transcribe(client: Client, audioFile: string, options: TranscriptionOptions, fileExists: bool,
                    response: Result<ApiResponse>, resultId: string, now: int)
    returns (r: Result<TranscriptionResult>, sent: Option<Request>)
    ensures !fileExists ==> r == Err(PlainError("音频文件不存在: " + audioFile)) && sent.None?
    ensures fileExists ==> sent.Some?
    ensures fileExists && client.kind == OpenAIWhisper ==> sent == Some(Form(FormFields(audioFile, options, client.config)))
    ensures fileExists && client.kind == CustomWhisper ==> sent == Some(Json(CustomRequestBody(audioFile, options, client.config)))
    ensures fileExists && response.Err? ==> r == Err(response.error)
    ensures fileExists && response.Ok? ==> r.Ok? && r.value == ResultFrom(resultId, ChosenModel(options, client.config), response.value,
      if client.kind == OpenAIWhisper then 0 else CustomProcessingTime(response.value), now)
  {
    if !fileExists {
      return Err(PlainError("音频文件不存在: " + audioFile)), None;
    }
    if client.kind == OpenAIWhisper {
      var form := OpenAIForm(audioFile, options, client.config);
      sent := Some(Form(form));
    } else {
      sent := Some(Json(CustomRequestBody(audioFile, options, client.config)));
    }
    if response.Err? {
      return Err(response.error), sent;
    }
    var time := if client.kind == OpenAIWhisper then 0 else CustomProcessingTime(response.value);
    r := Ok(ResultFrom(resultId, ChosenModel(options, client.config), response.value, time, now));
  }

  /** `response.data.processing_time || 0`. */
  function CustomProcessingTime(response: ApiResponse): (t: int)
    ensures response.processingTime.None? ==> t == 0
    ensures response.processingTime.Some? ==> t == response.processingTime.value
  {
    if response.processingTime.Some? then response.processingTime.value else 0
  }

  // ---------------------------------------------------------------------
  // Model listings and connection tests
  // ---------------------------------------------------------------------

  /** The OpenAI listing filter: the ids starting with "whisper-", in order. */
  function WhisperModels(ids: seq<string>): (r: seq<string>)
    ensures forall m :: m in r <==> m in ids && StartsWith(m, "whisper-")
    ensures |r| <= |ids|
  {
    if ids == [] then []
    else (if StartsWith(ids[0], "whisper-") then [ids[0]] else []) + WhisperModels(ids[1..])
  }

  /** Filtering a concatenation filters each part; so the order of the kept ids is the listing's. */
  lemma {:induction false} WhisperModelsAppend(a: seq<string>, b: seq<string>)
    ensures WhisperModels(a + b) == WhisperModels(a) + WhisperModels(b)
    decreases |a|
  {
    if a == [] {
      assert a + b == b;
    } else {
      assert (a + b)[0] == a[0] && (a + b)[1..] == a[1..] + b;
      WhisperModelsAppend(a[1..], b);
    }
  }

  /** Filtering twice keeps the same ids. */
  lemma {:induction false} WhisperModelsIdempotent(ids: seq<string>)
    ensures WhisperModels(WhisperModels(ids)) == WhisperModels(ids)
    decreases |ids|
  {
    if ids != [] {
      WhisperModelsIdempotent(ids[1..]);
      var head := if StartsWith(ids[0], "whisper-") then [ids[0]] else [];
      WhisperModelsAppend(head, WhisperModels(ids[1..]));
      if head != [] {
        assert WhisperModels(head) == head by {
          assert head[1..] == [];
        }
      }
    }
  }

  /** A decoded JSON body of the custom `/models` endpoint. */
  datatype Payload = Null | TextValue(text: string) | List(items: seq<string>) | Object(models: Option<Payload>)
  {
    predicate Truthy() { !(Null? || (TextValue? && text == "")) }
  }

  /** `response.data.models || response.data || []`. Reading `models` of a null
      body throws before the fallbacks are reached. */
  function CustomModels(data: Payload): (r: Result<Payload>)
    ensures data.Null? <==> r.Err?
    ensures data.Object? && data.models.Some? && data.models.value.Truthy() ==> r == Ok(data.models.value)
    ensures data.Truthy() && !(data.Object? && data.models.Some? && data.models.value.Truthy()) ==> r == Ok(data)
    ensures data.List? ==> r == Ok(data)
    ensures data == TextValue("") ==> r == Ok(List([]))
  {
    if data.Null? then Err(PlainError("Cannot read properties of null (reading 'models')"))
    else if data.Object? && data.models.Some? && data.models.value.Truthy() then Ok(data.models.value)
    else if data.Truthy() then Ok(data)
    else Ok(List([]))
  }

  /** The endpoint each client probes. */
  function ProbePath(kind: ClientKind): string
  {
    if kind == OpenAIWhisper then "/models" else "/health"
  }

  /** `testConnection`: connected exactly when the probe answered 200; a
      thrown request error is reported as not connected. */
  function TestConnection(status: Result<int>): (connected: bool)
    ensures connected <==> status == Ok(200)
  {
    match status
    case Ok(code) => code == 200
    case Err(_) => false
  }
}
