/** The local decision logic of the service layer: the chat intent router and
    its route table, the chat call it configures, the video-generation poll
    loop and download URL, and the empty-reply rules of the single-shot
    generators. Every reply of the hosted model is a parameter: a function
    from the request the code builds to what the gateway answers. */
module GeminiService {
  import opened Results
  import opened Text

  // ---------------------------------------------------------------------
  // Model identifiers and fixed texts
  // ---------------------------------------------------------------------

  const LiteModel: string := "gemini-flash-lite-latest"
  const FlashModel: string := "gemini-2.5-flash"
  const ProModel: string := "gemini-3-pro-preview"
  const VideoModel: string := "veo-3.1-fast-generate-preview"

  const LiteLabel: string := "Gemini Lite"
  const SearchLabel: string := "Flash + Search"
  const MapsLabel: string := "Flash + Maps"
  const ProLabel: string := "Gemini 3 Pro (Thinking)"

  /** Thinking budget of the COMPLEX chat route. */
  const ComplexThinkingBudget: nat := 2048
  /** Thinking budget of the job-materials generator. */
  const MaterialsThinkingBudget: nat := 32768

  /** The literal that opens the visible reasoning block. */
  const ThinkingMarker: string := "> **Thinking Process:**"

  /** System instruction of the COMPLEX route; it quotes `ThinkingMarker`. */
  const ComplexInstruction: string :=
    "You are a helpful assistant. For this complex task, you must first output your step-by-step reasoning. Format this reasoning as a blockquote starting EXACTLY with '"
    + ThinkingMarker
    + "' followed by your thoughts. After the blockquote, provide the final answer clearly."

  const NoMaterialsError: string := "No response generated"
  const NoVideoUriError: string := "Video generation failed to return a URI"
  const DownloadError: string := "Failed to download generated video"
  const NoAnalysisText: string := "No analysis generated."

  // ---------------------------------------------------------------------
  // Gateway data
  // ---------------------------------------------------------------------

  datatype Role = User | Model

  /** One web or map citation of a grounding chunk. */
  datatype Source = Source(uri: Option<string>, title: Option<string>)

  /** A grounding chunk: a web part, a maps part, both or neither. */
  datatype GroundingChunk = GroundingChunk(web: Option<Source>, maps: Option<Source>)

  datatype GroundingMetadata = GroundingMetadata(groundingChunks: Option<seq<GroundingChunk>>)

  datatype Candidate = Candidate(groundingMetadata: Option<GroundingMetadata>)

  /** What `generateContent` or `sendMessage` returns: the text (absent when
      the model produced none) and the response candidates. */
  datatype GatewayReply = GatewayReply(text: Option<string>, candidates: seq<Candidate>)

  /** The grounding metadata of the first response candidate, absent when
      there is no candidate or it carries none. */
  function FirstGrounding(reply: GatewayReply): (g: Option<GroundingMetadata>)
    ensures reply.candidates == [] ==> g.None?
    ensures reply.candidates != [] ==> g == reply.candidates[0].groundingMetadata
  {
    if |reply.candidates| > 0 then reply.candidates[0].groundingMetadata else None
  }

  // ---------------------------------------------------------------------
  // Intent router
  // ---------------------------------------------------------------------

  datatype Category = Simple | Complex | Search | Maps

  /** The classifier's reply trimmed and upper-cased; COMPLEX when the reply
      has no text or nothing is left of it. */
  function NormalizeIntent(reply: Option<string>): (intent: string)
    ensures intent != ""
    ensures reply.None? || AllWhiteSpace(reply.value) ==> intent == "COMPLEX"
    ensures reply.Some? && !AllWhiteSpace(reply.value) ==> intent == ToUpper(Trim(reply.value))
  {
    if reply.None? then "COMPLEX"
    else
      var upper := ToUpper(Trim(reply.value));
      if upper == "" then "COMPLEX" else upper
  }

  /** The `switch (intent)`: the three other labels are matched exactly and
      every other normalised text takes the `COMPLEX`/`default` branch. */
  function CategoryOf(intent: string): (c: Category)
    ensures c == Simple <==> intent == "SIMPLE"
    ensures c == Search <==> intent == "SEARCH"
    ensures c == Maps <==> intent == "MAPS"
  {
    if intent == "SIMPLE" then Simple
    else if intent == "SEARCH" then Search
    else if intent == "MAPS" then Maps
    else Complex
  }

  /** The category the classifier's reply text selects: COMPLEX for an absent
      or blank reply, else the label the trimmed, upper-cased text names. */
  function Classify(reply: Option<string>): (c: Category)
    ensures reply.None? || AllWhiteSpace(reply.value) ==> c == Complex
    ensures reply.Some? && !AllWhiteSpace(reply.value) ==> c == CategoryOf(ToUpper(Trim(reply.value)))
  {
    CategoryOf(NormalizeIntent(reply))
  }

  /** A normalised intent is already trimmed and upper-cased, so normalising
      it again changes nothing. */
  lemma NormalizeIdempotent(reply: Option<string>)
    ensures NormalizeIntent(Some(NormalizeIntent(reply))) == NormalizeIntent(reply)
  {
    var intent := NormalizeIntent(reply);
    if reply.Some? && ToUpper(Trim(reply.value)) != "" {
      var t := Trim(reply.value);
      assert Trim(intent) == intent by {
        TrimToUpperCommute(t);
        TrimIdempotent(reply.value);
      }
      ToUpperIdempotent(t);
    } else {
      ComplexIsNormal(intent);
    }
  }

  /** "COMPLEX" is its own trimmed, upper-cased form. */
  lemma ComplexIsNormal(c: string)
    requires c == "COMPLEX"
    ensures Trim(c) == c && ToUpper(c) == c
  {
    TrimOfTrimmed(c);
  }

  /** White space around the classifier's reply does not change the intent. */
  lemma NormalizeIgnoresPadding(a: string, t: string, b: string)
    requires AllWhiteSpace(a) && AllWhiteSpace(b)
    ensures NormalizeIntent(Some(a + t + b)) == NormalizeIntent(Some(t))
  {
    TrimIgnoresPadding(a, t, b);
  }

  /** The letter case of the classifier's reply does not change the intent. */
  lemma NormalizeIgnoresCase(t: string)
    ensures NormalizeIntent(Some(ToUpper(t))) == NormalizeIntent(Some(t))
  {
    assert ToUpper(Trim(ToUpper(t))) == ToUpper(Trim(t)) by {
      TrimToUpperCommute(t);
      ToUpperIdempotent(Trim(t));
    }
  }

  /** Surrounding white space and letter case of the classifier's reply do not
      change the category it selects. */
  lemma ClassifyIgnoresPaddingAndCase(a: string, t: string, b: string)
    requires AllWhiteSpace(a) && AllWhiteSpace(b)
    ensures Classify(Some(a + t + b)) == Classify(Some(t))
    ensures Classify(Some(ToUpper(t))) == Classify(Some(t))
  {
    NormalizeIgnoresPadding(a, t, b);
    NormalizeIgnoresCase(t);
  }

  /** A non-empty upper-case text with no white space at either end is its
      own normalised intent. */
  lemma NormalIsFixed(l: string)
    requires l != [] && !IsWhiteSpace(l[0]) && !IsWhiteSpace(l[|l| - 1])
    requires ToUpper(l) == l
    ensures NormalizeIntent(Some(l)) == l
  {
    TrimOfTrimmed(l);
    assert !AllWhiteSpace(l) by { assert !IsWhiteSpace(l[0]); }
  }

  /** A route label is its own normalised intent. */
  lemma LabelIsNormal(l: string)
    requires l in ["SIMPLE", "SEARCH", "MAPS"]
    ensures NormalizeIntent(Some(l)) == l
  {
    assert ToUpper(l) == l;
    NormalIsFixed(l);
  }

  /** A route label in any letter case, with any white space around it,
      selects that label's category. */
  lemma ClassifyPaddedLabel(a: string, t: string, b: string)
    requires AllWhiteSpace(a) && AllWhiteSpace(b)
    requires ToUpper(t) in ["SIMPLE", "SEARCH", "MAPS"]
    ensures Classify(Some(a + t + b)) == CategoryOf(ToUpper(t))
  {
    NormalizeIgnoresPadding(a, t, b);
    NormalizeIgnoresCase(t);
    LabelIsNormal(ToUpper(t));
  }

  /** A lower-case `search` on a line of its own selects the search route. */
  lemma ClassifyExample(reply: string)
    requires reply == " search\n"
    ensures Classify(Some(reply)) == Search
  {
    var a, t, b := reply[..1], reply[1..7], reply[7..];
    assert reply == a + t + b;
    assert AllWhiteSpace(a) && AllWhiteSpace(b) by {
      assert a == [reply[0]] && b == [reply[7]];
    }
    UpperSearch(t);
    ClassifyPaddedLabel(a, t, b);
  }

  /** `search` upper-cases to SEARCH. */
  lemma UpperSearch(t: string)
    requires t == "search"
    ensures ToUpper(t) == "SEARCH"
  {
  }

  /** An absent, empty or blank reply, and any text that does not normalise
      to one of the three other labels (such as "GENERAL"), selects COMPLEX. */
  lemma ClassifyFallsBackToComplex(reply: Option<string>)
    requires reply.None? || AllWhiteSpace(reply.value)
      || NormalizeIntent(reply) !in ["SIMPLE", "SEARCH", "MAPS"]
    ensures Classify(reply) == Complex
  {
  }

  datatype Tool = GoogleSearch | GoogleMaps

  /** The caller's position; the numbers are passed through untouched. */
  datatype Location = Location(lat: real, lng: real)

  /** The caller's position as handed to the map retrieval tool. */
  datatype ToolConfig = RetrievalLatLng(latitude: real, longitude: real)

  /** The route record the `switch` assembles. */
  datatype Route = Route(
    model: string,
    modelLabel: string,
    tools: seq<Tool>,
    toolConfig: Option<ToolConfig>,
    thinkingBudget: Option<nat>,
    systemInstruction: Option<string>)

  /** The route table. */
  function RouteFor(c: Category, location: Option<Location>): (r: Route)
    ensures c == Simple ==> r.model == LiteModel && r.modelLabel == LiteLabel
    ensures c == Search ==> r.model == FlashModel && r.modelLabel == SearchLabel
    ensures c == Maps ==> r.model == FlashModel && r.modelLabel == MapsLabel
    ensures c == Complex ==> r.model == ProModel && r.modelLabel == ProLabel
    ensures r.tools == [] <==> c in {Simple, Complex}
    ensures r.tools == [GoogleSearch] <==> c == Search
    ensures r.tools == [GoogleMaps] <==> c == Maps
    ensures r.toolConfig.Some? <==> c == Maps && location.Some?
    ensures r.toolConfig.Some? ==>
      r.toolConfig.value == RetrievalLatLng(location.value.lat, location.value.lng)
    ensures r.thinkingBudget.Some? <==> c == Complex
    ensures r.thinkingBudget.Some? ==> r.thinkingBudget.value == ComplexThinkingBudget
    ensures r.systemInstruction.Some? <==> c == Complex
    ensures r.systemInstruction.Some? ==> Contains(r.systemInstruction.value, ThinkingMarker)
  {
    match c
    case Simple => Route(LiteModel, LiteLabel, [], None, None, None)
    case Search => Route(FlashModel, SearchLabel, [GoogleSearch], None, None, None)
    case Maps =>
      var config := if location.Some? then Some(RetrievalLatLng(location.value.lat, location.value.lng)) else None;
      Route(FlashModel, MapsLabel, [GoogleMaps], config, None, None)
    case Complex =>
      InstructionQuotesMarker();
      Route(ProModel, ProLabel, [], None, Some(ComplexThinkingBudget), Some(ComplexInstruction))
  }

  /** The COMPLEX system instruction contains the reasoning-block marker. */
  lemma InstructionQuotesMarker()
    ensures Contains(ComplexInstruction, ThinkingMarker)
  {
    var prefix := "You are a helpful assistant. For this complex task, you must first output your step-by-step reasoning. Format this reasoning as a blockquote starting EXACTLY with '";
    var suffix := "' followed by your thoughts. After the blockquote, provide the final answer clearly.";
    assert ComplexInstruction == prefix + ThinkingMarker + suffix;
    assert ComplexInstruction[|prefix|..|prefix| + |ThinkingMarker|] == ThinkingMarker;
    assert OccursAt(ComplexInstruction, ThinkingMarker, |prefix|);
  }

  /** The four routes carry four different labels, so the label shown with a
      reply identifies the route that produced it. */
  lemma RouteLabelsDistinct(c1: Category, c2: Category, l1: Option<Location>, l2: Option<Location>)
    requires c1 != c2
    ensures RouteFor(c1, l1).modelLabel != RouteFor(c2, l2).modelLabel
  {
  }

  // ---------------------------------------------------------------------
  // The configured chat call
  // ---------------------------------------------------------------------

  /** One replayed history entry as the chat view hands it over. */
  datatype Turn = Turn(role: Role, text: string)

  datatype Part = Part(text: string)

  /** One history entry in the gateway's form: its role and one text part. */
  datatype Content = Content(role: Role, parts: seq<Part>)

  /** What `ai.chats.create` and `chat.sendMessage` are given. `tools` is
      absent rather than empty when the route has no tool. */
  datatype ChatRequest = ChatRequest(
    model: string,
    history: seq<Content>,
    tools: Option<seq<Tool>>,
    toolConfig: Option<ToolConfig>,
    thinkingBudget: Option<nat>,
    systemInstruction: Option<string>,
    message: string)

  /** The replay history in the gateway's form, entry for entry. */
  function ToContents(history: seq<Turn>): (cs: seq<Content>)
    ensures |cs| == |history|
    ensures forall i :: 0 <= i < |history| ==> cs[i] == Content(history[i].role, [Part(history[i].text)])
  {
    seq(|history|, i requires 0 <= i < |history| => Content(history[i].role, [Part(history[i].text)]))
  }

  /** Reads the turns back out of single-part contents. */
  function TurnsOf(cs: seq<Content>): (ts: seq<Turn>)
    requires forall i :: 0 <= i < |cs| ==> |cs[i].parts| == 1
    ensures |ts| == |cs|
  {
    seq(|cs|, i requires 0 <= i < |cs| => Turn(cs[i].role, cs[i].parts[0].text))
  }

  /** The history mapping loses nothing: every role and text, in order, can be
      read back from the contents sent. */
  lemma HistoryRoundTrip(history: seq<Turn>)
    ensures forall i :: 0 <= i < |ToContents(history)| ==> |ToContents(history)[i].parts| == 1
    ensures TurnsOf(ToContents(history)) == history
  {
  }

  /** The chat request for a route, the replayed history and the new message. */
  function ChatRequestFor(route: Route, history: seq<Turn>, message: string): (req: ChatRequest)
    ensures req.model == route.model && req.message == message
    ensures req.history == ToContents(history)
    ensures req.tools.None? <==> route.tools == []
    ensures req.tools.Some? ==> req.tools.value == route.tools
    ensures req.toolConfig == route.toolConfig && req.thinkingBudget == route.thinkingBudget
    ensures req.systemInstruction == route.systemInstruction
  {
    ChatRequest(
      route.model,
      ToContents(history),
      if |route.tools| > 0 then Some(route.tools) else None,
      route.toolConfig,
      route.thinkingBudget,
      route.systemInstruction,
      message)
  }

  /** The record `smartChatWithGemini` returns. */
  datatype ChatResult = ChatResult(text: Option<string>, groundingMetadata: Option<GroundingMetadata>, modelUsed: string)

  /** `smartChatWithGemini`: classify the message, configure the chat from the
      route, send the message. `classify` stands for the router call on the
      message, `chat` for the configured chat's reply; a failure of either is
      propagated unchanged. */
  function SmartChat(
    message: string,
    history: seq<Turn>,
    location: Option<Location>,
    classify: string -> Result<Option<string>>,
    chat: ChatRequest -> Result<GatewayReply>): (r: Result<ChatResult>)
    ensures classify(message).Err? ==> r == Err(classify(message).error)
    ensures classify(message).Ok? ==>
      var route := RouteFor(Classify(classify(message).value), location);
      var reply := chat(ChatRequestFor(route, history, message));
      && (reply.Err? ==> r == Err(reply.error))
      && (reply.Ok? ==> r == Ok(ChatResult(reply.value.text, FirstGrounding(reply.value), route.modelLabel)))
    ensures r.Ok? ==> r.value.modelUsed in [LiteLabel, SearchLabel, MapsLabel, ProLabel]
  {
    match classify(message)
    case Err(e) => Err(e)
    case Ok(intentText) =>
      var route := RouteFor(Classify(intentText), location);
      match chat(ChatRequestFor(route, history, message))
      case Err(e) => Err(e)
      case Ok(reply) => Ok(ChatResult(reply.text, FirstGrounding(reply), route.modelLabel))
  }

  // ---------------------------------------------------------------------
  // Single-shot generators
  // ---------------------------------------------------------------------

  /** The parsed job materials. */
  datatype JobMaterials = JobMaterials(jobDescription: string, interviewQuestions: seq<string>)

  /** The materials call: Pro model, thinking budget, JSON with both fields required. */
  datatype MaterialsRequest = MaterialsRequest(
    model: string, notes: string, thinkingBudget: nat, responseMimeType: string, requiredFields: seq<string>)

  function MaterialsRequestFor(notes: string): (req: MaterialsRequest)
    ensures req.model == ProModel && req.notes == notes && req.thinkingBudget == MaterialsThinkingBudget
    ensures req.responseMimeType == "application/json"
    ensures req.requiredFields == ["jobDescription", "interviewQuestions"]
  {
    MaterialsRequest(ProModel, notes, MaterialsThinkingBudget, "application/json", ["jobDescription", "interviewQuestions"])
  }

  /** `generateRecruitmentMaterials`: an absent or empty reply text is an
      error raised before parsing; otherwise the text is handed to `parse`,
      which stands for `JSON.parse` with its cast. */
  function GenerateRecruitmentMaterials(
    notes: string,
    generate: MaterialsRequest -> Result<Option<string>>,
    parse: string -> Result<JobMaterials>): (r: Result<JobMaterials>)
    ensures generate(MaterialsRequestFor(notes)).Err? ==> r == Err(generate(MaterialsRequestFor(notes)).error)
    ensures generate(MaterialsRequestFor(notes)).Ok? ==>
      var text := generate(MaterialsRequestFor(notes)).value;
      if IsTruthy(text) then r == parse(text.value) else r == Err(NoMaterialsError)
  {
    match generate(MaterialsRequestFor(notes))
    case Err(e) => Err(e)
    case Ok(text) => if IsTruthy(text) then parse(text.value) else Err(NoMaterialsError)
  }

  /** The job search call: Flash model with the web search tool. */
  datatype SearchRequest = SearchRequest(model: string, role: string, location: string, tools: seq<Tool>)

  datatype SearchResult = SearchResult(text: Option<string>, groundingMetadata: Option<GroundingMetadata>)

  /** `searchJobs`: the reply text and first candidate's grounding, passed through. */
  function SearchJobs(role: string, location: string, generate: SearchRequest -> Result<GatewayReply>): (r: Result<SearchResult>)
    ensures
      var reply := generate(SearchRequest(FlashModel, role, location, [GoogleSearch]));
      && (reply.Err? ==> r == Err(reply.error))
      && (reply.Ok? ==> r == Ok(SearchResult(reply.value.text, FirstGrounding(reply.value))))
  {
    match generate(SearchRequest(FlashModel, role, location, [GoogleSearch]))
    case Err(e) => Err(e)
    case Ok(reply) => Ok(SearchResult(reply.text, FirstGrounding(reply)))
  }

  /** The analysis call: Pro model, the inline media (its base64 payload,
      absent when the data URL had none) and the question. */
  datatype AnalysisRequest = AnalysisRequest(model: string, data: Option<string>, mimeType: string, prompt: string)

  /** `analyzeImage` and `analyzeVideo`, whose bodies are the same: the reply
      text, or a fixed notice when the model returned none. */
  function AnalyzeMedia(
    data: Option<string>, mimeType: string, prompt: string,
    generate: AnalysisRequest -> Result<Option<string>>): (r: Result<string>)
    ensures r.Ok? <==> generate(AnalysisRequest(ProModel, data, mimeType, prompt)).Ok?
    ensures r.Ok? ==> r.value != ""
    ensures r.Ok? ==>
      var text := generate(AnalysisRequest(ProModel, data, mimeType, prompt)).value;
      r.value == if IsTruthy(text) then text.value else NoAnalysisText
  {
    match generate(AnalysisRequest(ProModel, data, mimeType, prompt))
    case Err(e) => Err(e)
    case Ok(text) => Ok(OrElse(text, NoAnalysisText))
  }

  // ---------------------------------------------------------------------
  // Video generation
  // ---------------------------------------------------------------------

  datatype AspectRatio = Landscape | Portrait  // '16:9' | '9:16'

  datatype InlineImage = InlineImage(imageBytes: string, mimeType: string)

  datatype VideoRequest = VideoRequest(
    model: string, prompt: string, image: Option<InlineImage>,
    numberOfVideos: nat, resolution: string, aspectRatio: AspectRatio)

  /** The `generateVideos` request: the reference image is sent, always as
      PNG, only when its base64 text is present and non-empty. */
  function VideoRequestFor(prompt: string, aspectRatio: AspectRatio, imageBase64: Option<string>): (req: VideoRequest)
    ensures req.model == VideoModel && req.prompt == prompt && req.aspectRatio == aspectRatio
    ensures req.numberOfVideos == 1 && req.resolution == "720p"
    ensures req.image.Some? <==> IsTruthy(imageBase64)
    ensures req.image.Some? ==> req.image.value == InlineImage(imageBase64.value, "image/png")
  {
    var image := if IsTruthy(imageBase64) then Some(InlineImage(imageBase64.value, "image/png")) else None;
    VideoRequest(VideoModel, prompt, image, 1, "720p", aspectRatio)
  }

  /** A long-running generation as the gateway reports it. */
  datatype Operation = Operation(done: bool, videoUri: Option<string>)

  /** A status answer that ends the wait: a failed call or a finished operation. */
  predicate Settled(status: Result<Operation>) {
    status.Err? || status.value.done
  }

  /** Some answer of the finite status sequence `statuses` ends the wait. */
  predicate EventuallySettles(statuses: seq<Result<Operation>>) {
    exists k | 0 <= k < |statuses| :: Settled(statuses[k])
  }

  /** Position of the first status that ends the wait: the number of
      not-done statuses before it. */
  function FirstSettled(statuses: seq<Result<Operation>>): (k: nat)
    requires exists k | 0 <= k < |statuses| :: Settled(statuses[k])
    ensures k < |statuses| && Settled(statuses[k])
    ensures forall j :: 0 <= j < k ==> statuses[j].Ok? && !statuses[j].value.done
  {
    if Settled(statuses[0]) then 0
    else
      var k :| 0 <= k < |statuses| && Settled(statuses[k]);
      assert Settled(statuses[1..][k - 1]);
      1 + FirstSettled(statuses[1..])
  }

  /** The media URL with the credential appended as a query parameter. */
  function DownloadUrl(uri: string, apiKey: string): (url: string)
    ensures |url| == |uri| + 5 + |apiKey|
    ensures url[..|uri|] == uri && url[|uri|..|uri| + 5] == "&key=" && url[|uri| + 5..] == apiKey
  {
    uri + "&key=" + apiKey
  }

  /** What `fetch` returned: `ok`, and the object URL made from its blob. */
  datatype Download = Download(ok: bool, objectUrl: string)

  /** The outcome of one video generation: the object URL or the error, the
      number of delayed re-checks, and the URL fetched (absent when none was). */
  datatype VideoRun = VideoRun(result: Result<string>, rechecks: nat, fetched: Option<string>)

  /** The outcome of the wait and download once the job was submitted. */
  function VideoRunFor(
    submitted: Result<Operation>,
    polls: seq<Result<Operation>>,
    apiKey: string,
    fetch: string -> Result<Download>): (run: VideoRun)
    requires EventuallySettles([submitted] + polls)
    ensures submitted.Err? ==> run == VideoRun(Err(submitted.error), 0, None)
    ensures submitted.Ok? ==>
      var statuses := [submitted] + polls;
      && run.rechecks < |statuses| && Settled(statuses[run.rechecks])
      && (forall j :: 0 <= j < run.rechecks ==> statuses[j].Ok? && !statuses[j].value.done)
      && (statuses[run.rechecks].Err? ==> run.result == Err(statuses[run.rechecks].error) && run.fetched.None?)
      && (statuses[run.rechecks].Ok? ==>
            var op := statuses[run.rechecks].value;
            && (!IsTruthy(op.videoUri) ==> run.result == Err(NoVideoUriError) && run.fetched.None?)
            && (IsTruthy(op.videoUri) ==>
                  && run.fetched == Some(DownloadUrl(op.videoUri.value, apiKey))
                  && run.result == DownloadResult(fetch(run.fetched.value))))
  {
    if submitted.Err? then VideoRun(Err(submitted.error), 0, None)
    else
      var statuses := [submitted] + polls;
      var n := FirstSettled(statuses);
      match statuses[n]
      case Err(e) => VideoRun(Err(e), n, None)
      case Ok(op) =>
        if !IsTruthy(op.videoUri) then VideoRun(Err(NoVideoUriError), n, None)
        else
          var url := DownloadUrl(op.videoUri.value, apiKey);
          VideoRun(DownloadResult(fetch(url)), n, Some(url))
  }

  /** A failed fetch propagates its error; a response that is not `ok` is the
      download error; otherwise the object URL. */
  function DownloadResult(response: Result<Download>): (r: Result<string>)
    ensures response.Err? ==> r == Err(response.error)
    ensures response.Ok? && !response.value.ok ==> r == Err(DownloadError)
    ensures response.Ok? && response.value.ok ==> r == Ok(response.value.objectUrl)
  {
    match response
    case Err(e) => Err(e)
    case Ok(d) => if d.ok then Ok(d.objectUrl) else Err(DownloadError)
  }

  /** `generateRecruitmentVideo`: submit, then while the operation is not done
      wait and fetch its status again, then check the URI and download.
      `submit` stands for `generateVideos`, `polls` for the successive answers
      of `getVideosOperation`, `fetch` for the media download. */
  method GenerateRecruitmentVideo(
    prompt: string,
    aspectRatio: AspectRatio,
    imageBase64: Option<string>,
    apiKey: string,
    submit: VideoRequest -> Result<Operation>,
    polls: seq<Result<Operation>>,
    fetch: string -> Result<Download>)
    returns (result: Result<string>, rechecks: nat, fetched: Option<string>)
    requires EventuallySettles([submit(VideoRequestFor(prompt, aspectRatio, imageBase64))] + polls)
    ensures VideoRun(result, rechecks, fetched)
      == VideoRunFor(submit(VideoRequestFor(prompt, aspectRatio, imageBase64)), polls, apiKey, fetch)
  {
    var submitted := submit(VideoRequestFor(prompt, aspectRatio, imageBase64));
    rechecks, fetched := 0, None;
    if submitted.Err? {
      result := Err(submitted.error);
      return;
    }
    ghost var statuses := [submitted] + polls;
    var operation := submitted.value;
    while !operation.done
      invariant rechecks <= |polls| && statuses[rechecks] == Ok(operation)
      invariant forall j :: 0 <= j < rechecks ==> statuses[j].Ok? && !statuses[j].value.done
      decreases |polls| - rechecks
    {
      ghost var k :| 0 <= k < |statuses| && Settled(statuses[k]);
      assert k > rechecks;
      var status := polls[rechecks];
      rechecks := rechecks + 1;
      if status.Err? {
        result := Err(status.error);
        FirstSettledIs(statuses, rechecks);
        return;
      }
      operation := status.value;
    }
    FirstSettledIs(statuses, rechecks);
    var uri := operation.videoUri;
    if !IsTruthy(uri) {
      result := Err(NoVideoUriError);
      return;
    }
    var url := DownloadUrl(uri.value, apiKey);
    fetched := Some(url);
    result := DownloadResult(fetch(url));
  }

  /** The first settled position is the one every earlier position precedes. */
  lemma FirstSettledIs(statuses: seq<Result<Operation>>, k: nat)
    requires k < |statuses| && Settled(statuses[k])
    requires forall j :: 0 <= j < k ==> statuses[j].Ok? && !statuses[j].value.done
    ensures FirstSettled(statuses) == k
  {
  }
}
