/** The media lab panel: video generation from a prompt and an optional
    reference image, and analysis of an uploaded image or video clip. */
module MediaLab {
  import opened Results
  import opened Text
  import opened GeminiService

  /** The three tool tabs. */
  datatype MediaTool = VideoGen | ImageAnalyze | VideoAnalyze

  /** Largest video clip, in bytes, the panel sends for analysis: 20 MiB. */
  const MaxVideoBytes: nat := 20 * 1024 * 1024

  const DefaultVideoPrompt: string := "animate this"
  const DefaultImageQuestion: string := "Analyze this image for recruitment purposes."
  const DefaultVideoQuestion: string := "Describe the key events in this video."

  const TooLargeAlert: string := "For this demo, please use video clips under 20MB."
  const FailureAlert: string := "Action failed. Check console or ensure valid API Key."

  /** A chosen file: its size, its MIME type, and what reading it as a data
      URL yields (the URL, or the reader's error). */
  datatype MediaFile = MediaFile(size: nat, mimeType: string, dataUrl: Result<string>)

  /** Position of the first `c` in `s`. */
  function IndexOf(s: string, c: char): (i: Option<nat>)
    ensures i.None? <==> c !in s
    ensures i.Some? ==> i.value < |s| && s[i.value] == c && c !in s[..i.value]
  {
    if s == [] then None
    else if s[0] == c then Some(0)
    else
      var rest := IndexOf(s[1..], c);
      assert s == [s[0]] + s[1..];
      if rest.None? then None
      else
        assert s[..rest.value + 1] == [s[0]] + s[1..][..rest.value];
        Some(rest.value + 1)
  }

  /** The base64 payload `fileToBase64` takes from a data URL: the text
      between the first comma and the next one, or the end; absent without
      a comma. */
  function Base64Payload(dataUrl: string): (payload: Option<string>)
    ensures payload.None? <==> ',' !in dataUrl
    ensures payload.Some? ==> ',' !in payload.value
    ensures payload.Some? ==> exists i :: PayloadAt(dataUrl, i, payload.value)
  {
    match IndexOf(dataUrl, ',')
    case None => None
    case Some(i) =>
      var rest := dataUrl[i + 1..];
      match IndexOf(rest, ',')
      case None =>
        assert PayloadAt(dataUrl, i, rest);
        Some(rest)
      case Some(j) =>
        assert rest[..j] == dataUrl[i + 1..i + 1 + j];
        assert PayloadAt(dataUrl, i, rest[..j]);
        Some(rest[..j])
  }

  /** `payload` follows the first comma of `dataUrl`, at `i`, and is ended by
      the next comma or by the end of the text. */
  predicate PayloadAt(dataUrl: string, i: nat, payload: string) {
    && i < |dataUrl| && dataUrl[i] == ',' && ',' !in dataUrl[..i]
    && i + 1 + |payload| <= |dataUrl|
    && dataUrl[i + 1..i + 1 + |payload|] == payload
    && (i + 1 + |payload| == |dataUrl| || dataUrl[i + 1 + |payload|] == ',')
  }

  /** A data URL built from a comma-free header and payload yields the payload. */
  lemma {:induction false} PayloadRoundTrip(header: string, payload: string)
    requires ',' !in header && ',' !in payload
    ensures Base64Payload(header + "," + payload) == Some(payload)
  {
    var url := header + "," + payload;
    assert url[|header|] == ',';
    assert url[..|header|] == header;
    IndexOfIs(url, ',', |header|);
    assert url[|header| + 1..] == payload;
  }

  /** `IndexOf` finds the first occurrence. */
  lemma IndexOfIs(s: string, c: char, i: nat)
    requires i < |s| && s[i] == c && c !in s[..i]
    ensures IndexOf(s, c) == Some(i)
  {
  }

  /** What `executeAction` does with the panel's current state. */
  datatype Plan =
    | Skip                                            // a guard returned at once
    | TooLarge                                        // the 20 MiB rule refused the clip
    | ReadFailed(error: string)                       // reading the file failed
    | GenerateVideo(prompt: string, aspectRatio: AspectRatio, imageBase64: Option<string>)
    | Analyze(data: Option<string>, mimeType: string, prompt: string)

  /** The first two guards of `executeAction`: video generation needs a
      prompt or a file, analysis needs a file. */
  predicate Skipped(tool: MediaTool, prompt: string, file: Option<MediaFile>)
    ensures Skipped(tool, prompt, file) <==> file.None? && (tool != VideoGen || prompt == "")
  {
    (tool == VideoGen && prompt == "" && file.None?) || (tool != VideoGen && file.None?)
  }

  /** The base64 text `fileToBase64` resolves with, or the reader's error. */
  function ReadBase64(f: MediaFile): (r: Result<Option<string>>)
    ensures r.Err? <==> f.dataUrl.Err?
    ensures r.Ok? ==> r.value == Base64Payload(f.dataUrl.value)
  {
    match f.dataUrl
    case Err(e) => Err(e)
    case Ok(url) => Ok(Base64Payload(url))
  }

  /** What `executeAction` will do: its two guards, the 20 MiB rule, the
      reader's failure, and the defaults for an empty prompt or question. */
  function PlanFor(tool: MediaTool, prompt: string, file: Option<MediaFile>, aspectRatio: AspectRatio): (plan: Plan)
    ensures
      && (plan.Skip? <==> Skipped(tool, prompt, file))
      && (plan.TooLarge? <==> tool == VideoAnalyze && file.Some? && file.value.size > MaxVideoBytes)
      && (plan.ReadFailed? <==>
            !Skipped(tool, prompt, file) && file.Some? && file.value.dataUrl.Err?
            && !(tool == VideoAnalyze && file.value.size > MaxVideoBytes))
      && (plan.GenerateVideo? <==> tool == VideoGen && !Skipped(tool, prompt, file) && !plan.ReadFailed?)
      && (plan.GenerateVideo? ==>
            && plan.prompt == (if prompt == "" then DefaultVideoPrompt else prompt)
            && plan.aspectRatio == aspectRatio
            && plan.imageBase64 == (if file.None? then None else Base64Payload(file.value.dataUrl.value)))
      && (plan.Analyze? ==>
            && tool != VideoGen && file.Some?
            && plan.data == Base64Payload(file.value.dataUrl.value)
            && plan.mimeType == file.value.mimeType
            && plan.prompt == (if prompt != "" then prompt
                               else if tool == ImageAnalyze then DefaultImageQuestion
                               else DefaultVideoQuestion))
  {
    if Skipped(tool, prompt, file) then Skip
    else if tool == VideoGen then
      if file.None? then GenerateVideo(prompt, aspectRatio, None)
      else
        match ReadBase64(file.value)
        case Err(e) => ReadFailed(e)
        case Ok(data) => GenerateVideo(OrElse(Some(prompt), DefaultVideoPrompt), aspectRatio, data)
    else if tool == VideoAnalyze && file.value.size > MaxVideoBytes then TooLarge
    else
      match ReadBase64(file.value)
      case Err(e) => ReadFailed(e)
      case Ok(data) =>
        var question := if tool == ImageAnalyze then DefaultImageQuestion else DefaultVideoQuestion;
        Analyze(data, file.value.mimeType, OrElse(Some(prompt), question))
  }

  /** No clip over 20 MiB is ever read or sent for analysis, whatever the prompt. */
  lemma OversizeClipNeverSent(prompt: string, file: MediaFile)
    requires file.size > MaxVideoBytes
    ensures PlanFor(VideoAnalyze, prompt, Some(file), Landscape) == TooLarge
    ensures PlanFor(VideoAnalyze, prompt, Some(file), Portrait) == TooLarge
  {
  }

  /** The bound is inclusive: a clip of exactly 20 MiB is sent, one byte more is not. */
  lemma SizeBoundary(prompt: string, mimeType: string, url: string)
    ensures PlanFor(VideoAnalyze, prompt, Some(MediaFile(20971520, mimeType, Ok(url))), Landscape).Analyze?
    ensures PlanFor(VideoAnalyze, prompt, Some(MediaFile(20971521, mimeType, Ok(url))), Landscape) == TooLarge
    ensures PlanFor(VideoAnalyze, prompt, Some(MediaFile(15 * 1024 * 1024, mimeType, Ok(url))), Landscape).Analyze?
    ensures PlanFor(VideoAnalyze, prompt, Some(MediaFile(25 * 1024 * 1024, mimeType, Ok(url))), Landscape) == TooLarge
  {
  }

  /** Everything the panel's calls into the service receive: the replies of
      the video job, of its status checks and download, and of the analysis. */
  datatype MediaGateway = MediaGateway(
    apiKey: string,
    submit: VideoRequest -> Result<Operation>,
    polls: seq<Result<Operation>>,
    fetch: string -> Result<Download>,
    analyze: AnalysisRequest -> Result<Option<string>>)

  /** For a video plan: the submitted job, or one of the status answers
      after it, ends the wait. */
  predicate WaitEnds(plan: Plan, gw: MediaGateway) {
    plan.GenerateVideo? ==>
      EventuallySettles([gw.submit(VideoRequestFor(plan.prompt, plan.aspectRatio, plan.imageBase64))] + gw.polls)
  }

  /** What a plan that went ahead produced: the output, or an error. */
  function PlanOutcome(plan: Plan, gw: MediaGateway): (r: Result<string>)
    requires !plan.Skip?
    requires WaitEnds(plan, gw)
    ensures plan.TooLarge? ==> r.Err?
    ensures plan.ReadFailed? ==> r == Err(plan.error)
    ensures plan.GenerateVideo? ==>
      r == VideoRunFor(gw.submit(VideoRequestFor(plan.prompt, plan.aspectRatio, plan.imageBase64)),
                       gw.polls, gw.apiKey, gw.fetch).result
    ensures plan.Analyze? ==> r == AnalyzeMedia(plan.data, plan.mimeType, plan.prompt, gw.analyze)
  {
    match plan
    case TooLarge => Err(TooLargeAlert)
    case ReadFailed(e) => Err(e)
    case GenerateVideo(p, a, img) =>
      VideoRunFor(gw.submit(VideoRequestFor(p, a, img)), gw.polls, gw.apiKey, gw.fetch).result
    case Analyze(data, mime, p) => AnalyzeMedia(data, mime, p, gw.analyze)
  }

  class MediaLabPanel {
    var activeTool: MediaTool
    var loading: bool
    var prompt: string
    /** The video URL or the analysis text; empty when there is none. */
    var output: string
    var file: Option<MediaFile>
    var preview: Option<string>
    var aspectRatio: AspectRatio

    /** A preview is only shown for a chosen file, and no output is shown
        while an action runs. */
    ghost predicate Valid()
      reads this
    {
      (preview.Some? ==> file.Some?) && (loading ==> output == "")
    }

    constructor ()
      ensures Valid()
      ensures activeTool == VideoGen && !loading && prompt == "" && output == ""
      ensures file.None? && preview.None? && aspectRatio == Landscape
    {
      activeTool := VideoGen;
      loading := false;
      prompt := "";
      output := "";
      file := None;
      preview := None;
      aspectRatio := Landscape;
    }

    /** A tool tab: switch tools and drop the output, the file and its preview. */
    method SelectTool(tool: MediaTool)
      requires Valid()
      modifies this`activeTool, this`output, this`file, this`preview
      ensures Valid()
      ensures activeTool == tool && output == "" && file.None? && preview.None?
    {
      activeTool := tool;
      output := "";
      file := None;
      preview := None;
    }

    method EditPrompt(text: string)
      modifies this`prompt
      ensures prompt == text
    {
      prompt := text;
    }

    method SelectAspectRatio(ratio: AspectRatio)
      modifies this`aspectRatio
      ensures aspectRatio == ratio
    {
      aspectRatio := ratio;
    }

    /** `handleFileChange`: a chosen file replaces the current one; its data
        URL becomes the preview once read, and a failed read leaves the old
        preview. Choosing nothing changes nothing. */
    method ChooseFile(chosen: Option<MediaFile>)
      requires Valid()
      modifies this`file, this`preview
      ensures Valid()
      ensures chosen.None? ==> file == old(file) && preview == old(preview)
      ensures chosen.Some? ==> file == chosen
      ensures chosen.Some? && chosen.value.dataUrl.Ok? ==> preview == Some(chosen.value.dataUrl.value)
      ensures chosen.Some? && chosen.value.dataUrl.Err? ==> preview == old(preview)
    {
      if chosen.Some? {
        file := chosen;
        if chosen.value.dataUrl.Ok? {
          preview := Some(chosen.value.dataUrl.value);
        }
      }
    }

    /** The button on the preview: drop the file and its preview. */
    method ClearFile()
      requires Valid()
      modifies this`file, this`preview
      ensures Valid()
      ensures file.None? && preview.None?
    {
      file := None;
      preview := None;
    }

    /** `executeAction`. A guarded run changes nothing. Any other run clears
        the output, shows the service's result or raises an alert, and
        always ends with `loading` false. */
    method ExecuteAction(gw: MediaGateway) returns (plan: Plan, alert: Option<string>)
      requires Valid()
      requires WaitEnds(PlanFor(activeTool, prompt, file, aspectRatio), gw)
      modifies this`loading, this`output
      ensures Valid()
      ensures plan == PlanFor(old(activeTool), old(prompt), old(file), old(aspectRatio))
      ensures plan.Skip? ==> loading == old(loading) && output == old(output) && alert.None?
      ensures !plan.Skip? ==> !loading
      ensures !plan.Skip? && PlanOutcome(plan, gw).Ok? ==>
        output == PlanOutcome(plan, gw).value && alert.None?
      ensures plan.TooLarge? ==> output == "" && alert == Some(TooLargeAlert)
      ensures !plan.Skip? && !plan.TooLarge? && PlanOutcome(plan, gw).Err? ==>
        output == "" && alert == Some(FailureAlert)
    {
      plan := PlanFor(activeTool, prompt, file, aspectRatio);
      alert := None;
      if plan.Skip? {
        return;
      }
      loading := true;
      output := "";
      if plan.TooLarge? {
        alert := Some(TooLargeAlert);
        loading := false;
        return;
      }
      var outcome: Result<string>;
      if plan.GenerateVideo? {
        var rechecks, fetched;
        outcome, rechecks, fetched := GenerateRecruitmentVideo(
          plan.prompt, plan.aspectRatio, plan.imageBase64, gw.apiKey, gw.submit, gw.polls, gw.fetch);
      } else if plan.Analyze? {
        outcome := AnalyzeMedia(plan.data, plan.mimeType, plan.prompt, gw.analyze);
      } else {
        outcome := Err(plan.error);
      }
      if outcome.Ok? {
        output := outcome.value;
      } else {
        alert := Some(FailureAlert);
      }
      loading := false;
    }
  }
}
