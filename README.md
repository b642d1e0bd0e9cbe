# Recruitment studio core, in Dafny

A model of the decision logic of a browser-based recruitment studio. The
studio sits on top of a hosted generative-AI gateway. The model covers:

- **Chat intent router.** A classifier call labels the user's message as
  SIMPLE, COMPLEX, SEARCH or MAPS. The label picks the chat model, its tools,
  an optional location config, a thinking budget, a system instruction and
  the label shown next to the reply.
- **Chat session.** A guarded send appends the user message, replays the
  last ten messages as history and appends the reply or an error notice.
- **Visible-reasoning split.** A reply that contains a line starting with
  `> **Thinking Process:**` is shown as a reasoning block and an answer.
- **Grounding sources.** The chat view shows web or maps sources. The job
  radar shows web sources only.
- **Model badge.** The badge style is chosen from the model label.
- **Tool panels.** These are the media lab (video generation, image and
  video analysis, with its 20 MiB rule), the job radar and the role creator.
  Each has a submit guard and an idle → loading → result / failure handler.
- **Video job.** A video generation is submitted, its status is polled until
  it is done, its URI is checked and it is downloaded.

Every reply of the gateway is an input: a function from the request to a
`Result`, or, for the status polls, a sequence of answers. A call that
throws is an `Err`. The API key is a parameter.

Modules follow the source files:

- `Results`: Option, Result and the filter used by the source lists.
- `Text`: JavaScript `trim`, `toUpperCase`, `includes` and string truthiness.
- `GeminiService`: `services/geminiService.ts`.
- `ChatBot`: `components/ChatBot.tsx`.
- `MediaLab`: `components/MediaLab.tsx`.
- `JobTracker`: `components/JobTracker.tsx`.
- `JobGenerator`: `components/JobGenerator.tsx`.

The pure logic is functions and lemmas. Each panel is a class whose methods
update its fields. The video wait is a method with a `while` loop, proved
against the function `VideoRunFor`.

## Model

| member | source | states |
|---|---|---|
| Results.FilterMap | components/ChatBot.tsx:193-198 | the rendered list of a `map` that returns `null` for dropped chunks is no longer than the chunk list |
| Results.FilterMapMembers | components/ChatBot.tsx:193-198 | every kept chunk's item is in the list, and every item of the list comes from some chunk |
| Results.FilterMapConcat | components/JobTracker.tsx:101-117 | filtering distributes over concatenation, so kept items stay in chunk order |
| Text.Trim | services/geminiService.ts:88 | `trim` never lengthens the text; `TrimCuts` and `TrimIsEmpty` state which slice it is |
| Text.TrimCuts | services/geminiService.ts:88 | `trim` returns a slice of the text with only white space cut on either side, and the slice neither starts nor ends with white space |
| Text.TrimIsEmpty | services/geminiService.ts:88 | `trim` gives the empty string exactly when the text is all white space |
| Text.TrimEnds | services/geminiService.ts:88 | a trimmed text neither starts nor ends with white space |
| Text.TrimIdempotent | components/ChatBot.tsx:102-108 | trimming twice is trimming once |
| Text.TrimIsUnique | services/geminiService.ts:88 | any slice with white space on both sides and non-white ends is what `trim` returns |
| Text.TrimIgnoresPadding | services/geminiService.ts:88 | extra white space around a text does not change its trimmed form |
| Text.UpperChar | services/geminiService.ts:88 | each of a–z becomes its capital, `ı` becomes `I`, `ſ` becomes `S`, and every other character is kept; so white space stays white space and no a–z, `ı` or `ſ` is left |
| Text.ToUpper | services/geminiService.ts:88 | `toUpperCase` keeps the length and maps each character on its own with `UpperChar` |
| Text.ToUpperIdempotent | services/geminiService.ts:88 | upper-casing twice is upper-casing once |
| Text.TrimToUpperCommute | services/geminiService.ts:88 | trimming and upper-casing commute |
| Text.OrElse | components/ChatBot.tsx:60 | `s \|\| fallback`: the text when present and non-empty, else the fallback |
| GeminiService.FirstGrounding | services/geminiService.ts:155 | `candidates?.[0]?.groundingMetadata`: absent without candidates, else the first candidate's |
| GeminiService.NormalizeIntent | services/geminiService.ts:88 | the intent is never empty; an absent or blank reply gives COMPLEX; otherwise the reply trimmed and upper-cased |
| GeminiService.CategoryOf | services/geminiService.ts:98-134 | SIMPLE, SEARCH and MAPS are matched exactly (both directions); every other intent takes the COMPLEX/default branch |
| GeminiService.Classify | services/geminiService.ts:88-134 | an absent or blank reply selects COMPLEX; any other reply selects the category of its trimmed, upper-cased text |
| GeminiService.NormalizeIdempotent | services/geminiService.ts:88 | normalising a normalised intent changes nothing |
| GeminiService.NormalizeIgnoresPadding | services/geminiService.ts:88 | white space around the reply does not change the intent |
| GeminiService.NormalizeIgnoresCase | services/geminiService.ts:88 | the reply's letter case does not change the intent |
| GeminiService.ClassifyIgnoresPaddingAndCase | services/geminiService.ts:88 | white space around the reply and its letter case do not change the category |
| GeminiService.NormalIsFixed | services/geminiService.ts:88 | a non-empty upper-case text without white space at its ends is its own intent |
| GeminiService.LabelIsNormal | services/geminiService.ts:88 | SIMPLE, SEARCH and MAPS are their own intents |
| GeminiService.ClassifyPaddedLabel | services/geminiService.ts:88-134 | a route label in any letter case, with white space around it, selects that label's category |
| GeminiService.ClassifyExample | services/geminiService.ts:88-134 | the reply " search" followed by a line break selects the search route |
| GeminiService.ClassifyFallsBackToComplex | services/geminiService.ts:88-134 | an absent or blank reply, or any other label such as "GENERAL", selects COMPLEX |
| GeminiService.RouteFor | services/geminiService.ts:90-134 | per category: model id and label; tools exactly `googleSearch` for SEARCH, `googleMaps` for MAPS, none otherwise; a lat/lng config iff MAPS with a location; thinking budget 2048 and the instruction with the marker iff COMPLEX |
| GeminiService.InstructionQuotesMarker | services/geminiService.ts:132 | the COMPLEX system instruction contains `> **Thinking Process:**` |
| GeminiService.RouteLabelsDistinct | services/geminiService.ts:101-129 | the four routes carry four different labels |
| GeminiService.ToContents | services/geminiService.ts:139-142 | history mapping keeps length and order; each turn becomes one content with one text part |
| GeminiService.HistoryRoundTrip | services/geminiService.ts:139-142 | every role and text can be read back from the contents, in order |
| GeminiService.ChatRequestFor | services/geminiService.ts:137-151 | the chat gets the route's model, tool config, budget and instruction; `tools` is absent when the route has none; the new message is sent apart from the history |
| GeminiService.SmartChat | services/geminiService.ts:63-158 | router or chat failures propagate; the result carries the reply text, the first candidate's grounding and the route's label; `modelUsed` is one of the four labels |
| GeminiService.MaterialsRequestFor | services/geminiService.ts:28-52 | Pro model, thinking budget 32768, JSON with both fields required |
| GeminiService.GenerateRecruitmentMaterials | services/geminiService.ts:54-57 | an absent or empty reply text is the "No response generated" error, raised before parsing; otherwise the parse result |
| GeminiService.SearchJobs | services/geminiService.ts:173-198 | the search uses the Flash model with only the search tool and returns text and first grounding unchanged |
| GeminiService.AnalyzeMedia | services/geminiService.ts:251-297 | the Pro model gets the media and the question; an absent or empty text becomes "No analysis generated."; a successful result is never empty |
| GeminiService.VideoRequestFor | services/geminiService.ts:211-233 | one 720p video at the chosen aspect ratio; the image is sent, as PNG, iff its base64 text is non-empty |
| GeminiService.FirstSettled | services/geminiService.ts:235-238 | the index of the first status that is a failure or done; every earlier one is a not-done success |
| GeminiService.DownloadUrl | services/geminiService.ts:244 | the URI, then `&key=`, then the key |
| GeminiService.VideoRunFor | services/geminiService.ts:203-249 | re-checks equal the not-done statuses before the first settled one; a failed status propagates; a done job without a URI is the "failed to return a URI" error and nothing is fetched; else the download URL is fetched and its outcome returned |
| GeminiService.DownloadResult | services/geminiService.ts:244-248 | a response that is not `ok` is the download error; otherwise its object URL |
| GeminiService.GenerateRecruitmentVideo | services/geminiService.ts:203-249 | the loop's result, re-check count and fetched URL are those of `VideoRunFor` |
| GeminiService.FirstSettledIs | services/geminiService.ts:235-238 | the loop stops at the first status that is done or failed, and at no earlier one |
| ChatBot.FindMarkerLine | components/ChatBot.tsx:80 | the first position where the marker starts the text or a line |
| ChatBot.FindThoughtsEnd | components/ChatBot.tsx:80 | the lazy group ends at the first `\n\n` or at the end of the text |
| ChatBot.SplitThinking | components/ChatBot.tsx:80-118 | a message without a marker line is rendered as its own text |
| ChatBot.SplitAtFirstMarker | components/ChatBot.tsx:80-85 | the split is taken at the first marker line, and only what follows the marker matters |
| ChatBot.SplitThinkingShape | components/ChatBot.tsx:80-85 | a message is split iff it has a marker line; an unsplit message is shown unchanged; split thoughts never contain `\n\n`; both parts are trimmed |
| ChatBot.SplitRecoversThoughtsAndAnswer | components/ChatBot.tsx:80-85 | marker + thoughts + `\n\n` + answer splits into the trimmed thoughts and the trimmed answer |
| ChatBot.SplitWithoutBlankLine | components/ChatBot.tsx:80-85 | with no blank line after the marker, everything after it is thoughts and the answer is empty |
| ChatBot.SplitDropsPreamble | components/ChatBot.tsx:80-85 | text on lines before the marker's line is not shown |
| ChatBot.SplitIgnoresMarkerMidLine | components/ChatBot.tsx:80 | a marker that does not start a line is not a reasoning block |
| ChatBot.SplitExample | components/ChatBot.tsx:80-108 | `> **Thinking Process:** X\n\nY` splits into "X" and "Y" |
| ChatBot.ChatLink | components/ChatBot.tsx:194-198 | the uri is `web.uri` else `maps.uri`; the title is `web.title` else `maps.title` else "Source"; no chip without a uri; the map icon iff a maps source |
| ChatBot.ChatSources | components/ChatBot.tsx:187-198 | no chips without a chunk list; every chunk with a uri gives its chip; no chip has an empty uri |
| ChatBot.ChatSourcesFollowChunkOrder | components/ChatBot.tsx:193 | the chips keep the order of the chunks |
| ChatBot.BadgeFor | components/ChatBot.tsx:155-159 | the first of "Lite", "Search", "Maps" that the label contains picks the badge, else the default |
| ChatBot.LiteLabelBadge | components/ChatBot.tsx:156 | "Gemini Lite" gets the Lite badge |
| ChatBot.SearchLabelBadge | components/ChatBot.tsx:157 | "Flash + Search" gets the Search badge |
| ChatBot.MapsLabelBadge | components/ChatBot.tsx:158 | "Flash + Maps" gets the Maps badge |
| ChatBot.ProLabelBadge | components/ChatBot.tsx:159 | "Gemini 3 Pro (Thinking)" gets the default badge |
| ChatBot.RouteBadgesDistinct | components/ChatBot.tsx:155-159 | the four router labels get four different badges |
| ChatBot.BadgeOf | components/ChatBot.tsx:153 | only a model message with a non-empty label has a badge |
| ChatBot.HistoryOf | components/ChatBot.tsx:50 | the last min(10, n) messages, in order, as role and text |
| ChatBot.ReplyMessage | components/ChatBot.tsx:55-71 | a reply keeps its grounding and label, and an empty text becomes "I couldn't generate a response."; a failure is the connection-error notice with no label |
| ChatBot.ChatSession.constructor | components/ChatBot.tsx:9-14 | the session starts with the greeting alone, an empty input and `loading` false |
| ChatBot.ChatSession.CanSend | components/ChatBot.tsx:42 | a send goes ahead exactly when no reply is awaited and the input is not all white space |
| ChatBot.ChatSession.Edit | components/ChatBot.tsx:241-257 | typing replaces the input, except while a reply is awaited |
| ChatBot.ChatSession.BeginSend | components/ChatBot.tsx:41-53 | a blank input or a send while loading changes nothing; otherwise the user message is appended, the input cleared, `loading` set, and the history taken from the messages before the new one |
| ChatBot.ChatSession.FinishSend | components/ChatBot.tsx:55-74 | the reply or the error notice is appended and `loading` cleared |
| ChatBot.ChatSession.Send | components/ChatBot.tsx:41-75 | a completed send adds exactly the user message and the reply for the replayed window; the input is cleared and `loading` is false; user and model messages keep alternating |
| MediaLab.IndexOf | components/MediaLab.tsx:39 | the first position of a character, absent iff the character does not occur |
| MediaLab.Base64Payload | components/MediaLab.tsx:39 | `split(',')[1]`: absent iff there is no comma; else the text after the first comma up to the next comma or the end |
| MediaLab.PayloadRoundTrip | components/MediaLab.tsx:38-39 | a data URL made of a comma-free header and payload yields the payload |
| MediaLab.Skipped | components/MediaLab.tsx:47-48 | a run is skipped exactly when there is no file and the tool is not video generation with a prompt |
| MediaLab.ReadBase64 | components/MediaLab.tsx:32-44 | a reader failure is an error; otherwise the payload of the data URL |
| MediaLab.PlanFor | components/MediaLab.tsx:46-83 | video generation needs a prompt or a file, analysis a file; a clip over 20 MiB is refused before reading; the defaults "animate this" and the two questions replace an empty prompt |
| MediaLab.OversizeClipNeverSent | components/MediaLab.tsx:75-79 | a clip over 20 MiB is never read or sent, whatever the prompt |
| MediaLab.SizeBoundary | components/MediaLab.tsx:75 | exactly 20 MiB and 15 MiB are sent; one byte more and 25 MiB are refused |
| MediaLab.PlanOutcome | components/MediaLab.tsx:64-83 | a refused clip or a failed read is an error; a video plan gives the result of `VideoRunFor` on the submitted job; an analysis plan gives the result of `AnalyzeMedia` on its data, type and question |
| MediaLab.MediaLabPanel.constructor | components/MediaLab.tsx:10-18 | the panel starts on video generation, idle, with empty prompt and output, no file or preview, and 16:9 |
| MediaLab.MediaLabPanel.EditPrompt | components/MediaLab.tsx:192 | typing replaces the prompt |
| MediaLab.MediaLabPanel.SelectAspectRatio | components/MediaLab.tsx:169-172 | a ratio button sets the aspect ratio |
| MediaLab.MediaLabPanel.SelectTool | components/MediaLab.tsx:94 | a tab sets the tool and clears output, file and preview |
| MediaLab.MediaLabPanel.ChooseFile | components/MediaLab.tsx:20-30 | a chosen file replaces the current one, and its data URL becomes the preview once read |
| MediaLab.MediaLabPanel.ClearFile | components/MediaLab.tsx:138 | the preview's button clears file and preview |
| MediaLab.MediaLabPanel.ExecuteAction | components/MediaLab.tsx:46-90 | a guarded run changes nothing; any other run clears the output, shows the result or raises the matching alert, and ends with `loading` false |
| JobTracker.SearchAllowed | components/JobTracker.tsx:14 | the handler searches exactly when neither the role nor the location is all white space |
| JobTracker.SearchButtonEnabled | components/JobTracker.tsx:65 | the button is off while loading, and on whenever idle and the handler would search |
| JobTracker.AllowedSearchHasEnabledButton | components/JobTracker.tsx:14-65 | whenever the handler would search, the idle button is enabled |
| JobTracker.BlankRoleEnablesButtonWithoutSearch | components/JobTracker.tsx:14-65 | a role of one space enables the button, and the handler does nothing |
| JobTracker.JobLink | components/JobTracker.tsx:102-117 | only a web source with a uri gives a link; the title falls back to "Job Listing" |
| JobTracker.JobLinks | components/JobTracker.tsx:99-117 | no links without a chunk list; every chunk with a web uri gives its link |
| JobTracker.JobLinksAreChatSources | components/JobTracker.tsx:99-117 | each apply link is also a chat chip with the same uri, and the chat shows at least as many sources |
| JobTracker.ListingsAreChips | components/JobTracker.tsx:101-102 | each apply link of a chunk list has a chat chip with the same uri |
| JobTracker.FilterMapKeepsMore | components/JobTracker.tsx:101-102 | a chunk list never gives more apply links than chat chips |
| JobTracker.MapsOnlyChunkHasNoListing | components/JobTracker.tsx:102 | a maps-only source is a chat chip but not an apply link |
| JobTracker.JobTrackerPanel.constructor | components/JobTracker.tsx:8-11 | the panel starts with empty role and location, idle, with no results |
| JobTracker.JobTrackerPanel.EditRole | components/JobTracker.tsx:49 | typing replaces the role |
| JobTracker.JobTrackerPanel.EditLocation | components/JobTracker.tsx:59 | typing replaces the location |
| JobTracker.JobTrackerPanel.HandleSearch | components/JobTracker.tsx:13-26 | a search runs iff role and location are non-blank after trimming; the untrimmed fields are sent; results are cleared first, set on success, left empty with an alert on failure; `loading` ends false |
| JobGenerator.GenerateAllowed | components/JobGenerator.tsx:15 | the handler generates exactly when the notes are not all white space |
| JobGenerator.GenerateEnabled | components/JobGenerator.tsx:54 | the button is on exactly when idle and the notes are not all white space |
| JobGenerator.GenerateButtonMatchesGuard | components/JobGenerator.tsx:14-54 | the button uses the handler's trimmed test and is off while loading |
| JobGenerator.NumberedQuestions | components/JobGenerator.tsx:128-133 | the guide lists the questions in array order, numbered from 1 |
| JobGenerator.GuideNumbersIncrease | components/JobGenerator.tsx:132 | the numbers strictly increase with position |
| JobGenerator.ViewOf | components/JobGenerator.tsx:74-137 | the empty workspace iff there is no result; else the job description for the description tab, or the questions numbered from 1 in order (`NumberedQuestions`) for the interview tab |
| JobGenerator.JobGeneratorPanel.constructor | components/JobGenerator.tsx:9-12 | the panel starts with empty notes, no result and the description tab |
| JobGenerator.JobGeneratorPanel.EditNotes | components/JobGenerator.tsx:43-48 | typing replaces the notes, except while a call runs |
| JobGenerator.JobGeneratorPanel.HandleGenerate | components/JobGenerator.tsx:14-27 | generation runs iff the notes are non-blank after trimming; the result is cleared first, set on success, left empty with an alert on failure; `loading` ends false; the tab is kept |
| JobGenerator.JobGeneratorPanel.BackToEdit | components/JobGenerator.tsx:87 | "Back to Edit" clears the result |
| JobGenerator.JobGeneratorPanel.SelectTab | components/JobGenerator.tsx:94-105 | a tab button sets the active tab |

## Behaviour worth noting

- `generateRecruitmentMaterials` only casts the parsed JSON. A reply that lacks one of the two fields is therefore not an error. The parse step is a parameter; see `GenerateRecruitmentMaterials` below.
- The 20 MiB limit is checked by the media lab panel before the file is read (`components/MediaLab.tsx:75`). `analyzeVideo` itself has no limit. The limit is 20 × 1024 × 1024 bytes.
- A message without a marker line is shown as a plain answer, with no reasoning block at all. This is `PlainAnswer`.

## Left out

- Gateway calls are parameters. This covers content generation, chat creation and sending, video submission, status checks, the download, `blob` and `URL.createObjectURL`. Nothing about the hosted models is modelled.
- GenerateRecruitmentVideo: the poll loop in the source has no bound. The model takes a finite status sequence. The submitted operation, or one of the status answers after it, is known to end the wait (`EventuallySettles`, `MediaLab.WaitEnds`). A job that never finishes is not modelled.
- The 5-second delay between status checks is not modelled. Time is outside the model.
- `FileReader` is not modelled. A file's data URL, or the reader's error, is a field of `MediaFile`.
- Browser geolocation is not modelled. The position, when there is one, is the chat session's constructor argument.
- `alert` is not shown on screen in the model. The alert text is returned as an out-parameter instead.
- `console` output and `scrollIntoView` are not modelled.
- Prompt template wording is not modelled. The requests carry the notes, the role and location, and the question, not the surrounding text.
- GenerateRecruitmentMaterials: `JSON.parse(text) as JobGenerationResult` is the `parse` parameter. The source only casts and checks no shape. So a reply without one of the two fields is not an error here.
- `new URL(uri).hostname` under each apply link is not modelled. It is library URL parsing.
- Latitude and longitude are `real` values passed through untouched, with no floating point behaviour.
- Message ids and timestamps come from `Date.now()` and are not modelled.
- The built-in fallback API key is not modelled. The key is a parameter of the video download.
- `chatWithGemini` only forwards to `smartChatWithGemini` and ignores its mode. It has no member of its own.
- The key selection dialog before video generation (`window.aistudio`) is not modelled. It is a host-page extension whose result is never used.
- Badge icons are not modelled, only the badge style. Neither are markdown rendering, CSS, layout, the video player or the input box resizing.
- Text.ToUpper: it upper-cases a–z, `ı` and `ſ` one for one. Other case mappings are not modelled, including the one-to-many ones such as `ß` → `SS`; other letters are kept unchanged.
- Strings are sequences of Unicode scalar values, while JavaScript strings are UTF-16 code units. Nothing in the core observes the difference: it only trims, upper-cases, compares, concatenates and searches for ASCII text.
- async interleaving is not modelled. A chat send is the two steps `BeginSend` and `FinishSend`. The panels run each handler to its end, so `loading` is only seen as it is before and after a call.
