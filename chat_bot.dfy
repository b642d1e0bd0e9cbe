/** The chat view: the guarded send with its replay window, the split of a
    reply into its visible reasoning block and its answer, the grounding
    source links, and the badge chosen for the label of the model used. */
module ChatBot {
  import opened Results
  import opened Text
  import opened GeminiService

  // ---------------------------------------------------------------------
  // Visible-reasoning split
  // ---------------------------------------------------------------------

  /** The marker starts at `q`, at the start of the text or of a line. */
  predicate MarkerLineAt(text: string, q: nat) {
    OccursAt(text, ThinkingMarker, q) && (q == 0 || text[q - 1] == '\n')
  }

  predicate HasMarkerLine(text: string) {
    exists q | 0 <= q <= |text| :: MarkerLineAt(text, q)
  }

  /** The first marker line at or after `from`. */
  function FindMarkerLine(text: string, from: nat): (q: Option<nat>)
    requires from <= |text|
    ensures q.Some? ==> from <= q.value <= |text| && MarkerLineAt(text, q.value)
    ensures q.Some? ==> forall p :: from <= p < q.value ==> !MarkerLineAt(text, p)
    ensures q.None? ==> forall p :: from <= p <= |text| ==> !MarkerLineAt(text, p)
    decreases |text| - from
  {
    if MarkerLineAt(text, from) then Some(from)
    else if from == |text| then None
    else FindMarkerLine(text, from + 1)
  }

  /** A blank line, `\n\n`, starts at `k`. */
  predicate BlankLineAt(text: string, k: nat) {
    k + 2 <= |text| && text[k] == '\n' && text[k + 1] == '\n'
  }

  /** Where the lazy reasoning group stops: the first `\n\n` at or after
      `from`, or the end of the text. */
  function FindThoughtsEnd(text: string, from: nat): (e: nat)
    requires from <= |text|
    ensures from <= e <= |text|
    ensures e == |text| || BlankLineAt(text, e)
    ensures forall k :: from <= k < e ==> !BlankLineAt(text, k)
    decreases |text| - from
  {
    if from == |text| || BlankLineAt(text, from) then from
    else FindThoughtsEnd(text, from + 1)
  }

  /** How a model message is rendered. */
  datatype Rendering =
    | PlainAnswer(text: string)
    | ThoughtsAndAnswer(thoughts: string, answer: string)

  /** The text after the blank line that ends the reasoning block, if any. */
  function AfterBlankLine(text: string, end: nat): (rest: string)
    requires end <= |text|
    requires end == |text| || BlankLineAt(text, end)
    ensures end == |text| ==> rest == []
    ensures end < |text| ==> rest == text[end + 2..]
  {
    if end == |text| then [] else text[end + 2..]
  }

  /** The untrimmed reasoning block and answer when the block begins at `start`. */
  function RawSplit(text: string, start: nat): (parts: (string, string))
    requires start <= |text|
  {
    var end := FindThoughtsEnd(text, start);
    (text[start..end], AfterBlankLine(text, end))
  }

  /** The split once the reasoning block is known to begin at `start`. */
  function SplitFrom(text: string, start: nat): (r: Rendering)
    requires start <= |text|
    ensures r.ThoughtsAndAnswer?
  {
    var parts := RawSplit(text, start);
    ThoughtsAndAnswer(Trim(parts.0), Trim(parts.1))
  }

  /** `renderMessageContent`: the first marker at the start of the text or
      of a line opens the reasoning block, which runs to the first blank line
      or the end; the answer is what follows that blank line. Both are
      trimmed, and whatever precedes the marker is not shown. */
  function SplitThinking(text: string): (r: Rendering)
    ensures r.PlainAnswer? ==> r.text == text
  {
    match FindMarkerLine(text, 0)
    case None => PlainAnswer(text)
    case Some(q) => SplitFrom(text, q + |ThinkingMarker|)
  }

  /** The reasoning block holds no blank line and both parts are trimmed. */
  lemma SplitFromShape(text: string, start: nat)
    requires start <= |text|
    ensures var r := SplitFrom(text, start);
      && !Contains(r.thoughts, "\n\n")
      && Trim(r.thoughts) == r.thoughts && Trim(r.answer) == r.answer
  {
    var end := FindThoughtsEnd(text, start);
    NoBlankLineInThoughts(text, start, end);
    TrimIdempotent(RawSplit(text, start).0);
    TrimIdempotent(RawSplit(text, start).1);
  }

  /** A message is split exactly when it has a marker line; a plain message
      is shown unchanged, and a split one has a reasoning block without
      blank lines and two trimmed parts. */
  lemma SplitThinkingShape(text: string)
    ensures SplitThinking(text).PlainAnswer? <==> !HasMarkerLine(text)
    ensures SplitThinking(text).PlainAnswer? ==> SplitThinking(text).text == text
    ensures var r := SplitThinking(text);
      r.ThoughtsAndAnswer? ==>
        && !Contains(r.thoughts, "\n\n")
        && Trim(r.thoughts) == r.thoughts && Trim(r.answer) == r.answer
  {
    var m := FindMarkerLine(text, 0);
    if m.None? {
      assert !HasMarkerLine(text);
    } else {
      var q := m.value;
      assert MarkerLineAt(text, q);
      SplitFromShape(text, q + |ThinkingMarker|);
      assert SplitThinking(text) == SplitFrom(text, q + |ThinkingMarker|);
    }
  }

  /** A stretch of text free of blank lines keeps none once trimmed. */
  lemma NoBlankLineInThoughts(text: string, start: nat, end: nat)
    requires start <= end <= |text|
    requires forall k :: start <= k < end ==> !BlankLineAt(text, k)
    ensures !Contains(Trim(text[start..end]), "\n\n")
  {
    var raw := text[start..end];
    var i, j := TrimCuts(raw);
    var t := Trim(raw);
    forall p | 0 <= p < |t| - 1 ensures !(t[p] == '\n' && t[p + 1] == '\n') {
      assert t[p] == raw[i + p] == text[start + i + p];
      assert t[p + 1] == raw[i + p + 1] == text[start + i + p + 1];
      assert !BlankLineAt(text, start + i + p);
    }
    NoAdjacentNewlines(t);
  }

  /** A text with no two line breaks in a row does not contain `\n\n`. */
  lemma NoAdjacentNewlines(t: string)
    requires forall p :: 0 <= p < |t| - 1 ==> !(t[p] == '\n' && t[p + 1] == '\n')
    ensures !Contains(t, "\n\n")
  {
    forall p | 0 <= p <= |t| - 2 ensures !OccursAt(t, "\n\n", p) {
      assert t[p..p + 2] == [t[p], t[p + 1]];
    }
  }

  /** The marker contains no line break. */
  lemma MarkerHasNoNewline()
    ensures '\n' !in ThinkingMarker
  {
  }

  /** The end of the reasoning block is the first blank line. */
  lemma FindThoughtsEndIs(text: string, from: nat, e: nat)
    requires from <= e <= |text|
    requires e == |text| || BlankLineAt(text, e)
    requires forall k :: from <= k < e ==> !BlankLineAt(text, k)
    ensures FindThoughtsEnd(text, from) == e
  {
  }

  /** `FindMarkerLine` from the start finds the first marker line. */
  lemma FindMarkerLineIs(text: string, q: nat)
    requires q <= |text| && MarkerLineAt(text, q)
    requires forall p :: 0 <= p < q ==> !MarkerLineAt(text, p)
    ensures FindMarkerLine(text, 0) == Some(q)
  {
    FindMarkerLineFrom(text, 0, q);
  }

  lemma {:induction false} FindMarkerLineFrom(text: string, from: nat, q: nat)
    requires from <= q <= |text| && MarkerLineAt(text, q)
    requires forall p :: from <= p < q ==> !MarkerLineAt(text, p)
    ensures FindMarkerLine(text, from) == Some(q)
    decreases q - from
  {
    if from < q {
      assert !MarkerLineAt(text, from);
      FindMarkerLineFrom(text, from + 1, q);
    }
  }

  /** A text that opens with the marker is split right after it. */
  lemma SplitOfMarkerFirst(text: string)
    requires OccursAt(text, ThinkingMarker, 0)
    ensures SplitThinking(text) == SplitFrom(text, |ThinkingMarker|)
  {
    assert MarkerLineAt(text, 0);
    FindMarkerLineIs(text, 0);
  }

  /** Blank-line search is unaffected by text placed in front. */
  lemma {:induction false} ThoughtsEndShift(lead: string, body: string, from: nat)
    requires from <= |body|
    ensures FindThoughtsEnd(lead + body, |lead| + from) == |lead| + FindThoughtsEnd(body, from)
    decreases |body| - from
  {
    var text := lead + body;
    assert BlankLineAt(text, |lead| + from) <==> BlankLineAt(body, from) by {
      if from + 2 <= |body| {
        assert text[|lead| + from] == body[from] && text[|lead| + from + 1] == body[from + 1];
      }
    }
    if from < |body| && !BlankLineAt(body, from) {
      ThoughtsEndShift(lead, body, from + 1);
    }
  }

  /** Splitting after a prefix of the text is splitting the rest. */
  lemma RawSplitShift(lead: string, body: string)
    ensures RawSplit(lead + body, |lead|) == RawSplit(body, 0)
  {
    var text := lead + body;
    var n := |lead|;
    ThoughtsEndShift(lead, body, 0);
    var e := FindThoughtsEnd(body, 0);
    assert text[n..n + e] == body[0..e];
    if e < |body| {
      assert text[n + e + 2..] == body[e + 2..];
    }
  }

  lemma SplitFromShift(lead: string, body: string)
    ensures SplitFrom(lead + body, |lead|) == SplitFrom(body, 0)
  {
    RawSplitShift(lead, body);
  }

  /** A blank-line-free `x` followed by a blank line ends the block at `|x|`. */
  lemma ThoughtsEndAfter(x: string, y: string)
    requires !Contains(x, "\n\n") && (x == [] || x[|x| - 1] != '\n')
    ensures FindThoughtsEnd(x + "\n\n" + y, 0) == |x|
  {
    var body := x + "\n\n" + y;
    forall k | 0 <= k < |x| ensures !BlankLineAt(body, k) {
      if k + 1 < |x| {
        assert !OccursAt(x, "\n\n", k);
        assert x[k..k + 2] == [x[k], x[k + 1]];
        assert body[k] == x[k] && body[k + 1] == x[k + 1];
      } else {
        assert body[k] == x[|x| - 1];
      }
    }
    FindThoughtsEndIs(body, 0, |x|);
  }

  /** A blank-line-free `x` ending in a line break, followed by a blank
      line, ends the block at that line break. */
  lemma ThoughtsEndBefore(x: string, y: string)
    requires !Contains(x, "\n\n") && x != [] && x[|x| - 1] == '\n'
    ensures FindThoughtsEnd(x + "\n\n" + y, 0) == |x| - 1
  {
    var body := x + "\n\n" + y;
    forall k | 0 <= k < |x| - 1 ensures !BlankLineAt(body, k) {
      assert !OccursAt(x, "\n\n", k);
      assert x[k..k + 2] == [x[k], x[k + 1]];
      assert body[k] == x[k] && body[k + 1] == x[k + 1];
    }
    assert body[|x| - 1] == x[|x| - 1] && body[|x|] == '\n';
    FindThoughtsEndIs(body, 0, |x| - 1);
  }

  /** The raw split of a blank-line-free `x`, a blank line and `y`, once
      trimmed, is `x` and `y` trimmed. */
  lemma RawSplitAfter(x: string, y: string)
    requires !Contains(x, "\n\n")
    ensures var parts := RawSplit(x + "\n\n" + y, 0);
      Trim(parts.0) == Trim(x) && Trim(parts.1) == Trim(y)
  {
    if x == [] || x[|x| - 1] != '\n' {
      RawSplitAtBlankLine(x, y);
    } else {
      RawSplitBeforeBlankLine(x, y);
    }
  }

  lemma RawSplitAtBlankLine(x: string, y: string)
    requires !Contains(x, "\n\n") && (x == [] || x[|x| - 1] != '\n')
    ensures RawSplit(x + "\n\n" + y, 0) == (x, y)
  {
    var body := x + "\n\n" + y;
    ThoughtsEndAfter(x, y);
    assert body[0..|x|] == x;
    assert body[|x| + 2..] == y;
  }

  lemma RawSplitBeforeBlankLine(x: string, y: string)
    requires !Contains(x, "\n\n") && x != [] && x[|x| - 1] == '\n'
    ensures var parts := RawSplit(x + "\n\n" + y, 0);
      Trim(parts.0) == Trim(x) && Trim(parts.1) == Trim(y)
  {
    var body := x + "\n\n" + y;
    ThoughtsEndBefore(x, y);
    assert RawSplit(body, 0) == (x[..|x| - 1], "\n" + y) by {
      assert body[0..|x| - 1] == x[..|x| - 1];
      assert body[|x| + 1..] == "\n" + y;
    }
    TrimDropsFinalNewline(x);
    TrimDropsFirstNewline(y);
  }

  lemma TrimDropsFinalNewline(x: string)
    requires x != [] && x[|x| - 1] == '\n'
    ensures Trim(x[..|x| - 1]) == Trim(x)
  {
    assert x == [] + x[..|x| - 1] + [x[|x| - 1]];
    TrimIgnoresPadding([], x[..|x| - 1], [x[|x| - 1]]);
  }

  lemma TrimDropsFirstNewline(y: string)
    ensures Trim("\n" + y) == Trim(y)
  {
    assert "\n" + y == "\n" + y + [];
    TrimIgnoresPadding("\n", y, []);
  }

  /** A reply that follows the COMPLEX instruction, marker first, splits
      into the text up to the first blank line and the text after it. */
  lemma SplitRecoversThoughtsAndAnswer(x: string, y: string)
    requires !Contains(x, "\n\n")
    ensures SplitThinking(ThinkingMarker + x + "\n\n" + y) == ThoughtsAndAnswer(Trim(x), Trim(y))
  {
    var body := x + "\n\n" + y;
    var text := ThinkingMarker + body;
    assert ThinkingMarker + x + "\n\n" + y == text;
    assert text[..|ThinkingMarker|] == ThinkingMarker;
    SplitOfMarkerFirst(text);
    SplitFromShift(ThinkingMarker, body);
    RawSplitAfter(x, y);
  }

  /** A text without `\n\n` has no blank line anywhere. */
  lemma NoBlankLineIn(x: string)
    requires !Contains(x, "\n\n")
    ensures forall k :: 0 <= k < |x| ==> !BlankLineAt(x, k)
  {
    forall k | 0 <= k < |x| ensures !BlankLineAt(x, k) {
      if k + 1 < |x| {
        assert !OccursAt(x, "\n\n", k);
        assert x[k..k + 2] == [x[k], x[k + 1]];
      }
    }
  }

  /** With no blank line after the marker, the whole rest is reasoning and
      the answer is empty; this covers a marker at the very end. */
  lemma SplitWithoutBlankLine(x: string)
    requires !Contains(x, "\n\n")
    ensures SplitThinking(ThinkingMarker + x) == ThoughtsAndAnswer(Trim(x), "")
  {
    var text := ThinkingMarker + x;
    assert text[..|ThinkingMarker|] == ThinkingMarker;
    SplitOfMarkerFirst(text);
    SplitFromShift(ThinkingMarker, x);
    NoBlankLineIn(x);
    FindThoughtsEndIs(x, 0, |x|);
    assert x[0..|x|] == x;
    assert AfterBlankLine(x, |x|) == [];
    assert Trim([]) == [] by { TrimOfTrimmed([]); }
  }

  /** A marker line that starts within the preamble would be one of the
      preamble itself, since the marker cannot span the line break. */
  lemma MarkerLineInPreamble(pre: string, body: string, p: nat)
    requires !HasMarkerLine(pre) && p <= |pre|
    ensures !MarkerLineAt(pre + "\n" + body, p)
  {
    var text := pre + "\n" + body;
    var m := |ThinkingMarker|;
    if p + m <= |pre| {
      assert text[p..p + m] == pre[p..p + m];
      assert p > 0 ==> text[p - 1] == pre[p - 1];
      assert !MarkerLineAt(pre, p);
    } else if p + m <= |text| {
      assert text[p..p + m][|pre| - p] == '\n';
      MarkerHasNoNewline();
    }
  }

  /** The marker that opens `body` starts a line of `pre + "\n" + body`. */
  lemma MarkerAfterLineBreak(pre: string, body: string)
    requires OccursAt(body, ThinkingMarker, 0)
    ensures MarkerLineAt(pre + "\n" + body, |pre| + 1)
  {
    var text := pre + "\n" + body;
    var n := |pre| + 1;
    var m := |ThinkingMarker|;
    assert text[n..n + m] == body[..m];
  }

  /** No marker line of `pre + "\n" + body` starts within the preamble. */
  lemma NoMarkerLineInPreamble(pre: string, body: string)
    requires !HasMarkerLine(pre)
    ensures forall p :: 0 <= p <= |pre| ==> !MarkerLineAt(pre + "\n" + body, p)
  {
    forall p | 0 <= p <= |pre| ensures !MarkerLineAt(pre + "\n" + body, p) {
      MarkerLineInPreamble(pre, body, p);
    }
  }

  /** After a marker-free preamble and its line break, the first marker
      line is the one that opens `body`. */
  lemma FirstMarkerAfterPreamble(pre: string, body: string)
    requires !HasMarkerLine(pre) && OccursAt(body, ThinkingMarker, 0)
    ensures FindMarkerLine(pre + "\n" + body, 0) == Some(|pre| + 1)
  {
    MarkerAfterLineBreak(pre, body);
    NoMarkerLineInPreamble(pre, body);
    FindMarkerLineIs(pre + "\n" + body, |pre| + 1);
  }

  /** Splitting after position `k` depends only on the text after `k`. */
  lemma SplitFromSuffix(text: string, k: nat)
    requires k <= |text|
    ensures SplitFrom(text, k) == SplitFrom(text[k..], 0)
  {
    assert text == text[..k] + text[k..];
    SplitFromShift(text[..k], text[k..]);
  }

  /** The split of a text is fixed by its first marker line. */
  lemma SplitAtFirstMarker(text: string, q: nat)
    requires FindMarkerLine(text, 0) == Some(q)
    ensures q + |ThinkingMarker| <= |text|
    ensures SplitThinking(text) == SplitFrom(text[q + |ThinkingMarker|..], 0)
  {
    SplitFromSuffix(text, q + |ThinkingMarker|);
  }

  lemma DropPreamble(pre: string, body: string, k: nat)
    requires k <= |body|
    ensures (pre + "\n" + body)[|pre| + 1 + k..] == body[k..]
  {
  }

  /** Text before the marker's line is dropped: a preamble without a marker
      line, ended by a line break, does not change the split. */
  lemma SplitDropsPreamble(pre: string, body: string)
    requires !HasMarkerLine(pre) && OccursAt(body, ThinkingMarker, 0)
    ensures SplitThinking(pre + "\n" + body) == SplitThinking(body)
  {
    var m := |ThinkingMarker|;
    var text := pre + "\n" + body;
    FirstMarkerAfterPreamble(pre, body);
    SplitAtFirstMarker(text, |pre| + 1);
    DropPreamble(pre, body, m);
    FindMarkerLineIs(body, 0);
    SplitAtFirstMarker(body, 0);
  }

  /** A line without a marker at its start renders as it is. */
  lemma SplitIgnoresMarkerMidLine(text: string)
    requires '\n' !in text && !OccursAt(text, ThinkingMarker, 0)
    ensures SplitThinking(text) == PlainAnswer(text)
  {
    forall q | 0 < q <= |text| ensures !MarkerLineAt(text, q) {
      assert text[q - 1] in text;
    }
  }

  lemma TrimLeadingSpace()
    ensures Trim(" X") == "X"
  {
    var x := " X";
    assert x[..1] == " " && x[1..2] == "X" && x[2..] == [];
    TrimIsUnique(x, 1, 2);
  }

  lemma ExampleSplitParts(x: string, y: string)
    requires x == " X" && y == "Y"
    ensures SplitThinking(ThinkingMarker + x + "\n\n" + y) == ThoughtsAndAnswer("X", "Y")
  {
    assert !Contains(x, "\n\n") by { NotContainsWithoutFirstChar(x, "\n\n"); }
    assert Trim(x) == "X" by { TrimLeadingSpace(); }
    assert Trim(y) == "Y" by { TrimOfTrimmed(y); }
    SplitRecoversThoughtsAndAnswer(x, y);
  }

  /** A reply made of the marker, thoughts, a blank line and the answer:
      the shape the reasoning instruction asks for. */
  lemma SplitExample(reply: string)
    requires reply == "> **Thinking Process:** X\n\nY"
    ensures SplitThinking(reply) == ThoughtsAndAnswer("X", "Y")
  {
    assert reply == ThinkingMarker + " X" + "\n\n" + "Y";
    ExampleSplitParts(" X", "Y");
  }

  // ---------------------------------------------------------------------
  // Grounding sources
  // ---------------------------------------------------------------------

  /** One rendered source chip; `isMap` selects the map icon. */
  datatype SourceLink = SourceLink(uri: string, title: string, isMap: bool)

  function WebUri(chunk: GroundingChunk): Option<string> {
    if chunk.web.Some? then chunk.web.value.uri else None
  }

  function MapsUri(chunk: GroundingChunk): Option<string> {
    if chunk.maps.Some? then chunk.maps.value.uri else None
  }

  function WebTitle(chunk: GroundingChunk): Option<string> {
    if chunk.web.Some? then chunk.web.value.title else None
  }

  function MapsTitle(chunk: GroundingChunk): Option<string> {
    if chunk.maps.Some? then chunk.maps.value.title else None
  }

  /** The chip for one chunk: the web URI, else the maps URI; the web title,
      else the maps title, else "Source"; no chip without a URI. */
  function ChatLink(chunk: GroundingChunk): (link: Option<SourceLink>)
    ensures link.Some? <==> IsTruthy(WebUri(chunk)) || IsTruthy(MapsUri(chunk))
    ensures link.Some? ==> link.value.uri != "" && link.value.title != ""
    ensures link.Some? && IsTruthy(WebUri(chunk)) ==> link.value.uri == WebUri(chunk).value
    ensures link.Some? && !IsTruthy(WebUri(chunk)) ==> link.value.uri == MapsUri(chunk).value
    ensures link.Some? ==> link.value.title == OrElse(WebTitle(chunk), OrElse(MapsTitle(chunk), "Source"))
    ensures link.Some? ==> (link.value.isMap <==> chunk.maps.Some?)
  {
    var uri := if IsTruthy(WebUri(chunk)) then WebUri(chunk) else MapsUri(chunk);
    if IsTruthy(uri) then
      Some(SourceLink(uri.value, OrElse(WebTitle(chunk), OrElse(MapsTitle(chunk), "Source")), chunk.maps.Some?))
    else None
  }

  /** The chips under a message: none without a chunk list, otherwise one per
      chunk that has a URI. */
  function ChatSources(metadata: Option<GroundingMetadata>): (links: seq<SourceLink>)
    ensures metadata.None? || metadata.value.groundingChunks.None? ==> links == []
    ensures forall l :: l in links ==> l.uri != ""
    ensures metadata.Some? && metadata.value.groundingChunks.Some? ==>
      var chunks := metadata.value.groundingChunks.value;
      && |links| <= |chunks|
      && (forall i :: 0 <= i < |chunks| && ChatLink(chunks[i]).Some? ==> ChatLink(chunks[i]).value in links)
  {
    if metadata.Some? && metadata.value.groundingChunks.Some? then
      FilterMapMembers(metadata.value.groundingChunks.value, ChatLink);
      FilterMap(metadata.value.groundingChunks.value, ChatLink)
    else []
  }

  /** The chips follow the order of the chunks. */
  lemma ChatSourcesFollowChunkOrder(a: seq<GroundingChunk>, b: seq<GroundingChunk>)
    ensures ChatSources(Some(GroundingMetadata(Some(a + b))))
      == ChatSources(Some(GroundingMetadata(Some(a)))) + ChatSources(Some(GroundingMetadata(Some(b))))
  {
    FilterMapConcat(a, b, ChatLink);
  }

  // ---------------------------------------------------------------------
  // Model label badge
  // ---------------------------------------------------------------------

  /** The four badge styles: emerald, blue, orange and the purple default. */
  datatype Badge = LiteBadge | SearchBadge | MapsBadge | DefaultBadge

  /** The first of "Lite", "Search", "Maps" the label contains picks the badge. */
  function BadgeFor(modelUsed: string): (b: Badge)
    ensures b == LiteBadge <==> Contains(modelUsed, "Lite")
    ensures b == SearchBadge <==> !Contains(modelUsed, "Lite") && Contains(modelUsed, "Search")
    ensures b == MapsBadge <==>
      !Contains(modelUsed, "Lite") && !Contains(modelUsed, "Search") && Contains(modelUsed, "Maps")
  {
    if Contains(modelUsed, "Lite") then LiteBadge
    else if Contains(modelUsed, "Search") then SearchBadge
    else if Contains(modelUsed, "Maps") then MapsBadge
    else DefaultBadge
  }

  lemma LiteLabelBadge()
    ensures BadgeFor(LiteLabel) == LiteBadge
  {
    assert OccursAt(LiteLabel, "Lite", 7);
  }

  lemma SearchLabelBadge()
    ensures BadgeFor(SearchLabel) == SearchBadge
  {
    assert forall i :: 0 <= i < |SearchLabel| ==> SearchLabel[i] != 'L';
    NotContainsWithoutFirstChar(SearchLabel, "Lite");
    assert OccursAt(SearchLabel, "Search", 8);
  }

  lemma MapsLabelBadge()
    ensures BadgeFor(MapsLabel) == MapsBadge
  {
    assert forall i :: 0 <= i < |MapsLabel| ==> MapsLabel[i] != 'L' && MapsLabel[i] != 'S';
    NotContainsWithoutFirstChar(MapsLabel, "Lite");
    NotContainsWithoutFirstChar(MapsLabel, "Search");
    assert OccursAt(MapsLabel, "Maps", 8);
  }

  lemma ProLabelBadge()
    ensures BadgeFor(ProLabel) == DefaultBadge
  {
    assert forall i :: 0 <= i < |ProLabel| ==> ProLabel[i] != 'L' && ProLabel[i] != 'S' && ProLabel[i] != 'M';
    NotContainsWithoutFirstChar(ProLabel, "Lite");
    NotContainsWithoutFirstChar(ProLabel, "Search");
    NotContainsWithoutFirstChar(ProLabel, "Maps");
  }

  /** Distinct routes give distinct badges. */
  lemma RouteBadgesDistinct(c1: Category, c2: Category, l1: Option<Location>, l2: Option<Location>)
    requires c1 != c2
    ensures BadgeFor(RouteFor(c1, l1).modelLabel) != BadgeFor(RouteFor(c2, l2).modelLabel)
  {
    LiteLabelBadge();
    SearchLabelBadge();
    MapsLabelBadge();
    ProLabelBadge();
  }

  // ---------------------------------------------------------------------
  // Chat session
  // ---------------------------------------------------------------------

  /** A chat message; its id and timestamp are not modelled. */
  datatype ChatMessage = ChatMessage(
    role: Role, text: string, groundingMetadata: Option<GroundingMetadata>, modelUsed: Option<string>)

  const Greeting: ChatMessage := ChatMessage(
    Model,
    "Hi! I am your intelligent recruitment assistant. Ask me anything, and I will automatically select the best AI model for your task.",
    None,
    Some("Auto-Detect"))

  const EmptyReplyText: string := "I couldn't generate a response."
  const ConnectionErrorText: string := "Sorry, I encountered a connection error."

  /** Number of earlier messages replayed with each send. */
  const HistoryWindow: nat := 10

  /** The badge a message shows: model messages with a label only. */
  function BadgeOf(m: ChatMessage): (b: Option<Badge>)
    ensures b.Some? <==> m.role == Model && IsTruthy(m.modelUsed)
    ensures b.Some? ==> b.value == BadgeFor(m.modelUsed.value)
  {
    if m.role == Model && IsTruthy(m.modelUsed) then Some(BadgeFor(m.modelUsed.value)) else None
  }

  /** The replay window: the role and text of the last ten messages, or of
      all of them when there are fewer, in order. */
  function HistoryOf(messages: seq<ChatMessage>): (h: seq<Turn>)
    ensures |h| == if |messages| < HistoryWindow then |messages| else HistoryWindow
    ensures forall i :: 0 <= i < |h| ==>
      h[i] == Turn(messages[|messages| - |h| + i].role, messages[|messages| - |h| + i].text)
  {
    var window := if |messages| <= HistoryWindow then messages else messages[|messages| - HistoryWindow..];
    seq(|window|, i requires 0 <= i < |window| => Turn(window[i].role, window[i].text))
  }

  function UserMessage(text: string): ChatMessage {
    ChatMessage(User, text, None, None)
  }

  /** The message appended once the service has answered or failed. */
  function ReplyMessage(reply: Result<ChatResult>): (m: ChatMessage)
    ensures m.role == Model && m.text != ""
    ensures reply.Err? ==> m == ChatMessage(Model, ConnectionErrorText, None, None)
    ensures reply.Ok? ==> m.text == OrElse(reply.value.text, EmptyReplyText)
    ensures reply.Ok? ==> m.groundingMetadata == reply.value.groundingMetadata
    ensures reply.Ok? ==> m.modelUsed == Some(reply.value.modelUsed)
  {
    match reply
    case Ok(r) => ChatMessage(Model, OrElse(r.text, EmptyReplyText), r.groundingMetadata, Some(r.modelUsed))
    case Err(_) => ChatMessage(Model, ConnectionErrorText, None, None)
  }

  /** A send that has passed its guard and awaits the service. */
  datatype PendingSend = PendingSend(message: string, history: seq<Turn>)

  class ChatSession {
    var messages: seq<ChatMessage>
    var input: string
    var loading: bool
    /** The position the browser reported, if it did. */
    const location: Option<Location>

    /** The greeting comes first; user and model messages alternate after it;
        no message is empty; `loading` holds exactly while the last message
        is a user message still awaiting its reply. */
    ghost predicate Valid()
      reads this
    {
      && |messages| >= 1 && messages[0] == Greeting
      && (forall i :: 0 <= i < |messages| ==> messages[i].text != "")
      && (forall i :: 0 <= i < |messages| ==> (messages[i].role == User <==> i % 2 == 1))
      && (loading <==> |messages| % 2 == 0)
    }

    constructor (location: Option<Location>)
      ensures Valid()
      ensures messages == [Greeting] && input == "" && !loading && this.location == location
    {
      messages := [Greeting];
      input := "";
      loading := false;
      this.location := location;
    }

    /** The guard of `handleSend`, which is also the send button's enable test. */
    predicate CanSend()
      reads this
      ensures CanSend() <==> !loading && !AllWhiteSpace(input)
    {
      TrimIsEmpty(input);
      Trim(input) != "" && !loading
    }

    /** Typing in the input box, which is disabled while a reply is awaited. */
    method Edit(text: string)
      modifies this`input
      ensures loading ==> input == old(input)
      ensures !loading ==> input == text
    {
      if !loading {
        input := text;
      }
    }

    /** `handleSend` up to its `await`: the user message is appended, the
        input cleared and `loading` set; a blank input or a send while
        loading changes nothing. */
    method BeginSend() returns (pending: Option<PendingSend>)
      requires Valid()
      modifies this`messages, this`input, this`loading
      ensures Valid()
      ensures pending.Some? <==> old(CanSend())
      ensures !old(CanSend()) ==> messages == old(messages) && input == old(input) && loading == old(loading)
      ensures old(CanSend()) ==>
        && messages == old(messages) + [UserMessage(old(input))]
        && input == "" && loading
        && pending.value == PendingSend(old(input), HistoryOf(old(messages)))
    {
      if Trim(input) == "" || loading {
        return None;
      }
      pending := Some(PendingSend(input, HistoryOf(messages)));
      assert input != "";
      messages := messages + [UserMessage(input)];
      input := "";
      loading := true;
    }

    /** `handleSend` after its `await`: the reply, or the error notice, is
        appended and `loading` cleared. */
    method FinishSend(reply: Result<ChatResult>)
      requires Valid() && loading
      modifies this`messages, this`loading
      ensures Valid()
      ensures messages == old(messages) + [ReplyMessage(reply)] && !loading
    {
      messages := messages + [ReplyMessage(reply)];
      loading := false;
    }

    /** The whole of `handleSend`, with the router and chat replies as
        parameters. */
    method Send(classify: string -> Result<Option<string>>, chat: ChatRequest -> Result<GatewayReply>)
      returns (sent: bool)
      requires Valid()
      modifies this`messages, this`input, this`loading
      ensures Valid()
      ensures sent == old(CanSend())
      ensures !sent ==> messages == old(messages) && input == old(input) && loading == old(loading)
      ensures sent ==>
        && messages == old(messages) + [
             UserMessage(old(input)),
             ReplyMessage(SmartChat(old(input), HistoryOf(old(messages)), location, classify, chat))]
        && input == "" && !loading
    {
      var pending := BeginSend();
      sent := pending.Some?;
      if sent {
        var reply := SmartChat(pending.value.message, pending.value.history, location, classify, chat);
        FinishSend(reply);
      }
    }
  }
}
