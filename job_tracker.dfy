/** The job radar panel: a market scan for a role and a location, shown
    as the model's text and one "apply" link per web source. */
module JobTracker {
  import opened Results
  import opened Text
  import opened GeminiService
  import ChatBot

  const SearchFailedAlert: string := "Search failed. Please try again."
  const DefaultListingTitle: string := "Job Listing"

  /** The guard of `handleSearch`: both fields hold more than white space. */
  predicate SearchAllowed(role: string, location: string)
    ensures SearchAllowed(role, location) <==> !AllWhiteSpace(role) && !AllWhiteSpace(location)
  {
    TrimIsEmpty(role);
    TrimIsEmpty(location);
    Trim(role) != "" && Trim(location) != ""
  }

  /** The enable test of the scan button, which does not trim. */
  predicate SearchButtonEnabled(loading: bool, role: string, location: string)
    ensures SearchButtonEnabled(loading, role, location) ==> !loading
    ensures !loading && SearchAllowed(role, location) ==> SearchButtonEnabled(loading, role, location)
  {
    !loading && role != "" && location != ""
  }

  /** Whenever the handler would search, the idle button is enabled. */
  lemma AllowedSearchHasEnabledButton(role: string, location: string)
    requires SearchAllowed(role, location)
    ensures SearchButtonEnabled(false, role, location)
  {
  }

  /** The converse fails: a role of one space enables the button, and the
      click does nothing. */
  lemma BlankRoleEnablesButtonWithoutSearch(location: string)
    requires location != ""
    ensures SearchButtonEnabled(false, " ", location)
    ensures !SearchAllowed(" ", location)
  {
    assert AllWhiteSpace(" ");
  }

  /** An "apply" link: the web source's URI and its title. */
  datatype Listing = Listing(uri: string, title: string)

  /** The link for one chunk: only a web source with a URI gives one, titled
      by the source or "Job Listing". */
  function JobLink(chunk: GroundingChunk): (link: Option<Listing>)
    ensures link.Some? <==> IsTruthy(ChatBot.WebUri(chunk))
    ensures link.Some? ==> link.value.uri == chunk.web.value.uri.value
    ensures link.Some? ==> link.value.title == OrElse(chunk.web.value.title, DefaultListingTitle)
    ensures link.Some? ==> link.value.title != ""
  {
    if chunk.web.Some? && IsTruthy(chunk.web.value.uri) then
      Some(Listing(chunk.web.value.uri.value, OrElse(chunk.web.value.title, DefaultListingTitle)))
    else None
  }

  /** The links under the results: none without a chunk list. */
  function JobLinks(metadata: Option<GroundingMetadata>): (links: seq<Listing>)
    ensures metadata.None? || metadata.value.groundingChunks.None? ==> links == []
    ensures forall l :: l in links ==> l.uri != "" && l.title != ""
    ensures metadata.Some? && metadata.value.groundingChunks.Some? ==>
      var chunks := metadata.value.groundingChunks.value;
      && |links| <= |chunks|
      && (forall i :: 0 <= i < |chunks| && JobLink(chunks[i]).Some? ==> JobLink(chunks[i]).value in links)
  {
    if metadata.Some? && metadata.value.groundingChunks.Some? then
      FilterMapMembers(metadata.value.groundingChunks.value, JobLink);
      FilterMap(metadata.value.groundingChunks.value, JobLink)
    else []
  }

  /** Every apply link is also a source chip of the chat view for the same
      grounding, with the same URI; the chat view shows at least as many. */
  lemma JobLinksAreChatSources(metadata: Option<GroundingMetadata>)
    ensures |JobLinks(metadata)| <= |ChatBot.ChatSources(metadata)|
    ensures forall l :: l in JobLinks(metadata) ==>
      exists s :: s in ChatBot.ChatSources(metadata) && s.uri == l.uri
  {
    if metadata.Some? && metadata.value.groundingChunks.Some? {
      var chunks := metadata.value.groundingChunks.value;
      FilterMapKeepsMore(chunks);
      ListingsAreChips(chunks);
    }
  }

  /** Each apply link of a chunk list comes with a chat chip of the same URI. */
  lemma ListingsAreChips(chunks: seq<GroundingChunk>)
    ensures forall l :: l in FilterMap(chunks, JobLink) ==>
      exists s :: s in FilterMap(chunks, ChatBot.ChatLink) && s.uri == l.uri
  {
    FilterMapMembers(chunks, JobLink);
    FilterMapMembers(chunks, ChatBot.ChatLink);
    forall l | l in FilterMap(chunks, JobLink)
      ensures exists s :: s in FilterMap(chunks, ChatBot.ChatLink) && s.uri == l.uri
    {
      var i :| 0 <= i < |chunks| && JobLink(chunks[i]) == Some(l);
      var chip := ChatBot.ChatLink(chunks[i]);
      assert chip.Some? && chip.value.uri == l.uri;
      assert chip.value in FilterMap(chunks, ChatBot.ChatLink);
    }
  }

  /** No chunk list gives more apply links than chat chips: a chunk with a
      web URI gives both. */
  lemma {:induction false} FilterMapKeepsMore(chunks: seq<GroundingChunk>)
    ensures |FilterMap(chunks, JobLink)| <= |FilterMap(chunks, ChatBot.ChatLink)|
  {
    if chunks != [] {
      FilterMapKeepsMore(chunks[1..]);
    }
  }

  /** A maps-only source appears as a chat chip but not as an apply link. */
  lemma MapsOnlyChunkHasNoListing(uri: string, title: Option<string>)
    requires uri != ""
    ensures JobLink(GroundingChunk(None, Some(Source(Some(uri), title)))).None?
    ensures ChatBot.ChatLink(GroundingChunk(None, Some(Source(Some(uri), title)))).Some?
  {
  }

  class JobTrackerPanel {
    var role: string
    var location: string
    var loading: bool
    var results: Option<SearchResult>

    constructor ()
      ensures role == "" && location == "" && !loading && results.None?
    {
      role := "";
      location := "";
      loading := false;
      results := None;
    }

    method EditRole(text: string)
      modifies this`role
      ensures role == text
    {
      role := text;
    }

    method EditLocation(text: string)
      modifies this`location
      ensures location == text
    {
      location := text;
    }

    /** `handleSearch`: with a blank role or location nothing happens;
        otherwise the old results are dropped, the untrimmed fields are
        searched, the reply becomes the results or an alert is raised, and
        `loading` ends false. */
    method HandleSearch(generate: SearchRequest -> Result<GatewayReply>)
      returns (searched: bool, alert: Option<string>)
      modifies this`loading, this`results
      ensures searched == SearchAllowed(role, location)
      ensures !searched ==> loading == old(loading) && results == old(results) && alert.None?
      ensures searched ==> !loading
      ensures searched && SearchJobs(role, location, generate).Ok? ==>
        results == Some(SearchJobs(role, location, generate).value) && alert.None?
      ensures searched && SearchJobs(role, location, generate).Err? ==>
        results.None? && alert == Some(SearchFailedAlert)
    {
      alert := None;
      searched := SearchAllowed(role, location);
      if !searched {
        return;
      }
      loading := true;
      results := None;
      var data := SearchJobs(role, location, generate);
      if data.Ok? {
        results := Some(data.value);
      } else {
        alert := Some(SearchFailedAlert);
      }
      loading := false;
    }
  }
}
