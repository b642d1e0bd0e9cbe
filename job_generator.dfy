/** The role creation panel: free-form notes in, a job description and an
    interview guide out, shown on two tabs. */
module JobGenerator {
  import opened Results
  import opened Text
  import opened GeminiService

  const GenerateFailedAlert: string := "Failed to generate content. Please try again."

  /** The two result tabs: 'jd' and 'interview'. */
  datatype ResultTab = Description | InterviewGuide

  /** The guard of `handleGenerate`: the notes hold more than white space. */
  predicate GenerateAllowed(notes: string)
    ensures GenerateAllowed(notes) <==> !AllWhiteSpace(notes)
  {
    TrimIsEmpty(notes);
    Trim(notes) != ""
  }

  /** The enable test of the Generate button. */
  predicate GenerateEnabled(loading: bool, notes: string)
    ensures GenerateEnabled(loading, notes) <==> !loading && !AllWhiteSpace(notes)
  {
    TrimIsEmpty(notes);
    !loading && Trim(notes) != ""
  }

  /** The button and the handler apply the same trimmed test. */
  lemma GenerateButtonMatchesGuard(notes: string)
    ensures GenerateEnabled(false, notes) <==> GenerateAllowed(notes)
    ensures !GenerateEnabled(true, notes)
  {
  }

  /** An entry of the interview guide: its number and its question. */
  datatype NumberedQuestion = NumberedQuestion(number: nat, question: string)

  /** The guide numbers the questions from 1 in their order. */
  function NumberedQuestions(questions: seq<string>): (guide: seq<NumberedQuestion>)
    ensures |guide| == |questions|
    ensures forall i :: 0 <= i < |guide| ==> guide[i].question == questions[i]
    ensures forall i :: 0 <= i < |guide| ==> guide[i].number == i + 1
  {
    if questions == [] then []
    else
      NumberedQuestions(questions[..|questions| - 1])
        + [NumberedQuestion(|questions|, questions[|questions| - 1])]
  }

  /** The numbers of the guide are 1, 2, ..., n: distinct and increasing. */
  lemma GuideNumbersIncrease(questions: seq<string>, i: nat, j: nat)
    requires i < j < |questions|
    ensures NumberedQuestions(questions)[i].number < NumberedQuestions(questions)[j].number
  {
  }

  /** What the output pane shows. */
  datatype View =
    | EmptyWorkspace
    | DescriptionView(markdown: string)
    | InterviewView(guide: seq<NumberedQuestion>)

  /** The output pane: the empty workspace without a result, else the tab's content. */
  function ViewOf(result: Option<JobMaterials>, tab: ResultTab): (v: View)
    ensures result.None? <==> v == EmptyWorkspace
    ensures result.Some? && tab == Description ==> v == DescriptionView(result.value.jobDescription)
    ensures result.Some? && tab == InterviewGuide ==>
      v == InterviewView(NumberedQuestions(result.value.interviewQuestions))
  {
    if result.None? then EmptyWorkspace
    else if tab == Description then DescriptionView(result.value.jobDescription)
    else InterviewView(NumberedQuestions(result.value.interviewQuestions))
  }

  class JobGeneratorPanel {
    var notes: string
    var loading: bool
    var result: Option<JobMaterials>
    var activeTab: ResultTab

    constructor ()
      ensures notes == "" && !loading && result.None? && activeTab == Description
    {
      notes := "";
      loading := false;
      result := None;
      activeTab := Description;
    }

    /** Typing in the notes box, which is disabled while a call runs. */
    method EditNotes(text: string)
      modifies this`notes
      ensures loading ==> notes == old(notes)
      ensures !loading ==> notes == text
    {
      if !loading {
        notes := text;
      }
    }

    /** `handleGenerate`: blank notes do nothing; otherwise the old result
        is dropped, the notes are sent, the materials become the result or
        an alert is raised, and `loading` ends false. The tab is kept. */
    method HandleGenerate(generate: MaterialsRequest -> Result<Option<string>>, parse: string -> Result<JobMaterials>)
      returns (generated: bool, alert: Option<string>)
      modifies this`loading, this`result
      ensures generated == GenerateAllowed(notes)
      ensures !generated ==> loading == old(loading) && result == old(result) && alert.None?
      ensures generated ==> !loading
      ensures generated && GenerateRecruitmentMaterials(notes, generate, parse).Ok? ==>
        result == Some(GenerateRecruitmentMaterials(notes, generate, parse).value) && alert.None?
      ensures generated && GenerateRecruitmentMaterials(notes, generate, parse).Err? ==>
        result.None? && alert == Some(GenerateFailedAlert)
    {
      alert := None;
      generated := GenerateAllowed(notes);
      if !generated {
        return;
      }
      loading := true;
      result := None;
      var data := GenerateRecruitmentMaterials(notes, generate, parse);
      if data.Ok? {
        result := Some(data.value);
      } else {
        alert := Some(GenerateFailedAlert);
      }
      loading := false;
    }

    /** "Back to Edit": drop the result and show the notes again. */
    method BackToEdit()
      modifies this`result
      ensures result.None?
    {
      result := None;
    }

    method SelectTab(tab: ResultTab)
      modifies this`activeTab
      ensures activeTab == tab
    {
      activeTab := tab;
    }
  }
}
