/** The three-stage home page: business details, trend analysis and content
    generation, with the page state the stages share and the panel each
    stage shows. */
module HomePage {
  import opened Wrappers
  import opened Api

  /** The progress indicator: stage `i + 1` is active exactly when the
      current stage is at least `i + 1`, so the active stages are always a
      prefix of the three. */
  function StepsActive(currentStep: int): (active: seq<bool>)
    ensures |active| == 3
    ensures forall i :: 0 <= i < 3 ==> (active[i] <==> currentStep >= i + 1)
    ensures forall i, j :: 0 <= i <= j < 3 && active[j] ==> active[i]
  {
    [currentStep >= 1, currentStep >= 2, currentStep >= 3]
  }

  /** How many stages are active: the active prefix has this length. */
  lemma ActiveStepsPrefix(currentStep: int)
    requires 1 <= currentStep <= 3
    ensures forall i :: 0 <= i < 3 ==> (StepsActive(currentStep)[i] <==> i < currentStep)
    ensures StepsActive(currentStep)[0]
  {
  }

  class Page {
    var currentStep: int
    var businessData: Option<BusinessData>
    var keywords: seq<string>
    var analysisData: Option<TrendAnalysis>
    var generatedContent: Option<GeneratedContent>

    /** The state the page opens in. */
    predicate Initial()
      reads this
    {
      currentStep == 1 && businessData == None && keywords == []
      && analysisData == None && generatedContent == None
    }

    constructor ()
      ensures Initial()
    {
      currentStep := 1;
      businessData := None;
      keywords := [];
      analysisData := None;
      generatedContent := None;
    }

    /** The business form is shown in stage one. */
    predicate ShowsBusinessForm()
      reads this
    {
      currentStep == 1
    }

    /** The keyword editor needs stage two and business data. */
    predicate ShowsKeywordEditor()
      reads this
    {
      currentStep == 2 && businessData.Some?
    }

    /** The trend results need stage three, an analysis and business data. */
    predicate ShowsTrendResults()
      reads this
    {
      currentStep == 3 && analysisData.Some? && businessData.Some?
    }

    /** `handleBusinessSubmit`: stores the profile and its keywords and opens
      the keyword editor. */
    method HandleBusinessSubmit(data: BusinessData, generatedKeywords: seq<string>)
      modifies this
      ensures currentStep == 2 && businessData == Some(data) && keywords == generatedKeywords
      ensures analysisData == old(analysisData) && generatedContent == old(generatedContent)
      ensures ShowsKeywordEditor() && !ShowsBusinessForm() && !ShowsTrendResults()
    {
      businessData := Some(data);
      keywords := generatedKeywords;
      currentStep := 2;
    }

    /** `onKeywordsUpdate`: the editor's list replaces the page's. */
    method SetKeywords(updated: seq<string>)
      modifies this
      ensures keywords == updated
      ensures currentStep == old(currentStep) && businessData == old(businessData)
      ensures analysisData == old(analysisData) && generatedContent == old(generatedContent)
    {
      keywords := updated;
    }

    /** `handleAnalysisComplete`: stores the analysis and moves to stage
      three, whose panel shows exactly when business data is present. */
    method HandleAnalysisComplete(data: TrendAnalysis)
      modifies this
      ensures currentStep == 3 && analysisData == Some(data)
      ensures businessData == old(businessData) && keywords == old(keywords)
      ensures generatedContent == old(generatedContent)
      ensures ShowsTrendResults() <==> businessData.Some?
    {
      analysisData := Some(data);
      currentStep := 3;
    }

    /** `handleContentGenerated`: stores the content; the stage stays. */
    method HandleContentGenerated(content: GeneratedContent)
      modifies this
      ensures generatedContent == Some(content)
      ensures currentStep == old(currentStep) && businessData == old(businessData)
      ensures keywords == old(keywords) && analysisData == old(analysisData)
    {
      generatedContent := Some(content);
    }

    /** `handleStartNewAnalysis`: back to exactly the opening state. */
    method HandleStartNewAnalysis()
      modifies this
      ensures Initial() && ShowsBusinessForm()
    {
      currentStep := 1;
      businessData := None;
      keywords := [];
      analysisData := None;
      generatedContent := None;
    }
  }

  /** At most one of the three main panels is shown at any time. */
  lemma OnePanelAtATime(p: Page)
    ensures !(p.ShowsBusinessForm() && p.ShowsKeywordEditor())
    ensures !(p.ShowsBusinessForm() && p.ShowsTrendResults())
    ensures !(p.ShowsKeywordEditor() && p.ShowsTrendResults())
  {
  }
}
