/** The five-step home wizard: business form, keyword review, analysis in
    progress, results with idea and platform selection, and generated
    content. The outcome of each awaited request is an input. */
module HomeWizard {
  import opened Wrappers
  import opened Lists
  import opened Api

  datatype Step = Input | Keywords | Analyzing | Results | Content

  datatype Platform = Twitter | Instagram | Facebook

  /** The business profile together with its keyword list. */
  datatype WizardBusiness = WizardBusiness(profile: BusinessData, keywords: seq<string>)

  /** The parts of an analysis result the wizard uses. */
  datatype AnalysisResult = AnalysisResult(requestId: string, postIdeas: seq<PostIdea>)

  /** The position of a step in the wizard's order. */
  function Position(s: Step): nat
  {
    match s
    case Input => 0
    case Keywords => 1
    case Analyzing => 2
    case Results => 3
    case Content => 4
  }

  /** `getStepNumber`: the progress indicator shows three stages; the
      analysing step belongs to the second and the content step to the
      third. */
  function StepNumber(s: Step): (n: int)
    ensures 1 <= n <= 3
    ensures n == 1 <==> s == Input
    ensures n == 3 <==> s == Results || s == Content
  {
    match s
    case Input => 1
    case Keywords => 2
    case Analyzing => 2
    case Results => 3
    case Content => 3
  }

  /** The stage number never goes down along the wizard's order. */
  lemma StepNumberMonotone(s: Step, t: Step)
    requires Position(s) <= Position(t)
    ensures StepNumber(s) <= StepNumber(t)
  {
  }

  const InitialPlatforms: seq<Platform> := [Twitter, Instagram]

  class Wizard {
    var currentStep: Step
    var businessData: Option<WizardBusiness>
    var keywords: seq<string>
    var analysisResult: Option<AnalysisResult>
    var contentResult: Option<GeneratedContent>
    var selectedIdeas: seq<string>
    var selectedPlatforms: seq<Platform>
    /** Every step the wizard has been set to, oldest first. */
    ghost var visited: seq<Step>

    /** The state the page opens in. */
    predicate Initial()
      reads this
    {
      && currentStep == Input && businessData == None && keywords == []
      && analysisResult == None && contentResult == None
      && selectedIdeas == [] && selectedPlatforms == InitialPlatforms
    }

    constructor ()
      ensures Initial() && visited == []
    {
      currentStep := Input;
      businessData := None;
      keywords := [];
      analysisResult := None;
      contentResult := None;
      selectedIdeas := [];
      selectedPlatforms := InitialPlatforms;
      visited := [];
    }

    /** `handleBusinessFormSubmit`: with the keyword request answered, the
      keywords it returned (or none) become both the profile's and the
      page's list and the wizard moves to keyword review; a failed request
      changes nothing. */
    method HandleBusinessFormSubmit(form: BusinessData, reply: Response<Option<seq<string>>>)
      modifies this
      ensures reply.Fail? ==> currentStep == old(currentStep) && businessData == old(businessData)
                              && keywords == old(keywords) && visited == old(visited)
      ensures reply.Reply? ==>
                var generated := if reply.body.Some? then reply.body.value else [];
                && businessData == Some(WizardBusiness(form, generated))
                && keywords == generated
                && currentStep == Keywords && visited == old(visited) + [Keywords]
      ensures analysisResult == old(analysisResult) && contentResult == old(contentResult)
      ensures selectedIdeas == old(selectedIdeas) && selectedPlatforms == old(selectedPlatforms)
    {
      if reply.Reply? {
        var generated := if reply.body.Some? then reply.body.value else [];
        businessData := Some(WizardBusiness(form, generated));
        keywords := generated;
        currentStep := Keywords;
        visited := visited + [Keywords];
      }
    }

    /** `handleStartAnalysis`: without business data nothing happens;
      otherwise the wizard shows the analysing step and then the results,
      or returns to keyword review when the analysis fails. The request
      carries the profile with the page's current keywords. */
    method HandleStartAnalysis(reply: Response<AnalysisResult>) returns (request: Option<WizardBusiness>)
      modifies this
      ensures old(businessData).None? ==> request == None && currentStep == old(currentStep)
                                          && analysisResult == old(analysisResult) && visited == old(visited)
      ensures old(businessData).Some? ==>
                && request == Some(WizardBusiness(old(businessData).value.profile, old(keywords)))
                && (reply.Reply? ==> analysisResult == Some(reply.body) && currentStep == Results
                                     && visited == old(visited) + [Analyzing, Results])
                && (reply.Fail? ==> analysisResult == old(analysisResult) && currentStep == Keywords
                                    && visited == old(visited) + [Analyzing, Keywords])
      ensures businessData == old(businessData) && keywords == old(keywords)
      ensures contentResult == old(contentResult)
      ensures selectedIdeas == old(selectedIdeas) && selectedPlatforms == old(selectedPlatforms)
    {
      if businessData.None? {
        return None;
      }
      request := Some(WizardBusiness(businessData.value.profile, keywords));
      currentStep := Analyzing;
      visited := visited + [Analyzing];
      if reply.Reply? {
        analysisResult := Some(reply.body);
        currentStep := Results;
        visited := visited + [Results];
      } else {
        currentStep := Keywords;
        visited := visited + [Keywords];
      }
    }

    /** `handleIdeaToggle`. */
    method HandleIdeaToggle(id: string)
      modifies this
      ensures selectedIdeas == Toggle(old(selectedIdeas), id)
      ensures id in selectedIdeas <==> id !in old(selectedIdeas)
      ensures selectedPlatforms == old(selectedPlatforms) && currentStep == old(currentStep)
      ensures visited == old(visited)
      ensures businessData == old(businessData) && keywords == old(keywords)
      ensures analysisResult == old(analysisResult) && contentResult == old(contentResult)
    {
      ToggleMembership(selectedIdeas, id);
      selectedIdeas := Toggle(selectedIdeas, id);
    }

    /** `handlePlatformToggle`. */
    method HandlePlatformToggle(p: Platform)
      modifies this
      ensures selectedPlatforms == Toggle(old(selectedPlatforms), p)
      ensures p in selectedPlatforms <==> p !in old(selectedPlatforms)
      ensures selectedIdeas == old(selectedIdeas) && currentStep == old(currentStep)
      ensures visited == old(visited)
      ensures businessData == old(businessData) && keywords == old(keywords)
      ensures analysisResult == old(analysisResult) && contentResult == old(contentResult)
    {
      ToggleMembership(selectedPlatforms, p);
      selectedPlatforms := Toggle(selectedPlatforms, p);
    }

    /** Whether `handleGenerateContent` sends a request. */
    predicate CanGenerateContent()
      reads this
      ensures CanGenerateContent() <==> analysisResult.Some? && selectedIdeas != [] && selectedPlatforms != []
    {
      analysisResult.Some? && |selectedIdeas| > 0 && |selectedPlatforms| > 0
    }

    /** `handleGenerateContent`: without an analysis or with an empty
      selection nothing happens; otherwise a successful request stores the
      content and moves to the content step, and a failed one changes
      nothing. */
    method HandleGenerateContent(reply: Response<GeneratedContent>)
      modifies this
      ensures !old(CanGenerateContent()) || reply.Fail? ==>
                contentResult == old(contentResult) && currentStep == old(currentStep) && visited == old(visited)
      ensures old(CanGenerateContent()) && reply.Reply? ==>
                contentResult == Some(reply.body) && currentStep == Content && visited == old(visited) + [Content]
      ensures businessData == old(businessData) && keywords == old(keywords)
      ensures analysisResult == old(analysisResult)
      ensures selectedIdeas == old(selectedIdeas) && selectedPlatforms == old(selectedPlatforms)
    {
      if !CanGenerateContent() {
        return;
      }
      if reply.Reply? {
        contentResult := Some(reply.body);
        currentStep := Content;
        visited := visited + [Content];
      }
    }

    /** `handleStartNewAnalysis`: back to exactly the opening state. */
    method HandleStartNewAnalysis()
      modifies this
      ensures Initial() && !CanGenerateContent()
      ensures visited == old(visited) + [Input]
    {
      currentStep := Input;
      businessData := None;
      keywords := [];
      analysisResult := None;
      contentResult := None;
      selectedIdeas := [];
      selectedPlatforms := InitialPlatforms;
      visited := visited + [Input];
    }
  }
}
