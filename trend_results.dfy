/** The trend results panel: the ideas and platforms selected for content
    generation, the colour band of an idea's relevance score, and the guard
    on the generate button. */
module TrendResults {
  import opened Lists
  import opened Api
  import Generator

  const Green: string := "bg-green-100 text-green-800"
  const Yellow: string := "bg-yellow-100 text-yellow-800"
  const Blue: string := "bg-blue-100 text-blue-800"

  /** `getScoreColor`: green from 0.8, yellow from 0.6, blue below. */
  function ScoreColor(score: real): (r: string)
    ensures r == Green <==> score >= 0.8
    ensures r == Yellow <==> 0.6 <= score < 0.8
    ensures r == Blue <==> score < 0.6
  {
    assert Green[3] == 'g' && Yellow[3] == 'y' && Blue[3] == 'b';
    if score >= 0.8 then Green else if score >= 0.6 then Yellow else Blue
  }

  /** The bands in increasing order of score. */
  function Band(color: string): int
  {
    if color == Green then 2 else if color == Yellow then 1 else 0
  }

  /** A higher score never gets a lower band. */
  lemma ScoreColorMonotone(s: real, t: real)
    requires s <= t
    ensures Band(ScoreColor(s)) <= Band(ScoreColor(t))
  {
  }

  /** The template ideas are never shown in blue: the first is green and the
      others are yellow. */
  lemma GeneratedIdeasColors(b: BusinessData, trends: TrendBundle)
    ensures var ideas := Generator.GeneratePostIdeas(b, trends);
            && ScoreColor(ideas[0].relevanceScore) == Green
            && forall i :: 1 <= i < |ideas| ==> ScoreColor(ideas[i].relevanceScore) == Yellow
  {
    var search, news := |trends.googleTrends| > 0, |trends.bbcArticles| > 0;
    var ideas := Generator.IdeaList(b, search, news);
    assert Generator.GeneratePostIdeas(b, trends) == ideas;
    assert ideas[0].relevanceScore == 0.8;
    assert forall i :: 1 <= i < |ideas| ==> 0.6 <= ideas[i].relevanceScore < 0.8;
  }

  class Selection {
    var selectedIdeas: seq<string>
    var selectedPlatforms: seq<string>

    /** No idea is selected; twitter and instagram are. */
    constructor ()
      ensures selectedIdeas == [] && selectedPlatforms == ["twitter", "instagram"]
      ensures NoDups(selectedIdeas) && NoDups(selectedPlatforms)
    {
      selectedIdeas := [];
      selectedPlatforms := ["twitter", "instagram"];
    }

    /** `toggleIdea`: removes every occurrence of a selected id, appends an
      unselected one. */
    method ToggleIdea(id: string)
      modifies this
      ensures selectedIdeas == Toggle(old(selectedIdeas), id)
      ensures selectedPlatforms == old(selectedPlatforms)
      ensures id in selectedIdeas <==> id !in old(selectedIdeas)
      ensures forall y :: y != id ==> (y in selectedIdeas <==> y in old(selectedIdeas))
      ensures NoDups(old(selectedIdeas)) ==> NoDups(selectedIdeas)
      ensures id !in old(selectedIdeas) && selectedPlatforms != [] ==> CanGenerate(false)
    {
      ToggleMembership(selectedIdeas, id);
      if NoDups(selectedIdeas) { ToggleNoDups(selectedIdeas, id); }
      selectedIdeas := if id in selectedIdeas then Without(selectedIdeas, id) else selectedIdeas + [id];
    }

    /** `togglePlatform`, the same on the platform selection. */
    method TogglePlatform(platform: string)
      modifies this
      ensures selectedPlatforms == Toggle(old(selectedPlatforms), platform)
      ensures selectedIdeas == old(selectedIdeas)
      ensures platform in selectedPlatforms <==> platform !in old(selectedPlatforms)
      ensures forall y :: y != platform ==> (y in selectedPlatforms <==> y in old(selectedPlatforms))
      ensures NoDups(old(selectedPlatforms)) ==> NoDups(selectedPlatforms)
    {
      ToggleMembership(selectedPlatforms, platform);
      if NoDups(selectedPlatforms) { ToggleNoDups(selectedPlatforms, platform); }
      selectedPlatforms := if platform in selectedPlatforms then Without(selectedPlatforms, platform)
                           else selectedPlatforms + [platform];
    }

    /** The generate button is enabled only when nothing is pending and both
      selections are non-empty. */
    predicate CanGenerate(pending: bool)
      reads this
      ensures CanGenerate(pending) <==> !pending && selectedIdeas != [] && selectedPlatforms != []
    {
      !pending && |selectedIdeas| > 0 && |selectedPlatforms| > 0
    }
  }

  /** Right after opening, generation waits for an idea to be picked. */
  lemma InitialGuard(s: Selection)
    requires s.selectedIdeas == []
    ensures !s.CanGenerate(false)
  {
  }
}
