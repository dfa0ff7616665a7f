/** The content service: for every selected idea found among the analysis'
    ideas and every selected platform, generate the platform's text, store
    it as one row, and report it in a map from idea id to platform to text.
    A failed store reports a per-platform error text instead and stores
    nothing.

    The generator is the deterministic template generator, which cannot
    fail; whether each store succeeds is an input, one flag per selected idea
    and platform. The rows stored are returned in insertion order. */
module Content {
  import opened Wrappers
  import opened Api
  import Generator

  /** One stored row of generated content. */
  datatype Row = Row(analysisId: string, ideaId: string, platform: string, content: string)

  /** `postIdeas.find(p => p.id === ideaId)`: the first idea with that id. */
  function FindIdea(ideas: seq<PostIdea>, id: string): (r: Option<PostIdea>)
    ensures r.Some? <==> Generator.HasIdea(ideas, id)
    ensures r.Some? ==> r.value.id == id && r.value in ideas
  {
    if ideas == [] then None
    else if ideas[0].id == id then Some(ideas[0])
    else
      assert forall i :: 1 <= i < |ideas| ==> ideas[i] == ideas[1..][i - 1];
      FindIdea(ideas[1..], id)
  }

  /** The idea found is the one at the first position holding that id. */
  lemma {:induction false} FindIdeaFirst(ideas: seq<PostIdea>, id: string)
    requires Generator.HasIdea(ideas, id)
    ensures exists i :: 0 <= i < |ideas| && ideas[i] == FindIdea(ideas, id).value
                        && forall j :: 0 <= j < i ==> ideas[j].id != id
  {
    if ideas[0].id != id {
      FindIdeaFirst(ideas[1..], id);
      var i :| 0 <= i < |ideas[1..]| && ideas[1..][i] == FindIdea(ideas[1..], id).value
               && forall j :: 0 <= j < i ==> ideas[1..][j].id != id;
      assert ideas[i + 1] == FindIdea(ideas, id).value;
      assert forall j :: 1 <= j < i + 1 ==> ideas[j].id == ideas[1..][j - 1].id;
    }
  }

  /** The text reported for a platform whose content could not be stored. */
  function ErrorText(platform: string): string
  {
    "Error generating content for " + platform + ". Please try again."
  }

  /** What one (idea, platform) cell reports, given whether its row was stored. */
  function Cell(b: BusinessData, idea: PostIdea, platform: string, stored: bool): string
  {
    if stored then Generator.GeneratePlatformContent(b, idea, platform) else ErrorText(platform)
  }

  /** The index of the last occurrence of `x` in `s`, or -1. */
  function LastIndexOf(s: seq<string>, x: string): (j: int)
    ensures -1 <= j < |s|
    ensures j < 0 <==> x !in s
    ensures j >= 0 ==> s[j] == x && forall k :: j < k < |s| ==> s[k] != x
  {
    if s == [] then -1
    else if s[|s| - 1] == x then |s| - 1
    else
      var j := LastIndexOf(s[..|s| - 1], x);
      assert s == s[..|s| - 1] + [s[|s| - 1]];
      j
  }

  /** The platform map of one idea after the platform loop: every platform
      written in order, so a repeated platform keeps its last cell. */
  function IdeaEntry(b: BusinessData, idea: PostIdea, platforms: seq<string>, stored: seq<bool>): map<string, string>
    requires |stored| == |platforms|
  {
    if platforms == [] then map[]
    else
      var n := |platforms| - 1;
      IdeaEntry(b, idea, platforms[..n], stored[..n])[platforms[n] := Cell(b, idea, platforms[n], stored[n])]
  }

  /** The rows the platform loop of one idea stores, in order. */
  function IdeaRows(analysisId: string, b: BusinessData, idea: PostIdea, platforms: seq<string>, stored: seq<bool>): seq<Row>
    requires |stored| == |platforms|
  {
    if platforms == [] then []
    else
      var n := |platforms| - 1;
      IdeaRows(analysisId, b, idea, platforms[..n], stored[..n])
      + if stored[n] then [Row(analysisId, idea.id, platforms[n], Generator.GeneratePlatformContent(b, idea, platforms[n]))]
        else []
  }

  /** One store flag per selected idea and platform. */
  predicate StoreOutcomes(selectedIdeas: seq<string>, platforms: seq<string>, stored: seq<seq<bool>>)
  {
    |stored| == |selectedIdeas| && forall i :: 0 <= i < |stored| ==> |stored[i]| == |platforms|
  }

  /** The result map after the idea loop: a selected id that names no idea is
      skipped; a repeated id is processed again and its last entry wins. */
  function ResultsFor(b: BusinessData, selectedIdeas: seq<string>, platforms: seq<string>,
                      ideas: seq<PostIdea>, stored: seq<seq<bool>>): GeneratedContent
    requires StoreOutcomes(selectedIdeas, platforms, stored)
  {
    if selectedIdeas == [] then map[]
    else
      var n := |selectedIdeas| - 1;
      var prev := ResultsFor(b, selectedIdeas[..n], platforms, ideas, stored[..n]);
      match FindIdea(ideas, selectedIdeas[n])
      case None => prev
      case Some(idea) => prev[selectedIdeas[n] := IdeaEntry(b, idea, platforms, stored[n])]
  }

  /** The rows the idea loop stores, in order. */
  function RowsFor(analysisId: string, b: BusinessData, selectedIdeas: seq<string>, platforms: seq<string>,
                   ideas: seq<PostIdea>, stored: seq<seq<bool>>): seq<Row>
    requires StoreOutcomes(selectedIdeas, platforms, stored)
  {
    if selectedIdeas == [] then []
    else
      var n := |selectedIdeas| - 1;
      RowsFor(analysisId, b, selectedIdeas[..n], platforms, ideas, stored[..n])
      + match FindIdea(ideas, selectedIdeas[n])
        case None => []
        case Some(idea) => IdeaRows(analysisId, b, idea, platforms, stored[n])
  }

  /** The platform loop for one found idea: the idea's platform map and the
      rows it stores. */
  method GenerateForIdea(analysisId: string, b: BusinessData, idea: PostIdea,
                         platforms: seq<string>, stored: seq<bool>)
    returns (entry: map<string, string>, rows: seq<Row>)
    requires |stored| == |platforms|
    ensures entry == IdeaEntry(b, idea, platforms, stored)
    ensures rows == IdeaRows(analysisId, b, idea, platforms, stored)
  {
    entry := map[];
    rows := [];
    var j := 0;
    while j < |platforms|
      invariant 0 <= j <= |platforms|
      invariant entry == IdeaEntry(b, idea, platforms[..j], stored[..j])
      invariant rows == IdeaRows(analysisId, b, idea, platforms[..j], stored[..j])
    {
      assert platforms[..j + 1][..j] == platforms[..j] && stored[..j + 1][..j] == stored[..j];
      var platform := platforms[j];
      assert IdeaEntry(b, idea, platforms[..j + 1], stored[..j + 1])
             == entry[platform := Cell(b, idea, platform, stored[j])];
      if stored[j] {
        var content := Generator.GeneratePlatformContent(b, idea, platform);
        rows := rows + [Row(analysisId, idea.id, platform, content)];
        entry := entry[platform := content];
      } else {
        entry := entry[platform := ErrorText(platform)];
      }
      j := j + 1;
    }
    assert platforms[..j] == platforms && stored[..j] == stored;
  }

  /** `generateContentForIdeas`. */
  method GenerateContentForIdeas(analysisId: string, b: BusinessData, selectedIdeas: seq<string>,
                                 selectedPlatforms: seq<string>, postIdeas: seq<PostIdea>, stored: seq<seq<bool>>)
    returns (results: GeneratedContent, inserted: seq<Row>)
    requires StoreOutcomes(selectedIdeas, selectedPlatforms, stored)
    ensures results == ResultsFor(b, selectedIdeas, selectedPlatforms, postIdeas, stored)
    ensures inserted == RowsFor(analysisId, b, selectedIdeas, selectedPlatforms, postIdeas, stored)
  {
    results := map[];
    inserted := [];
    var i := 0;
    while i < |selectedIdeas|
      invariant 0 <= i <= |selectedIdeas|
      invariant StoreOutcomes(selectedIdeas[..i], selectedPlatforms, stored[..i])
      invariant results == ResultsFor(b, selectedIdeas[..i], selectedPlatforms, postIdeas, stored[..i])
      invariant inserted == RowsFor(analysisId, b, selectedIdeas[..i], selectedPlatforms, postIdeas, stored[..i])
    {
      assert selectedIdeas[..i + 1][..i] == selectedIdeas[..i] && stored[..i + 1][..i] == stored[..i];
      var ideaId := selectedIdeas[i];
      var found := FindIdea(postIdeas, ideaId);
      if found.Some? {
        var entry, rows := GenerateForIdea(analysisId, b, found.value, selectedPlatforms, stored[i]);
        inserted := inserted + rows;
        results := results[ideaId := entry];
      }
      i := i + 1;
    }
    assert selectedIdeas[..i] == selectedIdeas && stored[..i] == stored;
  }

  // ---------------------------------------------------------------------
  // Properties

  /** One idea's map has a key for every selected platform and no other,
      and each holds the cell of that platform's last occurrence. */
  lemma {:induction false} IdeaEntrySpec(b: BusinessData, idea: PostIdea, platforms: seq<string>, stored: seq<bool>)
    requires |stored| == |platforms|
    ensures forall p :: p in IdeaEntry(b, idea, platforms, stored) <==> p in platforms
    ensures forall p :: p in platforms ==>
              IdeaEntry(b, idea, platforms, stored)[p] == Cell(b, idea, p, stored[LastIndexOf(platforms, p)])
  {
    if platforms != [] {
      var n := |platforms| - 1;
      IdeaEntrySpec(b, idea, platforms[..n], stored[..n]);
      assert platforms == platforms[..n] + [platforms[n]];
      forall p | p in platforms
        ensures IdeaEntry(b, idea, platforms, stored)[p] == Cell(b, idea, p, stored[LastIndexOf(platforms, p)])
      {
        if p != platforms[n] {
          assert LastIndexOf(platforms, p) == LastIndexOf(platforms[..n], p);
        }
      }
    }
  }

  /** The result has an entry for exactly the selected ids that name an
      idea, and each is the platform map built from its last selection. */
  lemma {:induction false} ResultsSpec(b: BusinessData, selectedIdeas: seq<string>, platforms: seq<string>,
                                       ideas: seq<PostIdea>, stored: seq<seq<bool>>)
    requires StoreOutcomes(selectedIdeas, platforms, stored)
    ensures forall k :: k in ResultsFor(b, selectedIdeas, platforms, ideas, stored)
                        <==> k in selectedIdeas && Generator.HasIdea(ideas, k)
    ensures forall k :: k in ResultsFor(b, selectedIdeas, platforms, ideas, stored) ==>
              ResultsFor(b, selectedIdeas, platforms, ideas, stored)[k]
              == IdeaEntry(b, FindIdea(ideas, k).value, platforms, stored[LastIndexOf(selectedIdeas, k)])
  {
    if selectedIdeas != [] {
      var n := |selectedIdeas| - 1;
      ResultsSpec(b, selectedIdeas[..n], platforms, ideas, stored[..n]);
      assert selectedIdeas == selectedIdeas[..n] + [selectedIdeas[n]];
      var r := ResultsFor(b, selectedIdeas, platforms, ideas, stored);
      forall k | k in r
        ensures r[k] == IdeaEntry(b, FindIdea(ideas, k).value, platforms, stored[LastIndexOf(selectedIdeas, k)])
      {
        if k != selectedIdeas[n] {
          assert LastIndexOf(selectedIdeas, k) == LastIndexOf(selectedIdeas[..n], k);
        }
      }
    }
  }

  /** When every store succeeds, every reported cell is the generated text
      for its idea and platform. */
  lemma AllStoredGivesContent(b: BusinessData, selectedIdeas: seq<string>, platforms: seq<string>,
                              ideas: seq<PostIdea>, stored: seq<seq<bool>>, k: string, p: string)
    requires StoreOutcomes(selectedIdeas, platforms, stored)
    requires forall i, j :: 0 <= i < |stored| && 0 <= j < |platforms| ==> stored[i][j]
    requires k in selectedIdeas && Generator.HasIdea(ideas, k) && p in platforms
    ensures k in ResultsFor(b, selectedIdeas, platforms, ideas, stored)
    ensures p in ResultsFor(b, selectedIdeas, platforms, ideas, stored)[k]
    ensures ResultsFor(b, selectedIdeas, platforms, ideas, stored)[k][p]
            == Generator.GeneratePlatformContent(b, FindIdea(ideas, k).value, p)
  {
    ResultsSpec(b, selectedIdeas, platforms, ideas, stored);
    var i := LastIndexOf(selectedIdeas, k);
    IdeaEntrySpec(b, FindIdea(ideas, k).value, platforms, stored[i]);
  }

  /** Every row stored for one idea belongs to the analysis, names a
      selected platform and holds that platform's generated text. */
  lemma {:induction false} IdeaRowsSpec(analysisId: string, b: BusinessData, idea: PostIdea,
                                        platforms: seq<string>, stored: seq<bool>)
    requires |stored| == |platforms|
    ensures forall r :: r in IdeaRows(analysisId, b, idea, platforms, stored) ==>
              r.analysisId == analysisId && r.ideaId == idea.id && r.platform in platforms
              && r.content == Generator.GeneratePlatformContent(b, idea, r.platform)
  {
    if platforms != [] {
      var n := |platforms| - 1;
      IdeaRowsSpec(analysisId, b, idea, platforms[..n], stored[..n]);
      assert forall p :: p in platforms[..n] ==> p in platforms;
    }
  }

  /** At most one row per platform occurrence; one per platform when every
      store succeeds, none when all fail. */
  lemma {:induction false} IdeaRowsCount(analysisId: string, b: BusinessData, idea: PostIdea,
                                         platforms: seq<string>, stored: seq<bool>)
    requires |stored| == |platforms|
    ensures |IdeaRows(analysisId, b, idea, platforms, stored)| <= |platforms|
    ensures (forall j :: 0 <= j < |stored| ==> stored[j]) ==> |IdeaRows(analysisId, b, idea, platforms, stored)| == |platforms|
    ensures (forall j :: 0 <= j < |stored| ==> !stored[j]) ==> IdeaRows(analysisId, b, idea, platforms, stored) == []
  {
    if platforms != [] {
      var n := |platforms| - 1;
      IdeaRowsCount(analysisId, b, idea, platforms[..n], stored[..n]);
    }
  }

  /** The number of successful stores among `stored`. */
  function Successes(stored: seq<bool>): nat
  {
    if stored == [] then 0 else Successes(stored[..|stored| - 1]) + if stored[|stored| - 1] then 1 else 0
  }

  /** The platform loop appends exactly one row per successful store, in
      loop order, and none per failed one: the platform whose store is the
      `k`-th success gives row `k`, holding that platform's generated text. */
  lemma {:induction false} IdeaRowsExact(analysisId: string, b: BusinessData, idea: PostIdea,
                                         platforms: seq<string>, stored: seq<bool>)
    requires |stored| == |platforms|
    ensures |IdeaRows(analysisId, b, idea, platforms, stored)| == Successes(stored)
    ensures forall j :: 0 <= j < |stored| && stored[j] ==>
              && Successes(stored[..j]) < |IdeaRows(analysisId, b, idea, platforms, stored)|
              && IdeaRows(analysisId, b, idea, platforms, stored)[Successes(stored[..j])]
                 == Row(analysisId, idea.id, platforms[j], Generator.GeneratePlatformContent(b, idea, platforms[j]))
  {
    if platforms != [] {
      var n := |platforms| - 1;
      IdeaRowsExact(analysisId, b, idea, platforms[..n], stored[..n]);
      var r := IdeaRows(analysisId, b, idea, platforms, stored);
      var init := IdeaRows(analysisId, b, idea, platforms[..n], stored[..n]);
      assert r[..|init|] == init;
      forall j | 0 <= j < |stored| && stored[j]
        ensures Successes(stored[..j]) < |r|
        ensures r[Successes(stored[..j])]
                == Row(analysisId, idea.id, platforms[j], Generator.GeneratePlatformContent(b, idea, platforms[j]))
      {
        if j < n {
          assert stored[..n][..j] == stored[..j];
          assert stored[..n][j] == stored[j] && platforms[..n][j] == platforms[j];
        } else {
          assert stored[..j] == stored[..n];
        }
      }
    }
  }

  /** Every stored row belongs to the analysis, to a selected id that names
      an idea and to a selected platform, and holds the generated text. */
  lemma {:induction false} RowsSpec(analysisId: string, b: BusinessData, selectedIdeas: seq<string>,
                                    platforms: seq<string>, ideas: seq<PostIdea>, stored: seq<seq<bool>>)
    requires StoreOutcomes(selectedIdeas, platforms, stored)
    ensures forall r :: r in RowsFor(analysisId, b, selectedIdeas, platforms, ideas, stored) ==>
              && r.analysisId == analysisId
              && r.ideaId in selectedIdeas && FindIdea(ideas, r.ideaId).Some?
              && r.platform in platforms
              && r.content == Generator.GeneratePlatformContent(b, FindIdea(ideas, r.ideaId).value, r.platform)
  {
    if selectedIdeas != [] {
      var n := |selectedIdeas| - 1;
      RowsSpec(analysisId, b, selectedIdeas[..n], platforms, ideas, stored[..n]);
      assert forall k :: k in selectedIdeas[..n] ==> k in selectedIdeas;
      var found := FindIdea(ideas, selectedIdeas[n]);
      if found.Some? {
        IdeaRowsSpec(analysisId, b, found.value, platforms, stored[n]);
      }
    }
  }

  /** The rows of a non-empty selection are those of all but its last id,
      followed by the last id's rows, of which there are at most one per
      platform. */
  lemma RowsForLast(analysisId: string, b: BusinessData, selectedIdeas: seq<string>,
                    platforms: seq<string>, ideas: seq<PostIdea>, stored: seq<seq<bool>>)
    requires StoreOutcomes(selectedIdeas, platforms, stored) && selectedIdeas != []
    ensures var n := |selectedIdeas| - 1;
            |RowsFor(analysisId, b, selectedIdeas, platforms, ideas, stored)|
            <= |RowsFor(analysisId, b, selectedIdeas[..n], platforms, ideas, stored[..n])| + |platforms|
  {
    var n := |selectedIdeas| - 1;
    var found := FindIdea(ideas, selectedIdeas[n]);
    if found.Some? {
      IdeaRowsCount(analysisId, b, found.value, platforms, stored[n]);
    }
  }

  /** A failed store leaves no row, so there are at most as many rows as
      (idea, platform) selections. */
  lemma {:induction false} RowsBound(analysisId: string, b: BusinessData, selectedIdeas: seq<string>,
                                     platforms: seq<string>, ideas: seq<PostIdea>, stored: seq<seq<bool>>)
    requires StoreOutcomes(selectedIdeas, platforms, stored)
    ensures |RowsFor(analysisId, b, selectedIdeas, platforms, ideas, stored)| <= |selectedIdeas| * |platforms|
  {
    if selectedIdeas != [] {
      var n := |selectedIdeas| - 1;
      RowsBound(analysisId, b, selectedIdeas[..n], platforms, ideas, stored[..n]);
      RowsForLast(analysisId, b, selectedIdeas, platforms, ideas, stored);
      MulSucc(n, |platforms|);
    }
  }

  /** `(n + 1) * m` is `n * m + m`. */
  lemma MulSucc(n: nat, m: nat)
    ensures (n + 1) * m == n * m + m
  {
  }
}
