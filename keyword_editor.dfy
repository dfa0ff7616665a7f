/** The keyword editor: the keyword list under review and the text of the
    keyword being typed. Removing and adding compute the new list, store it
    and report it to the parent, whose reports are kept here in order. */
module KeywordEditor {
  import opened Text
  import opened Lists

  /** The text `addKeyword` would append: the trimmed input, provided it is
      not blank and not already listed. */
  predicate Accepts(keywords: seq<string>, input: string)
  {
    Trim(input) != "" && Trim(input) !in keywords
  }

  /** The list after `addKeyword`. */
  function AddedKeywords(keywords: seq<string>, input: string): seq<string>
  {
    if Accepts(keywords, input) then keywords + [Trim(input)] else keywords
  }

  /** An accepted keyword is appended at the end and nothing else moves; a
      blank or already listed one changes nothing. Either way the list stays
      free of duplicates. */
  lemma AddedKeywordsSpec(keywords: seq<string>, input: string)
    ensures Accepts(keywords, input) ==> AddedKeywords(keywords, input)[..|keywords|] == keywords
                                         && |AddedKeywords(keywords, input)| == |keywords| + 1
                                         && AddedKeywords(keywords, input)[|keywords|] == Trim(input)
    ensures !Accepts(keywords, input) ==> AddedKeywords(keywords, input) == keywords
    ensures NoDups(keywords) ==> NoDups(AddedKeywords(keywords, input))
  {
    if Accepts(keywords, input) && NoDups(keywords) {
      AppendFreshNoDups(keywords, Trim(input));
    }
  }

  /** The list after `removeKeyword`: every occurrence gone, the rest in
      order, no duplicates introduced. */
  lemma RemovedKeywordsSpec(keywords: seq<string>, k: string)
    ensures forall y :: y in Without(keywords, k) <==> y in keywords && y != k
    ensures multiset(Without(keywords, k)) == multiset(keywords)[k := 0]
    ensures NoDups(keywords) ==> NoDups(Without(keywords, k))
  {
    WithoutMembers(keywords, k);
    WithoutCounts(keywords, k);
    if NoDups(keywords) { WithoutNoDups(keywords, k); }
  }

  /** The analyse button's guard on a keyword list: no analysis pending and
      at least one keyword. */
  predicate AnalyzeEnabled(keywords: seq<string>, pending: bool)
  {
    !pending && |keywords| > 0
  }

  class Editor {
    var keywords: seq<string>
    var newKeyword: string
    /** The lists passed to `onKeywordsUpdate`, oldest first. */
    var reported: seq<seq<string>>

    constructor (initialKeywords: seq<string>)
      ensures keywords == initialKeywords && newKeyword == "" && reported == []
    {
      keywords := initialKeywords;
      newKeyword := "";
      reported := [];
    }

    /** The input field's `onChange`. */
    method SetNewKeyword(text: string)
      modifies this
      ensures newKeyword == text
      ensures keywords == old(keywords) && reported == old(reported)
    {
      newKeyword := text;
    }

    /** `removeKeyword`: stores the filtered list and reports exactly it. */
    method RemoveKeyword(k: string)
      modifies this
      ensures keywords == Without(old(keywords), k)
      ensures reported == old(reported) + [keywords]
      ensures newKeyword == old(newKeyword)
      ensures NoDups(old(keywords)) ==> NoDups(keywords)
      ensures NoDups(old(keywords)) && k in old(keywords) ==> (CanAnalyze(false) <==> |old(keywords)| > 1)
    {
      AnalyzeGuard(keywords, newKeyword, k);
      RemovedKeywordsSpec(keywords, k);
      keywords := Without(keywords, k);
      reported := reported + [keywords];
    }

    /** `addKeyword`: an accepted input is appended, reported and cleared;
      otherwise neither the list nor the input changes and nothing is
      reported. */
    method AddKeyword()
      modifies this
      ensures keywords == AddedKeywords(old(keywords), old(newKeyword))
      ensures Accepts(old(keywords), old(newKeyword)) ==>
                newKeyword == "" && reported == old(reported) + [keywords]
      ensures !Accepts(old(keywords), old(newKeyword)) ==>
                newKeyword == old(newKeyword) && reported == old(reported)
      ensures NoDups(old(keywords)) ==> NoDups(keywords)
      ensures Accepts(old(keywords), old(newKeyword)) ==> CanAnalyze(false)
    {
      AddedKeywordsSpec(keywords, newKeyword);
      if Accepts(keywords, newKeyword) {
        keywords := keywords + [Trim(newKeyword)];
        reported := reported + [keywords];
        newKeyword := "";
      }
    }

    /** `handleKeyPress`: Enter adds exactly as `addKeyword` does, any other
      key does nothing. */
    method HandleKeyPress(key: string)
      modifies this
      ensures key == "Enter" ==> keywords == AddedKeywords(old(keywords), old(newKeyword))
      ensures key == "Enter" && Accepts(old(keywords), old(newKeyword)) ==>
                newKeyword == "" && reported == old(reported) + [keywords]
      ensures key == "Enter" && !Accepts(old(keywords), old(newKeyword)) ==>
                newKeyword == old(newKeyword) && reported == old(reported)
      ensures key != "Enter" ==> keywords == old(keywords) && newKeyword == old(newKeyword)
                                 && reported == old(reported)
      ensures NoDups(old(keywords)) ==> NoDups(keywords)
    {
      if key == "Enter" {
        AddKeyword();
      }
    }

    /** The analyse button is enabled only when no analysis is pending and
      there is at least one keyword. */
    predicate CanAnalyze(pending: bool)
      reads this
      ensures CanAnalyze(pending) <==> AnalyzeEnabled(keywords, pending)
    {
      AnalyzeEnabled(keywords, pending)
    }
  }

  /** On a duplicate-free list, removing a listed keyword leaves analysis
      enabled exactly when another keyword was listed, so removing the last
      one disables it; adding an accepted keyword always enables it. */
  lemma AnalyzeGuard(keywords: seq<string>, input: string, k: string)
    ensures NoDups(keywords) && k in keywords ==>
              (AnalyzeEnabled(Without(keywords, k), false) <==> |keywords| > 1)
    ensures Accepts(keywords, input) ==> AnalyzeEnabled(AddedKeywords(keywords, input), false)
  {
    WithoutMembers(keywords, k);
    if NoDups(keywords) && k in keywords {
      if |Without(keywords, k)| > 0 {
        var y := Without(keywords, k)[0];
        assert y in Without(keywords, k);
      }
      if |keywords| > 1 {
        var y := if keywords[0] != k then keywords[0] else keywords[1];
        assert y in keywords && y != k;
        assert y in Without(keywords, k);
      }
    }
  }
}
