/** Steps 1, 4 and 5 of the LLM script composed: the model's answer checked
    against the tag set, the tool documents filtered by the resulting tag,
    and the survivors merged after the curated documents. */
module Pipeline {
  import opened Wrappers
  import opened Text
  import opened Seqs
  import opened Documents
  import opened Context
  import opened DocFilter
  import opened DocMerge

  /** The final document list handed to the summariser, or the error that the
      merge step raised. */
  function FinalDocs(answer: string, curated: seq<Document>, allDocs: seq<Document>): (r: Result<seq<Document>, MergeError>)
    ensures AllNamed(curated) && AllNamed(allDocs) ==> r.Success?
    ensures !AllNamed(curated) ==> r.Failure?
    ensures r.Failure? <==> !AllNamed(curated) || !AllNamed(FilterByContext(allDocs, NormalizeTag(answer)))
    ensures r.Success? ==> |curated| <= |r.value| <= |curated| + |allDocs|
    ensures r.Success? ==> r.value[..|curated|] == curated
    ensures r.Success? ==> IsSubsequence(r.value[|curated|..], allDocs)
    ensures r.Success? ==> forall i :: |curated| <= i < |r.value| ==> !NameAmong(NamesOf(curated), r.value[i])
    ensures r.Success? ==> forall d :: multiset(r.value[|curated|..])[d] ==
                                      if NameAmong(NamesOf(curated), d) then 0
                                      else multiset(FilterByContext(allDocs, NormalizeTag(answer)))[d]
    ensures r.Success? && (exists i :: 0 <= i < |allDocs| && MatchesAny(allDocs[i], KeywordsFor(NormalizeTag(answer)))) ==>
              forall i :: |curated| <= i < |r.value| ==> MatchesAny(r.value[i], KeywordsFor(NormalizeTag(answer)))
    ensures NormalizeTag(answer) == General ==> r == Merge(curated, allDocs)
  {
    var tools := FilterByContext(allDocs, NormalizeTag(answer));
    FilterByContextIsSubsequence(allDocs, NormalizeTag(answer));
    FilteredStayNamed(allDocs, NormalizeTag(answer));
    var r := Merge(curated, tools);
    assert r.Success? ==> IsSubsequence(r.value[|curated|..], allDocs) by {
      if r.Success? {
        SubsequenceTransitive(r.value[|curated|..], tools, allDocs);
      }
    }
    r
  }

  /** Filtering never brings in a document without a name. */
  lemma FilteredStayNamed(docs: seq<Document>, context: string)
    ensures AllNamed(docs) ==> AllNamed(FilterByContext(docs, context))
  {
    var r := FilterByContext(docs, context);
    if AllNamed(docs) && r != docs {
      forall i | 0 <= i < |r|
        ensures r[i].name.Some?
      {
        assert r[i] in multiset(r);
        assert r[i] in multiset(docs);
      }
    }
  }

  /** A document with neither name nor description matches no keyword table row. */
  lemma NamelessMatchesNothing(context: string)
    ensures !MatchesAny(Document(None, None, []), KeywordsFor(context))
  {
    var keys := KeywordsFor(context);
    forall i | 0 <= i < |keys|
      ensures !Contains("", keys[i])
    {
      assert keys[i] != [];
    }
  }

  /** The `sud` filter keeps only the named document of the example. */
  lemma SudFilterKeepsNamed()
    ensures AllNamed(FilterByContext([Document(None, None, []), Named(Sud)], Sud))
  {
    var docs := [Document(None, None, []), Named(Sud)];
    var keys := KeywordsFor(Sud);
    assert keys[1] == Sud;
    MentionedAt(Lower(NameOrEmpty(Named(Sud))), keys, 1, 0);
    assert MatchesAny(docs[1], keys);
    NamelessMatchesNothing(Sud);
    var kept := FilterByContext(docs, Sud);
    forall i | 0 <= i < |kept|
      ensures kept[i].name.Some?
    {
      assert MatchesAny(kept[i], keys);
    }
  }

  /** A nameless tool document that the `sud` filter drops does not make the
      pipeline fail: only the surviving, named document is merged. */
  lemma NamelessDroppedDocumentIsHarmless()
    ensures FinalDocs(Sud, [], [Document(None, None, []), Named(Sud)]).Success?
  {
    NormalizeTagFixesTags(Sud);
    SudFilterKeepsNamed();
  }
}
