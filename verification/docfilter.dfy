/** Narrowing the tool's documents to the detected context: a keyword table
    per tag, a case-insensitive search of each document's name and
    description, and a fallback to the whole list when the search finds
    nothing. Both scripts run this same filter. */
module DocFilter {
  import opened Text
  import opened Seqs
  import opened Documents
  import opened Context

  /** The filter's keyword table per tag, distinct from the classifier's groups. */
  const FilterKeywords: map<string, seq<string>> := map[
    Sud := ["substance", "sud", "drug", "alcohol"],
    Anxiety := ["anxiety", "stress", "mental health"],
    Depression := ["depression", "mood", "mental health"],
    YouthBh := ["youth", "ybh", "young", "adolescent"],
    General := []
  ]

  /** The keyword list of a tag, with the empty list as the default: there
      are no keywords for `general` nor for any tag the table does not list. */
  function KeywordsFor(context: string): (kws: seq<string>)
    ensures context in FilterKeywords ==> kws == FilterKeywords[context]
    ensures kws == [] <==> context == General || context !in FilterKeywords
  {
    if context in FilterKeywords then FilterKeywords[context] else []
  }

  /** Some keyword occurs in the lower-cased name or the lower-cased
      description, a missing field reading as the empty string. Searching
      both fields for all keywords is searching each keyword in either field,
      and an empty keyword list matches nothing. */
  function MatchesAny(doc: Document, keywords: seq<string>): (b: bool)
    ensures b <==> exists i :: 0 <= i < |keywords| &&
                     (Contains(Lower(NameOrEmpty(doc)), keywords[i]) || Contains(Lower(DescriptionOrEmpty(doc)), keywords[i]))
    ensures b ==> keywords != []
  {
    MentionsAny(Lower(NameOrEmpty(doc)), keywords) || MentionsAny(Lower(DescriptionOrEmpty(doc)), keywords)
  }

  /** The condition a document must meet to be kept: there are no keywords
      at all, or one of them matches. */
  predicate Selected(keywords: seq<string>, doc: Document) {
    keywords == [] || MatchesAny(doc, keywords)
  }

  /** The filtered tool documents: the matching documents in their original
      order, or the whole input when there are no keywords or nothing matches. */
  function FilterByContext(docs: seq<Document>, context: string): (r: seq<Document>)
    ensures |docs| > 0 ==> |r| > 0
    ensures KeywordsFor(context) == [] ==> r == docs
    ensures (forall i :: 0 <= i < |docs| ==> !MatchesAny(docs[i], KeywordsFor(context))) ==> r == docs
    ensures (exists i :: 0 <= i < |docs| && MatchesAny(docs[i], KeywordsFor(context))) ==>
      && IsSubsequence(r, docs)
      && (forall i :: 0 <= i < |r| ==> MatchesAny(r[i], KeywordsFor(context)))
      && (forall d :: multiset(r)[d] == if MatchesAny(d, KeywordsFor(context)) then multiset(docs)[d] else 0)
  {
    var keywords := KeywordsFor(context);
    var kept := Filter(docs, d => Selected(keywords, d));
    FilterEmptyIff(docs, d => Selected(keywords, d));
    assert keywords == [] ==> kept == docs by {
      if keywords == [] {
        FilterKeepsAll(docs, d => Selected(keywords, d));
      }
    }
    if kept != [] then kept else docs
  }

  /** Every tag the classifiers can produce except `general` has keywords. */
  lemma TagsHaveKeywords(t: string)
    requires t in AllowedTags
    ensures KeywordsFor(t) == [] <==> t == General
  {
  }

  /** The output is always the input or an order-preserving selection of it. */
  lemma FilterByContextIsSubsequence(docs: seq<Document>, context: string)
    ensures IsSubsequence(FilterByContext(docs, context), docs)
  {
    var r := FilterByContext(docs, context);
    if r == docs {
      SubsequenceReflexive(docs);
    }
  }

  /** Filtering a filtered list again changes nothing. */
  lemma FilterByContextIdempotent(docs: seq<Document>, context: string)
    ensures FilterByContext(FilterByContext(docs, context), context) == FilterByContext(docs, context)
  {
    var keywords := KeywordsFor(context);
    var r := FilterByContext(docs, context);
    if r != docs {
      FilterKeepsAll(r, d => Selected(keywords, d));
    }
  }

  /** With `general`, or with a tag outside the table, nothing is filtered out. */
  lemma GeneralKeepsEverything(docs: seq<Document>, context: string)
    requires context == General || context !in FilterKeywords
    ensures FilterByContext(docs, context) == docs
  {
  }

  /** The example name "dental" contains no `sud` keyword. */
  lemma DentalIsNotSud()
    ensures !MatchesAny(Named("dental"), KeywordsFor(Sud))
  {
    var keys := KeywordsFor(Sud);
    assert !MentionsAny("dental", keys) by {
      forall i, j | 0 <= i < |keys| && 0 <= j <= |"dental"| - |keys[i]|
        ensures !OccursAt("dental", keys[i], j)
      {
        if i == 2 && j == 0 {
          assert "dental"[1] != keys[i][1];
        } else {
          assert "dental"[j] != keys[i][0];
        }
      }
    }
    assert !MentionsAny("", keys);
  }

  /** Neither example name, "sud" nor "dental", contains an `anxiety` keyword. */
  lemma ExampleNamesNotAnxiety(name: string)
    requires name == "sud" || name == "dental"
    ensures !MatchesAny(Named(name), KeywordsFor(Anxiety))
  {
    var keys := KeywordsFor(Anxiety);
    assert !MentionsAny(name, keys) by {
      forall i, j | 0 <= i < |keys| && 0 <= j <= |name| - |keys[i]|
        ensures !OccursAt(name, keys[i], j)
      {
        assert name[j] != keys[i][0];
      }
    }
    assert !MentionsAny("", keys);
  }

  /** A sud document is kept and an unrelated one dropped under `sud`; under
      `anxiety`, which neither matches, both are kept. */
  lemma FilterExample()
    ensures FilterByContext([Named("sud"), Named("dental")], Sud) == [Named("sud")]
    ensures FilterByContext([Named("sud"), Named("dental")], Anxiety) == [Named("sud"), Named("dental")]
  {
    var a := Named("sud");
    var b := Named("dental");
    var keys := KeywordsFor(Sud);
    assert keys[1] == "sud";
    MentionedAt(Lower(NameOrEmpty(a)), keys, 1, 0);
    DentalIsNotSud();
    var r := FilterByContext([a, b], Sud);
    assert multiset(r)[a] == 1 && multiset(r)[b] == 0;
    assert r == [a] by {
      assert |r| == |multiset(r)|;
      assert a in r;
    }
    ExampleNamesNotAnxiety("sud");
    ExampleNamesNotAnxiety("dental");
  }
}
