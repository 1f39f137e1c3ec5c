/** Deriving the behavioural-health context tag from a member's query:
    the keyword classifier of the resource script and the check the LLM
    script applies to the language model's answer. */
module Context {
  import opened Text

  const Sud := "sud"
  const Anxiety := "anxiety"
  const Depression := "depression"
  const YouthBh := "youth-bh"
  const General := "general"

  /** The closed set of tags, in the order the LLM script lists them. */
  const AllowedTags: seq<string> := [Anxiety, Depression, Sud, YouthBh, General]

  /** The classifier's four keyword groups. They differ from the document
      filter's table: "overuse" is only here, "mental health" only there. */
  const SudTerms: seq<string> := ["drug", "alcohol", "substance", "overuse", "sud"]
  const AnxietyTerms: seq<string> := ["anxiety", "stress", "worry", "panic"]
  const DepressionTerms: seq<string> := ["depression", "sad", "mood", "hopeless"]
  const YouthTerms: seq<string> := ["youth", "child", "teen", "adolescent"]

  /** `detect_context`: the first group, in the fixed order sud, anxiety,
      depression, youth, with a keyword occurring in the lower-cased query
      decides the tag; a query matching no group is `general`. */
  function DetectContext(query: string): (r: string)
    ensures r in AllowedTags
    ensures r == Sud <==> MentionsAny(Lower(query), SudTerms)
    ensures r == Anxiety <==>
      !MentionsAny(Lower(query), SudTerms) && MentionsAny(Lower(query), AnxietyTerms)
    ensures r == Depression <==>
      && !MentionsAny(Lower(query), SudTerms)
      && !MentionsAny(Lower(query), AnxietyTerms)
      && MentionsAny(Lower(query), DepressionTerms)
    ensures r == YouthBh <==>
      && !MentionsAny(Lower(query), SudTerms)
      && !MentionsAny(Lower(query), AnxietyTerms)
      && !MentionsAny(Lower(query), DepressionTerms)
      && MentionsAny(Lower(query), YouthTerms)
    ensures r == General <==>
      && !MentionsAny(Lower(query), SudTerms)
      && !MentionsAny(Lower(query), AnxietyTerms)
      && !MentionsAny(Lower(query), DepressionTerms)
      && !MentionsAny(Lower(query), YouthTerms)
  {
    var q := Lower(query);
    if MentionsAny(q, SudTerms) then Sud
    else if MentionsAny(q, AnxietyTerms) then Anxiety
    else if MentionsAny(q, DepressionTerms) then Depression
    else if MentionsAny(q, YouthTerms) then YouthBh
    else General
  }

  /** A reference reading of the classifier: a table of (tag, keywords) rows
      scanned from the top, the first row with a hit giving the tag. */
  function FirstMatch(table: seq<(string, seq<string>)>, text: string, fallback: string): (r: string)
  {
    if table == [] then fallback
    else if MentionsAny(text, table[0].1) then table[0].0
    else FirstMatch(table[1..], text, fallback)
  }

  const ClassifierTable: seq<(string, seq<string>)> :=
    [(Sud, SudTerms), (Anxiety, AnxietyTerms), (Depression, DepressionTerms), (YouthBh, YouthTerms)]

  /** The scan returns the tag of the earliest row with a hit, and the
      fallback when no row has one. */
  lemma {:induction false} FirstMatchIsEarliest(table: seq<(string, seq<string>)>, text: string, fallback: string, k: nat)
    requires k < |table| && MentionsAny(text, table[k].1)
    requires forall j :: 0 <= j < k ==> !MentionsAny(text, table[j].1)
    ensures FirstMatch(table, text, fallback) == table[k].0
  {
    if k > 0 {
      assert !MentionsAny(text, table[0].1);
      FirstMatchIsEarliest(table[1..], text, fallback, k - 1);
    }
  }

  lemma {:induction false} FirstMatchFallsBack(table: seq<(string, seq<string>)>, text: string, fallback: string)
    requires forall j :: 0 <= j < |table| ==> !MentionsAny(text, table[j].1)
    ensures FirstMatch(table, text, fallback) == fallback
  {
    if table != [] {
      assert !MentionsAny(text, table[0].1);
      FirstMatchFallsBack(table[1..], text, fallback);
    }
  }

  /** The if-chain of the classifier is the ordered table scan over its four groups. */
  lemma DetectContextScansTable(query: string)
    ensures DetectContext(query) == FirstMatch(ClassifierTable, Lower(query), General)
  {
    var q := Lower(query);
    var t := ClassifierTable;
    if MentionsAny(q, SudTerms) {
      FirstMatchIsEarliest(t, q, General, 0);
    } else if MentionsAny(q, AnxietyTerms) {
      FirstMatchIsEarliest(t, q, General, 1);
    } else if MentionsAny(q, DepressionTerms) {
      FirstMatchIsEarliest(t, q, General, 2);
    } else if MentionsAny(q, YouthTerms) {
      FirstMatchIsEarliest(t, q, General, 3);
    } else {
      FirstMatchFallsBack(t, q, General);
    }
  }

  /** The classifier ignores the case of ASCII letters in the query. */
  lemma DetectContextIgnoresCase(query: string)
    ensures DetectContext(Lower(query)) == DetectContext(query)
  {
    LowerIdempotent(query);
  }

  /** A substance keyword decides `sud` whatever else the query mentions. */
  lemma SudTakesPrecedence(query: string, j: nat)
    requires j < |SudTerms| && Contains(Lower(query), SudTerms[j])
    ensures DetectContext(query) == Sud
  {
  }

  /** The resource script's sample query is classified as `sud`. */
  lemma SampleQueryIsSud()
    ensures DetectContext("I am struggling with drug and alcohol overuse") == Sud
  {
    var query := "I am struggling with drug and alcohol overuse";
    var q := Lower(query);
    assert query[21] == 'd' && query[22] == 'r' && query[23] == 'u' && query[24] == 'g';
    forall i | 21 <= i < 25
      ensures q[i] == query[i]
    {
      assert !IsUpper(query[i]);
    }
    assert q[21..25] == "drug";
    MentionedAt(q, SudTerms, 0, 21);
  }

  /** The tag check in `detect_context_llm`: the model's answer, stripped and
      lower-cased, is kept when it is one of the five tags and replaced by
      `general` otherwise. */
  function NormalizeTag(answer: string): (r: string)
    ensures r in AllowedTags
    ensures Lower(Strip(answer)) in AllowedTags ==> r == Lower(Strip(answer))
    ensures Lower(Strip(answer)) !in AllowedTags ==> r == General
  {
    var tag := Lower(Strip(answer));
    if tag in AllowedTags then tag else General
  }

  /** No tag carries whitespace margins or upper-case letters. */
  lemma TagsAreCanonical(t: string)
    requires t in AllowedTags
    ensures Strip(t) == t && Lower(t) == t
  {
    assert !IsSpace(t[0]) && !IsSpace(t[|t| - 1]);
    StripUnpadded(t);
    assert IsLower(t);
  }

  /** An answer that already is a tag comes back unchanged, so normalising
      twice is normalising once. */
  lemma NormalizeTagFixesTags(t: string)
    requires t in AllowedTags
    ensures NormalizeTag(t) == t
  {
    TagsAreCanonical(t);
  }

  lemma NormalizeTagIdempotent(answer: string)
    ensures NormalizeTag(NormalizeTag(answer)) == NormalizeTag(answer)
  {
    NormalizeTagFixesTags(NormalizeTag(answer));
  }

  /** Whitespace around the answer and the case of its letters do not matter:
      a tag written in any case and padded with whitespace is recognised. */
  lemma NormalizeTagRecognisesPadded(p: string, s: string, q: string)
    requires AllSpace(p) && AllSpace(q)
    requires Lower(s) in AllowedTags
    ensures NormalizeTag(p + s + q) == Lower(s)
  {
    var t := Lower(s);
    assert !IsSpace(t[0]) && !IsSpace(t[|t| - 1]);
    assert !IsSpace(s[0]) && !IsSpace(s[|s| - 1]);
    StripPadded(p, s, q);
  }

  /** The keyword classifier's tags pass the LLM script's check unchanged. */
  lemma DetectContextPassesTagCheck(query: string)
    ensures NormalizeTag(DetectContext(query)) == DetectContext(query)
  {
    NormalizeTagFixesTags(DetectContext(query));
  }

  /** An answer outside the tag set, such as "unknown", falls back to `general`. */
  lemma UnknownAnswerIsGeneral()
    ensures NormalizeTag("unknown") == General
  {
    StripUnpadded("unknown");
  }
}
