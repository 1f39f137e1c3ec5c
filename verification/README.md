# Behavioural-health context routing, modelled in Dafny

The client scripts of this repository take a member's free-text query,
derive a behavioural-health *context tag* (`sud`, `anxiety`, `depression`,
`youth-bh` or `general`), fetch a curated document list and a dynamic
("tool") document list from an MCP server, narrow the tool documents to the
context by keyword, and merge the two lists without repeating a curated
name. This project models the three pure routines in that flow and proves
their properties:

- the **keyword classifier** `detect_context` (first matching keyword group
  wins, in the fixed order sud, anxiety, depression, youth; else `general`),
  and the **tag check** of `detect_context_llm`, which strips and
  lower-cases the language model's answer and replaces anything outside
  the five tags by `general`;
- the **context filter** over the `CONTEXT_KEYWORDS` table, with its
  fallback to the unfiltered list when the tag has no keywords or nothing
  matches (the same code appears in both client scripts);
- the **curated/tool merge** that appends the tool documents whose `name`
  no curated document carries.

Modules: `Wrappers` (Option, Result), `Text` (ASCII lower-casing,
substring test, whitespace strip), `Seqs` (order-preserving selection and
the subsequence relation), `Documents` (the document record), `Context`
(classifier and tag check), `DocFilter`, `DocMerge`, and `Pipeline` (the
LLM script's steps composed).

A document is a record whose `name` and `description` may be missing
(`Option<string>`); the action links are carried along untouched. The
filter reads a missing field as `""` (`doc.get(..., "")`), while the merge
indexes `doc["name"]`, so a nameless document there is the error
`MissingName` (Python's `KeyError`) rather than a precondition.

## Model

| member | source | states |
|---|---|---|
| Context.DetectContext | mcp_client_prompt_resource.py:48-59 | the tag is one of the five; `sud` iff a substance keyword occurs in the lower-cased query; `anxiety`, `depression`, `youth-bh` iff that group hits and no earlier group does; `general` iff no group hits |
| Context.DetectContextScansTable | mcp_client_prompt_resource.py:50-59 | the classifier equals a top-down scan of the (tag, keywords) table with `general` as fallback, so the group order is the only tie-break |
| Context.FirstMatchIsEarliest | mcp_client_prompt_resource.py:50-57 | such a scan returns the tag of the earliest row with a keyword hit |
| Context.DetectContextIgnoresCase | mcp_client_prompt_resource.py:49 | classifying the lower-cased query gives the same tag as classifying the query |
| Context.SudTakesPrecedence | mcp_client_prompt_resource.py:50-51 | any substance keyword in the lower-cased query forces `sud`, whatever other groups also hit |
| Context.SampleQueryIsSud | mcp_client_prompt_resource.py:65 | "I am struggling with drug and alcohol overuse" is classified `sud` |
| Context.NormalizeTag | mcp_client_prompt_LLM.py:66-69 | the result is always one of the five tags; it is the stripped, lower-cased answer when that is a tag and `general` otherwise |
| Context.NormalizeTagFixesTags | mcp_client_prompt_LLM.py:68-69 | an answer that is already one of the five tags is returned unchanged |
| Context.NormalizeTagIdempotent | mcp_client_prompt_LLM.py:66-69 | checking an already checked answer changes nothing |
| Context.NormalizeTagRecognisesPadded | mcp_client_prompt_LLM.py:66 | a tag in any letter case with whitespace before and after is recognised as that tag |
| Context.DetectContextPassesTagCheck | mcp_client_prompt_LLM.py:68-69 | every tag the keyword classifier yields passes the LLM script's check unchanged |
| Context.UnknownAnswerIsGeneral | mcp_client_prompt_LLM.py:69 | the answer "unknown" becomes `general` |
| Text.Lower | mcp_client_prompt_resource.py:49 | `str.lower()` on ASCII letters: same length, each character lower-cased, no upper-case letter left, and a string without one unchanged |
| Text.Contains | mcp_client_prompt_resource.py:50 | the substring test `k in s`: the empty string occurs in every string, every string in itself, and nothing longer than `s` in `s` |
| Text.Strip | mcp_client_prompt_LLM.py:66 | `str.strip()`: the result neither starts nor ends with whitespace and is the part of the answer between two all-whitespace margins |
| DocFilter.MatchesAny | mcp_client_prompt_resource.py:174-178 | a document matches iff some keyword occurs in its lower-cased name or its lower-cased description, a missing field reading as `""`; no keywords, no match |
| Text.LowerIdempotent | mcp_client_prompt_resource.py:49 | lower-casing twice is lower-casing once |
| Text.StripPadded | mcp_client_prompt_LLM.py:66 | strip removes exactly the whitespace margins around a string whose ends are not whitespace, and maps blank strings to `""` |
| Seqs.Filter | mcp_client_prompt_resource.py:172-178 | a list comprehension keeps the qualifying elements in order, each as often as in the input, and nothing else |
| DocFilter.KeywordsFor | mcp_client_prompt_resource.py:163-171 | a listed tag gives its table row; the keyword list is empty exactly for `general` and for tags the table does not list |
| DocFilter.TagsHaveKeywords | mcp_client_prompt_resource.py:163-169 | of the five tags only `general` has no keywords |
| DocFilter.FilterByContext | mcp_client_prompt_resource.py:171-179 | non-empty input gives non-empty output; no keywords or no match gives the input unchanged; otherwise the output is the order-preserving subsequence of exactly the matching documents, with their multiplicities |
| DocFilter.FilterByContextIsSubsequence | mcp_client_prompt_resource.py:172-179 | the output is always an order-preserving subsequence of the input |
| DocFilter.FilterByContextIdempotent | mcp_client_prompt_resource.py:172-179 | filtering the filtered list again by the same tag changes nothing |
| DocFilter.GeneralKeepsEverything | mcp_client_prompt_LLM.py:201-211 | with `general` or a tag absent from the table the LLM script's copy of the filter returns its input unchanged |
| DocFilter.FilterExample | mcp_client_prompt_LLM.py:203-211 | under `sud` a document named "sud" is kept and one named "dental" dropped; under `anxiety` neither matches and both are kept |
| DocMerge.NamesOf | mcp_client_prompt_LLM.py:224 | the name set holds the name of every named document and nothing else |
| DocMerge.Merge | mcp_client_prompt_LLM.py:224-226 | fails exactly when some curated or tool document lacks a name; otherwise the result starts with the curated list unchanged, is at most curated plus tools long, and continues with an order-preserving subsequence of the tools holding exactly the tool documents with a name not among the curated names |
| DocMerge.MergeWithNothing | mcp_client_prompt_LLM.py:224-226 | merging with no tool documents returns the curated list |
| DocMerge.MergeWithItself | mcp_client_prompt_LLM.py:224-226 | merging the curated list with itself returns it unchanged |
| DocMerge.MergeKeepsAllNames | mcp_client_prompt_LLM.py:224-226 | the merged list's names are exactly the curated names together with the tool names |
| DocMerge.MergeExample | mcp_client_prompt_LLM.py:224-226 | curated `A` with tools `A`, `B` gives `A`, `B` |
| Pipeline.FinalDocs | mcp_client_prompt_LLM.py:203-226 | fails exactly when a curated document or a filtered tool document lacks a name, so a nameless tool document the filter drops is harmless; with all documents named the pipeline succeeds; its result starts with the curated list, and the rest is an order-preserving subsequence of the tool output holding exactly the documents of the context-filtered tool list whose name is new, with their multiplicities; when some tool document matches the tag, every added document matches it; for a `general` answer it is the merge with the unfiltered tool output |
| Pipeline.NamelessDroppedDocumentIsHarmless | mcp_client_prompt_LLM.py:204-225 | under `sud`, tool documents `{}` and `{"name": "sud"}` merge without error: the nameless one is filtered out before its name is indexed |
| Pipeline.FilteredStayNamed | mcp_client_prompt_LLM.py:204-211 | the filter never introduces a nameless document, so the merge cannot fail on filtered tool documents that were all named |

## Left out

- `mcp_call` (both scripts) and everything in `mcp_client.py` and `mcp_client_pydantic.py`: HTTP requests with random request ids and a pass-through validation model are I/O.
- The calls to the Anthropic API in `detect_context_llm` and `summarize_docs_llm`: a remote, non-deterministic service; the model's answer is a parameter of `Context.NormalizeTag` and of `Pipeline.FinalDocs`.
- Probing of JSON-RPC responses, `json.loads` of nested content and the `try`/`except` fallbacks to empty lists: parsing of a library's dynamically shaped output. The documents arrive already parsed.
- Console output, including the "first truthy link or N/A" display and the summary blocks: reporting only.
- `behaviorhealth_fastapi.py`: an HTTP relay whose only logic is wrapping a non-list payload in a one-element list.
- `Text.Lower`: models `str.lower()` on ASCII letters only; Unicode case mapping is not modelled.
- `Text.Strip`: models `str.strip()` on ASCII whitespace only; Unicode spaces such as U+00A0 or U+2028 are not stripped.
- Documents whose `name` or `description` is present but not a string (JSON `null`, a number, an array, an object) are not modelled; fields are either absent or strings. With such a field the source may raise or, in the LLM script, silently empty the tool document list.
