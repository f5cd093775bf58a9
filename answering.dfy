/** The answer composer (main.py, answer_question, lines 256-295): the top
    three hits of each modality are laid out as a context block, which is sent
    with the question to the language model. */
module Answering {
  import opened Wrappers
  import opened Text
  import opened RagTypes
  import opened Retrieval

  /** One completion request to the language-model service. */
  datatype ChatRequest = ChatRequest(model: string, maxTokens: nat, prompt: string)

  datatype Answer = Answer(answer: string, sources: SearchResults)

  const TextHeader := "TEXT DESCRIPTIONS:"
  const VisualHeader := "\nVISUAL DESCRIPTIONS:"

  function TextLine(h: Hit): string
  {
    "- " + h.document
  }

  function VisualLine(h: Hit): string
  {
    "- " + h.document + " (from " + h.metadata.filename + ")"
  }

  /** The lines of the context block, in the order they are appended. */
  function ContextLines(r: SearchResults): seq<string>
  {
    [TextHeader]
      + seq(|r.textResults|, i requires 0 <= i < |r.textResults| => TextLine(r.textResults[i]))
      + [VisualHeader]
      + seq(|r.imageResults|, i requires 0 <= i < |r.imageResults| => VisualLine(r.imageResults[i]))
  }

  function Prompt(context: string, query: string): string
  {
    "Based on this product catalog information:\n\n" + context
      + "\n\nAnswer this question: " + query
      + "\n\nBe specific and reference the products you're talking about."
  }

  /** The loops of answer_question that append to context_parts. */
  method BuildContextParts(r: SearchResults) returns (parts: seq<string>)
    ensures parts == ContextLines(r)
  {
    parts := [TextHeader];
    var i := 0;
    while i < |r.textResults|
      invariant 0 <= i <= |r.textResults|
      invariant |parts| == 1 + i && parts[0] == TextHeader
      invariant forall k :: 0 <= k < i ==> parts[1 + k] == TextLine(r.textResults[k])
    {
      parts := parts + [TextLine(r.textResults[i])];
      i := i + 1;
    }
    parts := parts + [VisualHeader];
    var t := |r.textResults|;
    var j := 0;
    while j < |r.imageResults|
      invariant 0 <= j <= |r.imageResults|
      invariant |parts| == 2 + t + j && parts[0] == TextHeader && parts[1 + t] == VisualHeader
      invariant forall k :: 0 <= k < t ==> parts[1 + k] == TextLine(r.textResults[k])
      invariant forall k :: 0 <= k < j ==> parts[2 + t + k] == VisualLine(r.imageResults[k])
    {
      parts := parts + [VisualLine(r.imageResults[j])];
      j := j + 1;
    }
    ContextLinesLayout(r);
    assert |parts| == |ContextLines(r)|;
  }

  /** The context block: the text header, one bullet per text hit in rank
      order, the visual header, then one bullet per image hit naming its file. */
  lemma ContextLinesLayout(r: SearchResults)
    ensures var lines := ContextLines(r);
            var t := |r.textResults|;
            && |lines| == 2 + t + |r.imageResults|
            && lines[0] == TextHeader
            && lines[1 + t] == VisualHeader
            && (forall k :: 0 <= k < t ==> lines[1 + k] == "- " + r.textResults[k].document)
            && (forall k :: 0 <= k < |r.imageResults| ==>
                  lines[2 + t + k] == "- " + r.imageResults[k].document
                                      + " (from " + r.imageResults[k].metadata.filename + ")")
  {
  }

  /** answer_question(query): search with n_results=3 over both modalities,
      then one completion request ("gpt-4o", 500 tokens). A failure of either
      call propagates, which is None here. */
  method AnswerQuestion(query: string, embed: string -> Embedding,
                        store: Request -> Option<seq<StoreHit>>,
                        complete: ChatRequest -> Option<string>)
    returns (a: Option<Answer>)
    ensures var sources := Searched(query, 3, true, true, embed, store);
            a.None? <==> sources.None? || complete(QuestionRequest(sources.value, query)).None?
    ensures a.Some? ==>
              var sources := Searched(query, 3, true, true, embed, store);
              && a.value.sources == sources.value
              && a.value.answer == complete(QuestionRequest(sources.value, query)).value
  {
    var searchResults := Search(query, 3, true, true, embed, store);
    if searchResults.None? {
      return None;
    }
    var parts := BuildContextParts(searchResults.value);
    var context := Join(parts, "\n");
    var reply := complete(ChatRequest("gpt-4o", 500, Prompt(context, query)));
    if reply.None? {
      return None;
    }
    a := Some(Answer(reply.value, searchResults.value));
  }

  /** The completion request answer_question sends for these search results. */
  function QuestionRequest(sources: SearchResults, query: string): ChatRequest
  {
    ChatRequest("gpt-4o", 500, Prompt(Join(ContextLines(sources), "\n"), query))
  }
}
