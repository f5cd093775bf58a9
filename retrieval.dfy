/** The retriever (main.py, search lines 140-178 and hybrid_search lines
    180-254). The query embedding comes from `embed`; the store's answer to a
    request comes from `store`, None standing for a query that raised. */
module Retrieval {
  import opened Wrappers
  import opened RagTypes
  import opened WhereClause

  function ToHit(h: StoreHit): Hit
  {
    Hit(h.document, h.metadata, h.distance)
  }

  /** Python's range(min(n, len)) has this many elements. */
  function CopyCount(n: int, len: nat): (c: nat)
    ensures c <= len
    ensures n >= 0 ==> c <= n
    ensures n <= 0 ==> c == 0
    ensures n > 0 ==> c == n || c == len
  {
    if n <= 0 then 0 else if n < len then n else len
  }

  /** The first `count` rows of a reply, as result entries. */
  function Hits(reply: seq<StoreHit>, count: int): seq<Hit>
  {
    seq(CopyCount(count, |reply|), i requires 0 <= i < CopyCount(count, |reply|) => ToHit(reply[i]))
  }

  /** What search returns: each selected modality's reply copied row by row.
      search catches nothing, so a selected query that raises makes the whole
      call fail. */
  function Searched(query: string, n: int, searchImages: bool, searchText: bool,
                    embed: string -> Embedding, store: Request -> Option<seq<StoreHit>>)
    : Option<SearchResults>
  {
    var e := embed(query);
    var textReply := store(Request(TextCollection, e, n, None));
    var imageReply := store(Request(ImageCollection, e, n, None));
    if (searchText && textReply.None?) || (searchImages && imageReply.None?) then None
    else Some(SearchResults(
      query, None,
      if searchText then Hits(textReply.value, |textReply.value|) else [],
      if searchImages then Hits(imageReply.value, |imageReply.value|) else []))
  }

  /** The request hybrid_search puts to one collection: twice the wanted
      number of hits, under the translated filter. */
  function HybridRequest(c: Collection, query: string, n: int, filters: Option<Filter>,
                         embed: string -> Embedding): Request
  {
    Request(c, embed(query), n * 2, WhereFor(filters))
  }

  /** What hybrid_search returns: per selected modality the first min(n, returned)
      rows of the reply; a modality that is off or whose query raised stays empty. */
  function HybridSearched(query: string, n: int, filters: Option<Filter>,
                          searchImages: bool, searchText: bool,
                          embed: string -> Embedding, store: Request -> Option<seq<StoreHit>>)
    : SearchResults
  {
    var textReply := store(HybridRequest(TextCollection, query, n, filters, embed));
    var imageReply := store(HybridRequest(ImageCollection, query, n, filters, embed));
    SearchResults(
      query, filters,
      if searchText && textReply.Some? then Hits(textReply.value, n) else [],
      if searchImages && imageReply.Some? then Hits(imageReply.value, n) else [])
  }

  /** The copy loop shared by both operations: for i in range(min(count, len)). */
  method CopyHits(reply: seq<StoreHit>, count: int) returns (hits: seq<Hit>)
    ensures hits == Hits(reply, count)
  {
    hits := [];
    var m := if count < |reply| then count else |reply|;
    var i := 0;
    while i < m
      invariant 0 <= i <= CopyCount(count, |reply|)
      invariant |hits| == i
      invariant forall k :: 0 <= k < i ==> hits[k] == ToHit(reply[k])
    {
      hits := hits + [ToHit(reply[i])];
      i := i + 1;
    }
  }

  /** search(query, n_results, search_images, search_text). */
  method Search(query: string, n: int, searchImages: bool, searchText: bool,
                embed: string -> Embedding, store: Request -> Option<seq<StoreHit>>)
    returns (r: Option<SearchResults>)
    ensures r == Searched(query, n, searchImages, searchText, embed, store)
  {
    var e := embed(query);
    var textResults: seq<Hit> := [];
    var imageResults: seq<Hit> := [];
    if searchText {
      var reply := store(Request(TextCollection, e, n, None));
      if reply.None? {
        return None;
      }
      textResults := CopyHits(reply.value, |reply.value|);
    }
    if searchImages {
      var reply := store(Request(ImageCollection, e, n, None));
      if reply.None? {
        return None;
      }
      imageResults := CopyHits(reply.value, |reply.value|);
    }
    r := Some(SearchResults(query, None, textResults, imageResults));
  }

  /** hybrid_search(query, n_results, filters, search_images, search_text). */
  method HybridSearch(query: string, n: int, filters: Option<Filter>,
                      searchImages: bool, searchText: bool,
                      embed: string -> Embedding, store: Request -> Option<seq<StoreHit>>)
    returns (r: SearchResults)
    ensures r == HybridSearched(query, n, filters, searchImages, searchText, embed, store)
  {
    var e := embed(query);
    var textResults: seq<Hit> := [];
    var imageResults: seq<Hit> := [];
    var whereClause := BuildWhereClause(filters);
    if searchText {
      var reply := store(Request(TextCollection, e, n * 2, whereClause));
      if reply.Some? {
        textResults := CopyHits(reply.value, n);
      }
    }
    if searchImages {
      var reply := store(Request(ImageCollection, e, n * 2, whereClause));
      if reply.Some? {
        imageResults := CopyHits(reply.value, n);
      }
    }
    r := SearchResults(query, filters, textResults, imageResults);
  }

  /** search returns, per selected modality, exactly as many entries as the
      store returned rows, entry i taken from row i; it fails exactly when a
      selected query raised. */
  lemma SearchCopiesEveryRow(query: string, n: int, searchImages: bool, searchText: bool,
                             embed: string -> Embedding, store: Request -> Option<seq<StoreHit>>)
    ensures var textReply := store(Request(TextCollection, embed(query), n, None));
            var imageReply := store(Request(ImageCollection, embed(query), n, None));
            var r := Searched(query, n, searchImages, searchText, embed, store);
            && (r.None? <==> (searchText && textReply.None?) || (searchImages && imageReply.None?))
            && (r.Some? && searchText ==>
                  |r.value.textResults| == |textReply.value|
                  && forall i :: 0 <= i < |textReply.value| ==> r.value.textResults[i] == ToHit(textReply.value[i]))
            && (r.Some? && searchImages ==>
                  |r.value.imageResults| == |imageReply.value|
                  && forall i :: 0 <= i < |imageReply.value| ==> r.value.imageResults[i] == ToHit(imageReply.value[i]))
            && (r.Some? && !searchText ==> r.value.textResults == [])
            && (r.Some? && !searchImages ==> r.value.imageResults == [])
  {
  }

  /** hybrid_search asks for 2n hits and keeps the first min(n, returned) of
      them in store order; a modality that is off or whose query raised is empty. */
  lemma HybridKeepsPrefix(query: string, n: int, filters: Option<Filter>,
                          searchImages: bool, searchText: bool,
                          embed: string -> Embedding, store: Request -> Option<seq<StoreHit>>)
    ensures var reply := store(Request(TextCollection, embed(query), 2 * n, WhereFor(filters)));
            var r := HybridSearched(query, n, filters, searchImages, searchText, embed, store);
            && (searchText && reply.Some? ==>
                  |r.textResults| == CopyCount(n, |reply.value|)
                  && forall i :: 0 <= i < |r.textResults| ==> r.textResults[i] == ToHit(reply.value[i]))
            && (!searchText || reply.None? ==> r.textResults == [])
    ensures var reply := store(Request(ImageCollection, embed(query), 2 * n, WhereFor(filters)));
            var r := HybridSearched(query, n, filters, searchImages, searchText, embed, store);
            && (searchImages && reply.Some? ==>
                  |r.imageResults| == CopyCount(n, |reply.value|)
                  && forall i :: 0 <= i < |r.imageResults| ==> r.imageResults[i] == ToHit(reply.value[i]))
            && (!searchImages || reply.None? ==> r.imageResults == [])
  {
    assert HybridRequest(TextCollection, query, n, filters, embed)
        == Request(TextCollection, embed(query), 2 * n, WhereFor(filters));
    assert HybridRequest(ImageCollection, query, n, filters, embed)
        == Request(ImageCollection, embed(query), 2 * n, WhereFor(filters));
  }

  /** A failing text query does not affect the image results: two stores that
      answer the image request alike give the same image results, whatever
      they answer for text, and the other way round. */
  lemma ModalitiesIndependent(query: string, n: int, filters: Option<Filter>,
                              searchImages: bool, searchText: bool, embed: string -> Embedding,
                              store1: Request -> Option<seq<StoreHit>>,
                              store2: Request -> Option<seq<StoreHit>>)
    ensures (store1(HybridRequest(ImageCollection, query, n, filters, embed))
             == store2(HybridRequest(ImageCollection, query, n, filters, embed)))
            ==> (HybridSearched(query, n, filters, searchImages, searchText, embed, store1).imageResults
                 == HybridSearched(query, n, filters, searchImages, searchText, embed, store2).imageResults)
    ensures (store1(HybridRequest(TextCollection, query, n, filters, embed))
             == store2(HybridRequest(TextCollection, query, n, filters, embed)))
            ==> (HybridSearched(query, n, filters, searchImages, searchText, embed, store1).textResults
                 == HybridSearched(query, n, filters, searchImages, searchText, embed, store2).textResults)
  {
  }

  /** The first k rows of a ranking: how a store that ranks a collection by
      distance answers an unfiltered request for k hits. */
  function TopK(ranking: seq<StoreHit>, k: nat): seq<StoreHit>
  {
    if k < |ranking| then ranking[..k] else ranking
  }

  /** With no filter, hybrid_search gives what search gives, provided the store
      answers every unfiltered request by the top of one fixed ranking per
      collection: over-fetching 2n and keeping n equals fetching n. */
  lemma {:induction false} HybridWithoutFilterIsSearch(
    query: string, n: nat, searchImages: bool, searchText: bool,
    embed: string -> Embedding, store: Request -> Option<seq<StoreHit>>,
    textRanking: seq<StoreHit>, imageRanking: seq<StoreHit>)
    requires forall k: nat {:trigger TopK(textRanking, k)} ::
      store(Request(TextCollection, embed(query), k, None)) == Some(TopK(textRanking, k))
    requires forall k: nat {:trigger TopK(imageRanking, k)} ::
      store(Request(ImageCollection, embed(query), k, None)) == Some(TopK(imageRanking, k))
    ensures Searched(query, n, searchImages, searchText, embed, store)
         == Some(HybridSearched(query, n, None, searchImages, searchText, embed, store))
    ensures var h := HybridSearched(query, n, Some([]), searchImages, searchText, embed, store);
            && Searched(query, n, searchImages, searchText, embed, store).Some?
            && Searched(query, n, searchImages, searchText, embed, store).value.textResults == h.textResults
            && Searched(query, n, searchImages, searchText, embed, store).value.imageResults == h.imageResults
  {
    var e := embed(query);
    assert WhereFor(None) == None;
    assert WhereFor(Some([])) == None;
    assert store(Request(TextCollection, e, n, None)) == Some(TopK(textRanking, n));
    assert store(Request(TextCollection, e, n * 2, None)) == Some(TopK(textRanking, n * 2));
    assert store(Request(ImageCollection, e, n, None)) == Some(TopK(imageRanking, n));
    assert store(Request(ImageCollection, e, n * 2, None)) == Some(TopK(imageRanking, n * 2));
    TopKPrefix(textRanking, n);
    TopKPrefix(imageRanking, n);
  }

  /** Keeping n of the top 2n is keeping the top n. */
  lemma TopKPrefix(ranking: seq<StoreHit>, n: nat)
    ensures Hits(TopK(ranking, n), |TopK(ranking, n)|) == Hits(TopK(ranking, n * 2), n)
  {
    var a, b := Hits(TopK(ranking, n), |TopK(ranking, n)|), Hits(TopK(ranking, n * 2), n);
    assert |a| == |b|;
    forall i | 0 <= i < |a| ensures a[i] == b[i] {
      assert a[i] == ToHit(ranking[i]);
      assert b[i] == ToHit(ranking[i]);
    }
  }

  /** A filter that the store matches with no row gives an empty list for that
      modality, not a failure. */
  lemma NoMatchGivesEmpty(query: string, n: int, filters: Option<Filter>,
                          searchImages: bool, searchText: bool,
                          embed: string -> Embedding, store: Request -> Option<seq<StoreHit>>)
    ensures store(HybridRequest(TextCollection, query, n, filters, embed)) == Some([]) ==>
              HybridSearched(query, n, filters, searchImages, searchText, embed, store).textResults == []
    ensures store(HybridRequest(ImageCollection, query, n, filters, embed)) == Some([]) ==>
              HybridSearched(query, n, filters, searchImages, searchText, embed, store).imageResults == []
  {
  }
}
