/** The entities the retrieval system passes between the catalog, the vector
    store and its callers (main.py). Values only: nothing here is updated in place. */
module RagTypes {
  import opened Wrappers

  /** A JSON value as it appears in filter dictionaries and metadata. */
  datatype Value =
    | Str(s: string)
    | Int(i: int)
    | Number(r: real)
    | Bool(b: bool)
    | Null
    | List(items: seq<Value>)
    | Dict(entries: seq<(string, Value)>)

  /** A filter dictionary, as its items in insertion order:
      field name to an exact value or to an operator dictionary such as {"$lt": 300}. */
  type Filter = seq<(string, Value)>

  /** The vector store's native predicate tree. */
  datatype Where =
    | Eq(key: string, value: Value)                  // {key: {"$eq": value}}
    | Range(key: string, ops: seq<(string, Value)>)  // {key: ops}, the operator dictionary as given
    | And(clauses: seq<Where>)                       // {"$and": clauses}

  /** One entry of the catalog file, keyed by its filename. */
  datatype CatalogItem = CatalogItem(
    filename: string,
    name: string,
    color: string,
    description: string,
    category: string,
    price: Value)

  /** The metadata stored beside a record: text records keep the filtering
      attributes, image records the path and the caption. */
  datatype Metadata =
    | TextMeta(filename: string, name: string, color: string, category: string, price: Value)
    | ImageMeta(filename: string, imagePath: string, visualDescription: string)

  type Embedding = seq<real>

  /** The four parallel lists handed to one collection's `add`. */
  datatype Batch = Batch(
    documents: seq<string>,
    embeddings: seq<Embedding>,
    ids: seq<string>,
    metadatas: seq<Metadata>)

  /** The two collections: "product_descriptions" and "product_images". */
  datatype Collection = TextCollection | ImageCollection

  /** One nearest-neighbour query put to the store. `where` is None when no
      predicate is passed. */
  datatype Request = Request(
    collection: Collection,
    embedding: Embedding,
    nResults: int,
    where: Option<Where>)

  /** One row of the store's reply (its ids, documents, metadatas and
      distances lists, read at the same index). */
  datatype StoreHit = StoreHit(id: string, document: string, metadata: Metadata, distance: real)

  /** One entry of a result list. `document` is the "content" key of a text
      result and the "visual_description" key of an image result. */
  datatype Hit = Hit(document: string, metadata: Metadata, distance: real)

  /** What search and hybrid_search return. `filters` is the filter argument
      of hybrid_search; search records none. */
  datatype SearchResults = SearchResults(
    query: string,
    filters: Option<Filter>,
    textResults: seq<Hit>,
    imageResults: seq<Hit>)
}
