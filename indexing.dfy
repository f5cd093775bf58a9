/** The indexer (main.py, index_data, lines 72-135): one text record and one
    image record per catalog entry, gathered into the two batches that are
    added to the text and the image collection. */
module Indexing {
  import opened Wrappers
  import opened Text
  import opened RagTypes

  /** The document of a text record: "name - description - color - category". */
  function TextContent(item: CatalogItem): string
  {
    item.name + " - " + item.description + " - " + item.color + " - " + item.category
  }

  function ImagePath(filename: string): string
  {
    "images/" + filename
  }

  function TextId(i: nat): string
  {
    "text_" + NatToString(i)
  }

  function ImageId(i: nat): string
  {
    "image_" + NatToString(i)
  }

  function TextMetadata(item: CatalogItem): Metadata
  {
    TextMeta(item.filename, item.name, item.color, item.category, item.price)
  }

  function ImageMetadata(item: CatalogItem, caption: string): Metadata
  {
    ImageMeta(item.filename, ImagePath(item.filename), caption)
  }

  /** The four lists of a batch have one entry per catalog entry. */
  predicate Aligned(b: Batch, n: nat)
  {
    |b.documents| == n && |b.embeddings| == n && |b.ids| == n && |b.metadatas| == n
  }

  /** The text batch: entry i describes catalog entry i under the id text_i
      and is embedded from its own document. */
  predicate IsTextBatch(b: Batch, catalog: seq<CatalogItem>, embed: string -> Embedding)
  {
    && Aligned(b, |catalog|)
    && forall i :: 0 <= i < |catalog| ==>
         && b.documents[i] == TextContent(catalog[i])
         && b.embeddings[i] == embed(TextContent(catalog[i]))
         && b.ids[i] == TextId(i)
         && b.metadatas[i] == TextMetadata(catalog[i])
  }

  /** The image batch: entry i holds the caption the vision service gave for
      images/<filename> of catalog entry i, under the id image_i. */
  predicate IsImageBatch(b: Batch, catalog: seq<CatalogItem>, embed: string -> Embedding,
                         describe: string -> Option<string>)
  {
    && Aligned(b, |catalog|)
    && forall i :: 0 <= i < |catalog| ==>
         var caption := describe(ImagePath(catalog[i].filename));
         && caption.Some?
         && b.documents[i] == caption.value
         && b.embeddings[i] == embed(caption.value)
         && b.ids[i] == ImageId(i)
         && b.metadatas[i] == ImageMetadata(catalog[i], caption.value)
  }

  /** Appending catalog entry i's text record extends a text batch for the
      first i entries to one for the first i + 1. */
  lemma TextBatchSnoc(b: Batch, catalog: seq<CatalogItem>, i: nat, embed: string -> Embedding)
    requires i < |catalog|
    requires IsTextBatch(b, catalog[..i], embed)
    ensures IsTextBatch(Batch(b.documents + [TextContent(catalog[i])], b.embeddings + [embed(TextContent(catalog[i]))],
                              b.ids + [TextId(i)], b.metadatas + [TextMetadata(catalog[i])]),
                        catalog[..i + 1], embed)
  {
    var prefix := catalog[..i + 1];
    assert forall k :: 0 <= k < i ==> prefix[k] == catalog[..i][k];
  }

  /** The same for the image record built from catalog entry i's caption. */
  lemma ImageBatchSnoc(b: Batch, catalog: seq<CatalogItem>, i: nat, embed: string -> Embedding,
                       describe: string -> Option<string>, caption: string)
    requires i < |catalog|
    requires IsImageBatch(b, catalog[..i], embed, describe)
    requires describe(ImagePath(catalog[i].filename)) == Some(caption)
    ensures IsImageBatch(Batch(b.documents + [caption], b.embeddings + [embed(caption)],
                               b.ids + [ImageId(i)], b.metadatas + [ImageMetadata(catalog[i], caption)]),
                         catalog[..i + 1], embed, describe)
  {
    var prefix := catalog[..i + 1];
    assert forall k :: 0 <= k < i ==> prefix[k] == catalog[..i][k];
  }

  /** Some catalog entry's image could not be described. */
  predicate SomeCaptionFails(catalog: seq<CatalogItem>, describe: string -> Option<string>)
  {
    exists i :: 0 <= i < |catalog| && describe(ImagePath(catalog[i].filename)).None?
  }

  /** index_data: `embed` is the sentence-embedding model, `describe` the
      vision service (None when the call raises). A failing call aborts the
      loop before either `add`, so nothing is indexed. */
  method IndexData(catalog: seq<CatalogItem>, embed: string -> Embedding,
                   describe: string -> Option<string>)
    returns (r: Option<(Batch, Batch)>)
    ensures r.None? <==> SomeCaptionFails(catalog, describe)
    ensures r.Some? ==> IsTextBatch(r.value.0, catalog, embed)
    ensures r.Some? ==> IsImageBatch(r.value.1, catalog, embed, describe)
    ensures r.Some? ==> NoDup(r.value.0.ids) && NoDup(r.value.1.ids)
  {
    var textDocs: seq<string> := [];
    var textEmbeddings: seq<Embedding> := [];
    var textIds: seq<string> := [];
    var textMetadatas: seq<Metadata> := [];
    var imageDocs: seq<string> := [];
    var imageEmbeddings: seq<Embedding> := [];
    var imageIds: seq<string> := [];
    var imageMetadatas: seq<Metadata> := [];
    var i := 0;
    while i < |catalog|
      invariant 0 <= i <= |catalog|
      invariant IsTextBatch(Batch(textDocs, textEmbeddings, textIds, textMetadatas), catalog[..i], embed)
      invariant IsImageBatch(Batch(imageDocs, imageEmbeddings, imageIds, imageMetadatas), catalog[..i], embed, describe)
    {
      var item := catalog[i];
      var imagePath := ImagePath(item.filename);
      var textContent := TextContent(item);
      TextBatchSnoc(Batch(textDocs, textEmbeddings, textIds, textMetadatas), catalog, i, embed);
      textDocs := textDocs + [textContent];
      textEmbeddings := textEmbeddings + [embed(textContent)];
      textIds := textIds + [TextId(i)];
      textMetadatas := textMetadatas + [TextMetadata(item)];
      var caption := describe(imagePath);
      if caption.None? {
        return None;
      }
      ImageBatchSnoc(Batch(imageDocs, imageEmbeddings, imageIds, imageMetadatas), catalog, i, embed, describe, caption.value);
      imageDocs := imageDocs + [caption.value];
      imageEmbeddings := imageEmbeddings + [embed(caption.value)];
      imageIds := imageIds + [ImageId(i)];
      imageMetadatas := imageMetadatas + [ImageMetadata(item, caption.value)];
      i := i + 1;
    }
    assert catalog[..i] == catalog;
    var text := Batch(textDocs, textEmbeddings, textIds, textMetadatas);
    var image := Batch(imageDocs, imageEmbeddings, imageIds, imageMetadatas);
    IdsDistinct(text, image, catalog, embed, describe);
    r := Some((text, image));
  }

  /** Ids are unique within each collection, and no text id equals an image id. */
  lemma IdsDistinct(text: Batch, image: Batch, catalog: seq<CatalogItem>,
                    embed: string -> Embedding, describe: string -> Option<string>)
    requires IsTextBatch(text, catalog, embed)
    requires IsImageBatch(image, catalog, embed, describe)
    ensures NoDup(text.ids) && NoDup(image.ids)
    ensures forall i, j :: 0 <= i < |catalog| && 0 <= j < |catalog| ==> text.ids[i] != image.ids[j]
  {
    forall i, j | 0 <= i < |catalog| && 0 <= j < |catalog| && i != j
      ensures text.ids[i] != text.ids[j] && image.ids[i] != image.ids[j]
    {
      TaggedDistinct("text_", i, j);
      TaggedDistinct("image_", i, j);
    }
    forall i, j | 0 <= i < |catalog| && 0 <= j < |catalog|
      ensures text.ids[i] != image.ids[j]
    {
      assert text.ids[i][1] == 'e' && image.ids[j][1] == 'm';
    }
  }

  /** Every record names the filename of the catalog entry it came from; when
      the catalog's filenames are distinct (they are the keys of the catalog
      file's object), that entry is the only one with this filename. */
  lemma RecordsIdentifyTheirItem(text: Batch, image: Batch, catalog: seq<CatalogItem>,
                                 embed: string -> Embedding, describe: string -> Option<string>,
                                 i: nat, j: nat)
    requires IsTextBatch(text, catalog, embed)
    requires IsImageBatch(image, catalog, embed, describe)
    requires forall a, b :: 0 <= a < |catalog| && 0 <= b < |catalog| && a != b ==>
               catalog[a].filename != catalog[b].filename
    requires i < |catalog| && j < |catalog|
    ensures text.metadatas[i].filename == catalog[j].filename <==> i == j
    ensures image.metadatas[i].filename == catalog[j].filename <==> i == j
    ensures text.metadatas[i].filename == image.metadatas[i].filename
  {
  }
}
