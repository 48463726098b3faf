/**
  The per-URL loop of the generator (app.py, lines 36-84): for every URL the
  records of its images are collected, wrapped into the page document, and a
  `(url, img_schema)` row is appended to the results.

  Fetching a URL and parsing its HTML are not modelled: each input page
  already carries its URL and the `<img>` elements found in it, in document
  order.
 */
module Generator {
  import opened Wrappers
  import opened JsonValue
  import opened ImageSchema

  /** One input URL together with the `<img>` elements of the page it names. */
  datatype FetchedPage = FetchedPage(url: string, images: seq<Image>)

  /** One row of the results table: the URL and its JSON-LD document. */
  datatype ResultRow = ResultRow(url: string, imgSchema: Json)

  function RowOf(page: FetchedPage): (row: ResultRow)
    ensures row.url == page.url
    ensures row.imgSchema.Obj? && "url" in row.imgSchema.fields && row.imgSchema.fields["url"] == Str(row.url)
  {
    ResultRow(page.url, SchemaJson(SchemaOf(page.url, page.images)))
  }

  function ResultsOf(pages: seq<FetchedPage>): (results: seq<ResultRow>)
    ensures |results| == |pages|
    ensures forall k :: 0 <= k < |pages| ==> results[k].url == pages[k].url
  {
    if pages == [] then []
    else ResultsOf(pages[..|pages| - 1]) + [RowOf(pages[|pages| - 1])]
  }

  /**
    Builds the results table as the script does, appending to lists inside
    nested loops and inserting `height` and `width` into each record only when
    the element has them.
   */
  method GenerateSchemas(pages: seq<FetchedPage>) returns (results: seq<ResultRow>)
    ensures results == ResultsOf(pages)
    ensures |results| == |pages|
    ensures forall k :: 0 <= k < |pages| ==>
      results[k].url == pages[k].url
      && results[k].imgSchema == SchemaJson(SchemaOf(pages[k].url, pages[k].images))
  {
    results := [];
    for i := 0 to |pages|
      invariant results == ResultsOf(pages[..i])
    {
      var url := pages[i].url;
      var images := pages[i].images;
      var imageSchemas: seq<ImageRecord> := [];
      for j := 0 to |images|
        invariant imageSchemas == RecordsOf(images[..j])
      {
        var image := images[j];
        var imageSchema := ImageRecord(ImageObjectType, Get(image, "alt"), Get(image, "alt"),
                                       Get(image, "src"), None, None);
        var height := Get(image, "height");
        if height.Some? {
          imageSchema := imageSchema.(height := height);
        }
        var width := Get(image, "width");
        if width.Some? {
          imageSchema := imageSchema.(width := width);
        }
        if imageSchema.contentUrl.Some? {
          imageSchemas := imageSchemas + [imageSchema];
        }
        assert images[..j + 1][..j] == images[..j];
      }
      assert images[..|images|] == images;
      var schema := PageSchema(SchemaContext, ImageObjectType, url, imageSchemas);
      results := results + [ResultRow(url, SchemaJson(schema))];
      assert pages[..i + 1][..i] == pages[..i];
    }
    assert pages[..|pages|] == pages;
    ResultsAt(pages);
  }

  /** Exactly one row per input URL, in input order. */
  lemma {:induction false} ResultsAt(pages: seq<FetchedPage>)
    ensures |ResultsOf(pages)| == |pages|
    ensures forall k :: 0 <= k < |pages| ==> ResultsOf(pages)[k] == RowOf(pages[k])
  {
    if pages != [] {
      var n := |pages| - 1;
      ResultsAt(pages[..n]);
      assert forall k :: 0 <= k < n ==> pages[..n][k] == pages[k];
    }
  }

  /**
    Every row's `img_schema` reads back as a page document whose `url` is the
    row's `url` and whose records are those of that page; a page whose
    elements carry no `src` still has its row, with an empty `image` list.
   */
  lemma RowsMatchTheirSchemas(pages: seq<FetchedPage>)
    ensures |ResultsOf(pages)| == |pages|
    ensures forall k :: 0 <= k < |pages| ==>
      var row := ResultsOf(pages)[k];
      && row.url == pages[k].url
      && row.imgSchema.Obj? && "url" in row.imgSchema.fields
      && row.imgSchema.fields["url"] == Str(row.url)
      && SchemaFromJson(row.imgSchema)
         == Some(PageSchema("https://schema.org", "ImageObject", row.url, RecordsOf(pages[k].images)))
      && (SrcIndices(pages[k].images) == [] ==> row.imgSchema.fields["image"] == Arr([]))
  {
    ResultsAt(pages);
    forall k | 0 <= k < |pages|
      ensures var row := ResultsOf(pages)[k];
        && row.imgSchema.Obj? && "url" in row.imgSchema.fields
        && row.imgSchema.fields["url"] == Str(row.url)
        && SchemaFromJson(row.imgSchema)
           == Some(PageSchema("https://schema.org", "ImageObject", row.url, RecordsOf(pages[k].images)))
        && (SrcIndices(pages[k].images) == [] ==> row.imgSchema.fields["image"] == Arr([]))
    {
      SchemaShape(pages[k].url, pages[k].images);
      SchemaRoundTrip(SchemaOf(pages[k].url, pages[k].images));
    }
  }

  /**
    Entry j of a row's `image` list is the record object of the j-th element
    of that page that carries `src`: it has a `height` key exactly when that
    element has a `height` attribute, likewise `width`, and no key beyond the
    fixed four and those two.
   */
  lemma RowImageEntry(pages: seq<FetchedPage>, k: nat, j: nat)
    requires k < |pages| && j < |SrcIndices(pages[k].images)|
    ensures var images := pages[k].images;
      var i := SrcIndices(images)[j];
      var schema := ResultsOf(pages)[k].imgSchema;
      && i < |images|
      && schema.Obj? && "image" in schema.fields && schema.fields["image"].Arr?
      && j < |schema.fields["image"].items|
      && var entry := schema.fields["image"].items[j];
         && entry == RecordJson(RecordOf(images[i]))
         && entry.fields.Keys == {"@type", "name", "description", "contentUrl"}
                                 + (if "height" in images[i] then {"height"} else {})
                                 + (if "width" in images[i] then {"width"} else {})
         && ("height" in entry.fields <==> "height" in images[i])
         && ("width" in entry.fields <==> "width" in images[i])
  {
    ResultsAt(pages);
    var images := pages[k].images;
    SchemaShape(pages[k].url, images);
    RecordKeys(images[SrcIndices(images)[j]]);
  }
}
