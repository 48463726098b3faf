/**
  From the `<img>` elements of one page to the schema.org ImageObject records
  and the JSON-LD document that wraps them (app.py, lines 52-77).

  An `<img>` element is its attribute map; `Get` is BeautifulSoup's
  `image.get(key)`, which gives the attribute value or `None`.
 */
module ImageSchema {
  import opened Wrappers
  import opened JsonValue

  /** The attributes of one `<img>` element, by name. */
  type Image = map<string, string>

  const SchemaContext: string := "https://schema.org"
  const ImageObjectType: string := "ImageObject"

  function Get(image: Image, key: string): (v: Option<string>)
    ensures v.Some? <==> key in image
    ensures key in image ==> v.value == image[key]
  {
    if key in image then Some(image[key]) else None
  }

  /** Only an element with a `src` attribute yields a record. */
  predicate HasSrc(image: Image) {
    "src" in image
  }

  /**
    One ImageObject record. `name`, `description` and `contentUrl` are keys
    the record always has, possibly with the value null; `height` and `width`
    are keys it has only when the value is `Some`.
   */
  datatype ImageRecord = ImageRecord(
    kind: string,
    name: Option<string>,
    description: Option<string>,
    contentUrl: Option<string>,
    height: Option<string>,
    width: Option<string>)

  /** The top-level JSON-LD document for one page. */
  datatype PageSchema = PageSchema(
    context: string,
    kind: string,
    url: string,
    image: seq<ImageRecord>)

  // ---------------------------------------------------------------------
  // Specification of the image loop and the schema wrapper
  // ---------------------------------------------------------------------

  /** The record the loop body builds for one element, before the `src` test. */
  function RecordOf(image: Image): (r: ImageRecord)
    ensures r.kind == "ImageObject"
    ensures r.name == r.description
    ensures r.name.Some? <==> "alt" in image
    ensures r.contentUrl.Some? <==> HasSrc(image)
    ensures r.height.Some? <==> "height" in image
    ensures r.width.Some? <==> "width" in image
  {
    ImageRecord(ImageObjectType, Get(image, "alt"), Get(image, "alt"), Get(image, "src"),
                Get(image, "height"), Get(image, "width"))
  }

  /** The records kept for a sequence of elements, in document order. */
  function RecordsOf(images: seq<Image>): (rs: seq<ImageRecord>)
    ensures |rs| <= |images|
    ensures forall r :: r in rs ==> r.contentUrl.Some? && r.kind == "ImageObject"
    ensures (forall i :: 0 <= i < |images| ==> !HasSrc(images[i])) ==> rs == []
  {
    if images == [] then []
    else
      var last := images[|images| - 1];
      RecordsOf(images[..|images| - 1]) + (if HasSrc(last) then [RecordOf(last)] else [])
  }

  /** The positions of the elements that carry `src`, in increasing order. */
  function SrcIndices(images: seq<Image>): seq<nat> {
    if images == [] then []
    else
      var n := |images| - 1;
      SrcIndices(images[..n]) + (if HasSrc(images[n]) then [n] else [])
  }

  function SchemaOf(url: string, images: seq<Image>): (s: PageSchema)
    ensures s.context == "https://schema.org" && s.kind == "ImageObject" && s.url == url
    ensures |s.image| <= |images|
    ensures forall r :: r in s.image ==> r.contentUrl.Some?
  {
    PageSchema(SchemaContext, ImageObjectType, url, RecordsOf(images))
  }

  // ---------------------------------------------------------------------
  // The JSON objects the records and the document become, and back
  // ---------------------------------------------------------------------

  function RecordJson(r: ImageRecord): (j: Json)
    ensures j.Obj?
    ensures {"@type", "name", "description", "contentUrl"} <= j.fields.Keys
                                                           <= {"@type", "name", "description", "contentUrl", "height", "width"}
    ensures ("height" in j.fields <==> r.height.Some?) && ("width" in j.fields <==> r.width.Some?)
    ensures j.fields["name"].Null? <==> r.name.None?
    ensures j.fields["contentUrl"].Null? <==> r.contentUrl.None?
  {
    var base := map["@type" := Str(r.kind), "name" := OfOption(r.name),
                    "description" := OfOption(r.description),
                    "contentUrl" := OfOption(r.contentUrl)];
    var withHeight := if r.height.Some? then base["height" := Str(r.height.value)] else base;
    Obj(if r.width.Some? then withHeight["width" := Str(r.width.value)] else withHeight)
  }

  function RecordsJson(rs: seq<ImageRecord>): (items: seq<Json>)
    ensures |items| == |rs|
    ensures forall k :: 0 <= k < |rs| ==> items[k] == RecordJson(rs[k])
  {
    if rs == [] then [] else [RecordJson(rs[0])] + RecordsJson(rs[1..])
  }

  function SchemaJson(s: PageSchema): (j: Json)
    ensures j.Obj? && j.fields.Keys == {"@context", "@type", "url", "image"}
    ensures j.fields["url"] == Str(s.url)
    ensures j.fields["image"].Arr? && |j.fields["image"].items| == |s.image|
  {
    Obj(map["@context" := Str(s.context), "@type" := Str(s.kind), "url" := Str(s.url),
            "image" := Arr(RecordsJson(s.image))])
  }

  /** Reads an ImageObject record back from a JSON object, if it is one. */
  function RecordFromJson(j: Json): Option<ImageRecord> {
    if !j.Obj? then None
    else
      var f := j.fields;
      if && "@type" in f && f["@type"].Str?
         && "name" in f && IsStrOrNull(f["name"])
         && "description" in f && IsStrOrNull(f["description"])
         && "contentUrl" in f && IsStrOrNull(f["contentUrl"])
         && ("height" in f ==> f["height"].Str?)
         && ("width" in f ==> f["width"].Str?)
      then
        Some(ImageRecord(f["@type"].s, AsOption(f["name"]), AsOption(f["description"]),
                         AsOption(f["contentUrl"]),
                         if "height" in f then Some(f["height"].s) else None,
                         if "width" in f then Some(f["width"].s) else None))
      else None
  }

  function RecordsFromJson(items: seq<Json>): Option<seq<ImageRecord>> {
    if items == [] then Some([])
    else
      match (RecordFromJson(items[0]), RecordsFromJson(items[1..]))
      case (Some(r), Some(rs)) => Some([r] + rs)
      case _ => None
  }

  /** Reads a page document back from a JSON object, if it is one. */
  function SchemaFromJson(j: Json): Option<PageSchema> {
    if !j.Obj? then None
    else
      var f := j.fields;
      if && "@context" in f && f["@context"].Str?
         && "@type" in f && f["@type"].Str?
         && "url" in f && f["url"].Str?
         && "image" in f && f["image"].Arr?
      then
        match RecordsFromJson(f["image"].items)
        case Some(rs) => Some(PageSchema(f["@context"].s, f["@type"].s, f["url"].s, rs))
        case None => None
      else None
  }

  // ---------------------------------------------------------------------
  // Properties
  // ---------------------------------------------------------------------

  /**
    The record object for one element: `name` and `description` are both the
    `alt` attribute (null when it is absent), `contentUrl` is `src`, and
    `height` / `width` are keys exactly when the element has those attributes,
    with their values. No other key is present.
   */
  lemma RecordKeys(image: Image)
    ensures RecordJson(RecordOf(image)).Obj?
    ensures var f := RecordJson(RecordOf(image)).fields;
      && f.Keys == {"@type", "name", "description", "contentUrl"}
                   + (if "height" in image then {"height"} else {})
                   + (if "width" in image then {"width"} else {})
      && f["@type"] == Str("ImageObject")
      && f["name"] == f["description"] == (if "alt" in image then Str(image["alt"]) else Null)
      && f["contentUrl"] == (if "src" in image then Str(image["src"]) else Null)
      && ("height" in f <==> "height" in image)
      && ("height" in image ==> f["height"] == Str(image["height"]))
      && ("width" in f <==> "width" in image)
      && ("width" in image ==> f["width"] == Str(image["width"]))
  {
  }

  /**
    The records of a page are the records of its `src`-bearing elements, in
    document order and each exactly once: record k comes from element
    SrcIndices(images)[k], those positions increase, and every element with
    `src` is among them.
   */
  lemma {:induction false} RecordsInDocumentOrder(images: seq<Image>)
    ensures var idx := SrcIndices(images);
      && |RecordsOf(images)| == |idx|
      && (forall k :: 0 <= k < |idx| ==>
            idx[k] < |images| && HasSrc(images[idx[k]])
            && RecordsOf(images)[k] == RecordOf(images[idx[k]]))
      && (forall k, l :: 0 <= k < l < |idx| ==> idx[k] < idx[l])
      && (forall i :: 0 <= i < |images| && HasSrc(images[i]) ==> i in idx)
  {
    if images != [] {
      var n := |images| - 1;
      var prefix := images[..n];
      RecordsInDocumentOrder(prefix);
      var rs, idx := RecordsOf(prefix), SrcIndices(prefix);
      var extra := if HasSrc(images[n]) then [RecordOf(images[n])] else [];
      var more := if HasSrc(images[n]) then [n] else [];
      assert RecordsOf(images) == rs + extra;
      assert SrcIndices(images) == idx + more;
      forall k | 0 <= k < |idx|
        ensures idx[k] < |images| && HasSrc(images[idx[k]])
                && (rs + extra)[k] == RecordOf(images[idx[k]])
      {
        assert prefix[idx[k]] == images[idx[k]];
      }
      forall i | 0 <= i < n && HasSrc(images[i])
        ensures i in idx
      {
        assert prefix[i] == images[i];
      }
    }
  }

  /**
    Every record the page keeps has a `contentUrl`, and it is the `src` of one
    of the page's elements (`RecordsInDocumentOrder` says which one).
   */
  lemma EveryRecordHasContentUrl(images: seq<Image>)
    ensures forall r :: r in RecordsOf(images) ==>
      r.contentUrl.Some? && exists i :: 0 <= i < |images| && "src" in images[i]
                                        && r.contentUrl.value == images[i]["src"]
  {
    RecordsInDocumentOrder(images);
    var idx := SrcIndices(images);
    forall r | r in RecordsOf(images)
      ensures r.contentUrl.Some? && exists i :: 0 <= i < |images| && "src" in images[i]
                                               && r.contentUrl.value == images[i]["src"]
    {
      var k :| 0 <= k < |RecordsOf(images)| && RecordsOf(images)[k] == r;
      assert images[idx[k]]["src"] == r.contentUrl.value;
    }
  }

  /** An element without `src` adds no record wherever it stands. */
  lemma {:induction false} NoSrcNoRecord(before: seq<Image>, image: Image, after: seq<Image>)
    requires !HasSrc(image)
    ensures RecordsOf(before + [image] + after) == RecordsOf(before + after)
  {
    RecordsOfAppend(before + [image], after);
    RecordsOfAppend(before, [image]);
    RecordsOfAppend(before, after);
    assert [image][..0] == [];
  }

  /** The records of two runs of elements are the records of each, in order. */
  lemma {:induction false} RecordsOfAppend(a: seq<Image>, b: seq<Image>)
    ensures RecordsOf(a + b) == RecordsOf(a) + RecordsOf(b)
  {
    if b == [] {
      assert a + b == a;
    } else {
      var n := |b| - 1;
      var last := b[n];
      var extra := if HasSrc(last) then [RecordOf(last)] else [];
      RecordsOfAppend(a, b[..n]);
      assert (a + b)[..|a + b| - 1] == a + b[..n];
      assert (a + b)[|a + b| - 1] == last;
      calc {
        RecordsOf(a + b);
        RecordsOf(a + b[..n]) + extra;
        (RecordsOf(a) + RecordsOf(b[..n])) + extra;
        RecordsOf(a) + (RecordsOf(b[..n]) + extra);
        RecordsOf(a) + RecordsOf(b);
      }
    }
  }

  /**
    The document always has the fixed `@context` and `@type`, the page's URL,
    and one entry under `image` per `src`-bearing element (none for a page
    without any), and has no other key. Entry j is the record object of the
    j-th element that carries `src`.
   */
  lemma SchemaShape(url: string, images: seq<Image>)
    ensures SchemaJson(SchemaOf(url, images)).Obj?
    ensures var f := SchemaJson(SchemaOf(url, images)).fields;
      && f.Keys == {"@context", "@type", "url", "image"}
      && f["@context"] == Str("https://schema.org")
      && f["@type"] == Str("ImageObject")
      && f["url"] == Str(url)
      && f["image"].Arr?
      && |f["image"].items| == |SrcIndices(images)|
      && (SrcIndices(images) == [] ==> f["image"] == Arr([]))
      && (forall j :: 0 <= j < |SrcIndices(images)| ==>
            SrcIndices(images)[j] < |images|
            && f["image"].items[j] == RecordJson(RecordOf(images[SrcIndices(images)[j]])))
  {
    RecordsInDocumentOrder(images);
  }

  lemma RecordRoundTrip(r: ImageRecord)
    ensures RecordFromJson(RecordJson(r)) == Some(r)
  {
    AsOptionOfOption(r.name);
    AsOptionOfOption(r.description);
    AsOptionOfOption(r.contentUrl);
  }

  lemma {:induction false} RecordsRoundTrip(rs: seq<ImageRecord>)
    ensures RecordsFromJson(RecordsJson(rs)) == Some(rs)
  {
    if rs != [] {
      var items := RecordsJson(rs);
      assert items[0] == RecordJson(rs[0]) && items[1..] == RecordsJson(rs[1..]);
      RecordRoundTrip(rs[0]);
      RecordsRoundTrip(rs[1..]);
      assert [rs[0]] + rs[1..] == rs;
    }
  }

  /** Reading the document back gives the page schema it was written from. */
  lemma SchemaRoundTrip(s: PageSchema)
    ensures SchemaFromJson(SchemaJson(s)) == Some(s)
  {
    RecordsRoundTrip(s.image);
  }
}
