# Image schema generator — Dafny model

The image schema generator reads a list of webpage URLs, fetches each page,
collects its `<img>` elements and writes, per URL, a schema.org JSON-LD
document describing the images. This project models the transformation at
the centre of that script (`app.py`):

- **Per-image records.** Each `<img>` element, seen as its attribute map,
  becomes an ImageObject record: `name` and `description` are the `alt`
  attribute (null when absent), `contentUrl` is `src`, and `height` / `width`
  are added only when the element carries them. A record is kept only when
  `src` is present, and records keep document order.
- **Page document.** The records of one page are wrapped into a document with
  `@context` `https://schema.org`, `@type` `ImageObject`, the page URL and the
  `image` list.
- **Results.** One `(url, img_schema)` row per input URL, in input order, also
  for a page that yields no image.

Modules:

- `Wrappers` (`wrappers.dfy`): `Option`, Python's `None`-or-value.
- `JsonValue` (`json_value.dfy`): the JSON values the script hands to
  `json.dumps` (null, string, list, object).
- `ImageSchema` (`image_schema.dfy`): the attribute map of an `<img>`
  element, the `ImageRecord` and `PageSchema` datatypes, the specification
  functions `RecordOf`, `RecordsOf`, `SrcIndices` and `SchemaOf`, the
  rendering of records and documents as JSON objects with its inverse, and
  the lemmas about them.
- `Generator` (`generator.dfy`): the per-URL loop as a method with nested
  loops that append to sequences, proved against `ResultsOf`, and the lemmas
  about the rows.

The fetch-and-parse step is an input: each `FetchedPage` carries a URL and the
`<img>` elements of that page in document order.

## Model

| member | source | states |
|---|---|---|
| `ImageSchema.Get` | app.py:56-58 | an attribute lookup gives a value exactly when the element has that attribute, and then the attribute's value |
| `ImageSchema.RecordOf` | app.py:54-66 | the record built for one element: `@type` `ImageObject`, `name` equal to `description`, each present exactly when `alt` is; `contentUrl` present exactly when the element has `src`; `height` / `width` present exactly when the element has them |
| `ImageSchema.RecordsOf` | app.py:52-69 | the records kept for a page's elements: never more than the elements, each with a `contentUrl` and `@type` `ImageObject`, and none when no element has `src` |
| `ImageSchema.RecordJson` | app.py:54-66 | the record as the dict the script builds: always the keys `@type`, `name`, `description`, `contentUrl`, plus `height` / `width` only when the record has them and no other key; `name` and `contentUrl` are null exactly when absent |
| `ImageSchema.RecordsJson` | app.py:69-76 | the `image` list: one object per record, entry k being the object of record k |
| `ImageSchema.SchemaOf` | app.py:72-77 | the page document: context `https://schema.org`, type `ImageObject`, the given URL, and at most one record per element, each with a `contentUrl` |
| `ImageSchema.SchemaJson` | app.py:72-77 | the document as a dict with exactly the keys `@context`, `@type`, `url`, `image`; `url` is the document's URL and `image` lists one object per record |
| `ImageSchema.RecordKeys` | app.py:54-66 | the record object has keys `@type`, `name`, `description`, `contentUrl`, plus `height` / `width` exactly when the element has them; `@type` is `ImageObject`; `name` and `description` both equal `alt`, null when it is absent; `contentUrl` equals `src`; `height` / `width` carry the element's values, no defaults |
| `ImageSchema.RecordsInDocumentOrder` | app.py:52-69 | the kept records are those of the `src`-bearing elements, one each, in increasing document position, and every `src`-bearing element contributes; so their number is the number of elements with `src` |
| `ImageSchema.EveryRecordHasContentUrl` | app.py:67-69 | every kept record has a `contentUrl`, and it is the `src` of one of the page's elements |
| `ImageSchema.NoSrcNoRecord` | app.py:67-69 | an element without `src` contributes nothing, wherever it stands in the page |
| `ImageSchema.RecordsOfAppend` | app.py:52-69 | the records of two consecutive runs of elements are the records of the first followed by those of the second |
| `ImageSchema.SchemaShape` | app.py:72-77 | the page document has exactly the keys `@context`, `@type`, `url`, `image`, with `https://schema.org`, `ImageObject`, the page URL, and one record per `src`-bearing element (an empty list when there is none); entry j is the record object of the j-th element that carries `src` |
| `ImageSchema.RecordRoundTrip` | app.py:54-66 | reading a record object back gives the record it was written from, so null `name` and absent `height` stay distinguishable |
| `ImageSchema.RecordsRoundTrip` | app.py:69-76 | reading the `image` list back gives the record sequence, in order |
| `ImageSchema.SchemaRoundTrip` | app.py:72-81 | reading a page document back gives the page schema it was written from |
| `Generator.RowOf` | app.py:72-84 | the row appended for one page: its URL, and a document whose `url` key holds that same URL |
| `Generator.ResultsOf` | app.py:36-84 | the results for the input pages: one row per page, row k carrying the URL of page k |
| `Generator.GenerateSchemas` | app.py:33-84 | the nested loops produce exactly `ResultsOf(pages)`: one row per input page, in input order, each holding that page's URL and the document built from its elements |
| `Generator.ResultsAt` | app.py:36-84 | the results have as many rows as there are input URLs, and row k is the row of input k |
| `Generator.RowsMatchTheirSchemas` | app.py:72-84 | each row's `img_schema` is an object whose `url` equals the row's `url`, reads back as the fixed-context document of that page's records, and has an empty `image` list when the page has no `src`-bearing element |
| `Generator.RowImageEntry` | app.py:52-84 | entry j of row k's `image` list is the record object of the j-th `src`-bearing element of page k, with a `height` (`width`) key exactly when that element has the attribute and no key beyond those and the fixed four |

## Left out

- The Streamlit page, its widgets and the download button (app.py:14-26, 94-99), and the `@st.cache` memoisation of the CSV conversion (app.py:9-11): user-interface framework behaviour.
- Reading the uploaded CSV with `pd.read_csv` and taking `row['url']` (app.py:30, 38): the model takes the URLs as strings; a missing `url` column or a non-string cell is not modelled.
- `requests.get` (app.py:39): network I/O. A transport error or a malformed URL raises and aborts the whole script; the model has no such failure path because every input page is already fetched. A response with a non-2xx status does not raise (the script never checks the status), so its body is parsed and gets its row like any other page; the model's input covers that case as an ordinary page.
- HTML parsing by BeautifulSoup and `find_all('img')` (app.py:43-46): a foreign parser; its output is taken as the given sequence of attribute maps in document order.
- `json.dumps` (app.py:81): rows hold the structured JSON value, not its text; the key order of the written text and string escaping are not modelled (JSON objects are maps).
- Building the output table, `to_csv` and UTF-8 encoding (app.py:11, 87), and the dated filename (app.py:90), which depends on the system clock.
- Deny-list filtering of `src` values, stripping a fixed prefix from `alt`, scoping the search to one sub-tree, and dropping blank input lines belong to other variants of the tool, not to `app.py`; the model follows `app.py`, where every `<img>` with `src` is kept with its `alt` unchanged and every CSV row is fetched.
