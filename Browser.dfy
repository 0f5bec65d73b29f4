/** Values the browser hands to the page and to the service worker. */
module Browser {
  import opened Text

  datatype Blob = Blob(mimeType: string, bytes: seq<bv8>)

  /** A picked, dropped, pasted or shared file: its name, declared media type and content. */
  datatype File = File(name: string, mimeType: string, bytes: seq<bv8>)

  /** The only client-side validation: the declared type starts with `image/`. */
  function IsImageType(mimeType: string): (image: bool)
    ensures image <==> |mimeType| >= 6 && mimeType[..6] == "image/"
  {
    StartsWith(mimeType, "image/")
  }

  /** A request as the service worker sees it: its HTTP method (`verb`) and its URL, relative to the app's origin. */
  datatype Request = Request(verb: string, url: string)

  /** A response: its status, its `type` ("basic", "cors", "opaque", "default", ...) and body. */
  datatype Response = Response(status: int, kind: string, body: Blob)

  /** `new URL(url).pathname` for an origin-relative URL: everything before `?` or `#`. */
  function Pathname(url: string): (p: string)
    ensures p <= url
    ensures '?' !in p && '#' !in p
    ensures p == url || url[|p|] == '?' || url[|p|] == '#'
    decreases |url|
  {
    if url == [] || url[0] == '?' || url[0] == '#' then []
    else [url[0]] + Pathname(url[1..])
  }
}
