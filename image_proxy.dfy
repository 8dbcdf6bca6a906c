/** The image proxy route: read one uploaded file from the backend and hand
    it to the caller, or answer a fixed not-found text. */
module ImageProxy {
  import Backend

  newtype byte = x: int | 0 <= x < 256

  /** What the backend answered to the read of an upload. */
  datatype Upstream = Upstream(status: int, content: seq<byte>, contentType: string)

  datatype Payload = Bytes(data: seq<byte>) | Text(text: string)

  datatype Response = Response(status: int, payload: Payload, contentType: string)

  const NotFoundText: string := "Imagen no encontrada"

  /** The content type the framework gives a plain string returned by a route. */
  const DefaultContentType: string := "text/html; charset=utf-8"

  /** The answer for every backend status other than 200. */
  const NotFound: Response := Response(404, Text(NotFoundText), DefaultContentType)

  /** The address read from the backend, together with the route's answer. */
  datatype Proxied = Proxied(read: string, response: Response)

  /** The route for the file name taken from the path; up is the backend's
      reply to the read of that file. */
  function ProxyImage(filename: string, up: Upstream): (r: Proxied)
    // The read addresses the upload store with the file name spliced in as it came.
    ensures |r.read| == |Backend.UploadsPrefix| + |filename|
    ensures r.read[..|Backend.UploadsPrefix|] == Backend.UploadsPrefix
    ensures r.read[|Backend.UploadsPrefix|..] == filename
    ensures r.response.status == 200 || r.response.status == 404
    ensures r.response.status == 200 <==> up.status == 200
    // A 200 passes the bytes and the content type through unchanged.
    ensures up.status == 200 ==> r.response.payload == Bytes(up.content) && r.response.contentType == up.contentType
    // Any other status, whatever it was, gives the same fixed text.
    ensures up.status != 200 ==> r.response.payload == Text(NotFoundText) && r.response.contentType == DefaultContentType
  {
    var url := Backend.UploadUrl(filename);
    if up.status == 200 then Proxied(url, Response(200, Bytes(up.content), up.contentType))
    else Proxied(url, NotFound)
  }

  /** From a successful answer the backend's reply can be read back: the
      proxy does not alter what it forwards. */
  lemma ProxyImageRecoversContent(filename: string, u1: Upstream, u2: Upstream)
    requires u1.status == 200
    requires ProxyImage(filename, u1).response == ProxyImage(filename, u2).response
    ensures u2.status == 200 && u1.content == u2.content && u1.contentType == u2.contentType
  {
  }

  /** Two failed reads are indistinguishable to the caller: the backend's
      status and body are discarded. */
  lemma ProxyImageCollapsesFailures(f1: string, f2: string, u1: Upstream, u2: Upstream)
    requires u1.status != 200 && u2.status != 200
    ensures ProxyImage(f1, u1).response == ProxyImage(f2, u2).response
  {
  }
}
