/** The catalog client: URL building and the batched lookup of certified
    images by digest over GraphQL. */
module Pyxis {
  import opened Base

  /** The REST API version segment of catalog URLs. */
  const ApiVersion := "v1"

  /** The find_images call and its filter, as sent in the query document. */
  const FindImagesFilter := "find_images(filter: {docker_image_digest:{in:$digests}})"

  /** The transport a client was built with: the standard library's HTTP
      client, or any other implementation of the `Do` interface. */
  datatype HttpClient = StandardHttpClient | OtherHttpClient(name: string)

  /** A catalog client. */
  datatype PyxisClient = PyxisClient(apiToken: string, projectId: string, client: HttpClient, pyxisHost: string)

  /** One GraphQL query as issued: endpoint, call, and variables. */
  datatype QueryRequest = QueryRequest(url: string, document: string, variables: map<string, seq<string>>)

  /** One row of the find_images data, with the three fields the query asks for. */
  datatype ImageRow = ImageRow(id: string, certified: bool, dockerImageDigest: string)

  /** The error block of a find_images response. */
  datatype QueryError = QueryError(status: int, detail: string)

  /** A decoded find_images response. */
  datatype FindImagesResponse = FindImagesResponse(data: seq<ImageRow>, error: QueryError, total: int, page: int)

  /** The server's answer to a query; an error is a transport or decoding failure. */
  type GraphqlResponder = QueryRequest -> Result<FindImagesResponse>

  /** The GraphQL client over the HTTP transport. The server is modelled as a
      fixed responder; `sent` records every query the client has issued. */
  class GraphqlTransport {
    /** How the server answers each query. */
    const respond: GraphqlResponder
    /** The queries issued through this client, oldest first. */
    ghost var sent: seq<QueryRequest>

    constructor (respond: GraphqlResponder)
      ensures this.respond == respond && sent == []
    {
      this.respond := respond;
      sent := [];
    }

    /** Issues one query and returns the server's answer to it. */
    method Query(req: QueryRequest) returns (r: Result<FindImagesResponse>)
      modifies this`sent
      ensures r == respond(req)
      ensures sent == old(sent) + [req]
    {
      sent := sent + [req];
      r := respond(req);
    }
  }

  /** The catalog's record of a certified image (its scalar fields). */
  datatype CertImage = CertImage(
    id: string,
    certified: bool,
    deleted: bool,
    dockerImageDigest: string,
    dockerImageId: string,
    imageId: string,
    isvPid: string,
    architecture: string,
    rawConfig: string,
    sumLayerSizeBytes: int,
    uncompressedTopLayerId: string)

  /** The zero value of a CertImage. */
  const ZeroCertImage := CertImage("", false, false, "", "", "", "", "", "", 0, "")

  /** Builds a client; the host comes first among the arguments but is stored last. */
  function NewPyxisClient(pyxisHost: string, apiToken: string, projectId: string, httpClient: HttpClient): (c: PyxisClient)
    ensures c.pyxisHost == pyxisHost && c.apiToken == apiToken
    ensures c.projectId == projectId && c.client == httpClient
  {
    PyxisClient(apiToken, projectId, httpClient, pyxisHost)
  }

  /** The REST URL of `path`: https scheme, the host verbatim, then the API version. */
  function GetPyxisURL(p: PyxisClient, path: string): (u: string)
    ensures IsPrefix("https://" + p.pyxisHost, u)
    ensures u[|"https://" + p.pyxisHost|..] == "/v1/" + path
  {
    "https://" + p.pyxisHost + "/" + ApiVersion + "/" + path
  }

  /** The GraphQL endpoint: https scheme, the host verbatim, then `/graphql/`. */
  function GetPyxisGraphqlURL(p: PyxisClient): (u: string)
    ensures IsPrefix("https://" + p.pyxisHost, u)
    ensures u[|"https://" + p.pyxisHost|..] == "/graphql/"
  {
    "https://" + p.pyxisHost + "/graphql/"
  }

  /** Distinct paths give distinct REST URLs on one client. */
  lemma PyxisURLInjective(p: PyxisClient, a: string, b: string)
    requires GetPyxisURL(p, a) == GetPyxisURL(p, b)
    ensures a == b
  {
    var n := |"https://" + p.pyxisHost + "/v1/"|;
    assert a == GetPyxisURL(p, a)[n..];
    assert b == GetPyxisURL(p, b)[n..];
  }

  /** The GraphQL endpoint is never one of the REST URLs. */
  lemma GraphqlURLIsNotRestURL(p: PyxisClient, path: string)
    ensures GetPyxisGraphqlURL(p) != GetPyxisURL(p, path)
  {
    var n := |"https://" + p.pyxisHost|;
    assert GetPyxisGraphqlURL(p)[n + 1] == 'g';
    assert GetPyxisURL(p, path)[n + 1] == 'v';
  }

  /** The record made from one row: its id, certified flag and digest, and
      every other field at its zero value. */
  function Project(row: ImageRow): (c: CertImage)
    ensures c.id == row.id && c.certified == row.certified && c.dockerImageDigest == row.dockerImageDigest
    ensures c.(id := "", certified := false, dockerImageDigest := "") == ZeroCertImage
  {
    ZeroCertImage.(id := row.id, certified := row.certified, dockerImageDigest := row.dockerImageDigest)
  }

  /** The one batched query a lookup of `digests` sends: the find_images call
      at the GraphQL endpoint, with all the digests as its variable. */
  function BatchRequest(p: PyxisClient, digests: seq<string>): QueryRequest
  {
    QueryRequest(GetPyxisGraphqlURL(p), FindImagesFilter, map["digests" := digests])
  }

  /** Looks up certified images by digest. An empty digest list, then a
      transport other than the standard HTTP client, are rejected before any
      query; otherwise exactly one query carries all the digests, in order,
      and its rows become records, in order. */
  method FindImagesByDigest(p: PyxisClient, digests: seq<string>, t: GraphqlTransport)
    returns (r: Result<seq<CertImage>>)
    modifies t`sent
    ensures digests == [] ==> r == Err(Error("no digests specified")) && t.sent == old(t.sent)
    ensures digests != [] && !p.client.StandardHttpClient? ==>
              r == Err(Error("client could not be used as http.Client")) && t.sent == old(t.sent)
    ensures digests != [] && p.client.StandardHttpClient? ==>
              t.sent == old(t.sent) + [BatchRequest(p, digests)]
    ensures digests != [] && p.client.StandardHttpClient? && t.respond(BatchRequest(p, digests)).Err? ==>
              r == Err(Error("error while executing find_images query: "
                             + t.respond(BatchRequest(p, digests)).error.message))
    ensures digests != [] && p.client.StandardHttpClient? && t.respond(BatchRequest(p, digests)).Ok? ==>
              var rows := t.respond(BatchRequest(p, digests)).value.data;
              r.Ok? && |r.value| == |rows| && forall i :: 0 <= i < |rows| ==> r.value[i] == Project(rows[i])
  {
    if |digests| == 0 {
      return Err(Error("no digests specified"));
    }

    var graphqlDigests := new string[|digests|];
    for idx := 0 to |digests|
      modifies graphqlDigests
      invariant forall k :: 0 <= k < idx ==> graphqlDigests[k] == digests[k]
    {
      graphqlDigests[idx] := digests[idx];
    }
    assert graphqlDigests[..] == digests;
    var variables := map["digests" := graphqlDigests[..]];

    if !p.client.StandardHttpClient? {
      return Err(Error("client could not be used as http.Client"));
    }

    var response := t.Query(QueryRequest(GetPyxisGraphqlURL(p), FindImagesFilter, variables));
    if response.Err? {
      return Err(Error("error while executing find_images query: " + response.error.message));
    }

    var rows := response.value.data;
    var images := new CertImage[|rows|](_ => ZeroCertImage);
    for idx := 0 to |rows|
      modifies images
      invariant forall k :: 0 <= k < idx ==> images[k] == Project(rows[k])
    {
      images[idx] := Project(rows[idx]);
    }
    r := Ok(images[..]);
  }
}
