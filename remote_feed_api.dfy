/** The shapes the remote side exchanges: HTTP responses, transport results, remote items, errors. */
module RemoteFeedApi {
  import opened Wrappers
  import opened FeedImages

  newtype byte = x: int | 0 <= x < 256

  /** A response body. */
  type Data = seq<byte>

  datatype HTTPURLResponse = HTTPURLResponse(url: URL, statusCode: int)

  /** Whatever the transport reports on failure; the loader discards it. */
  datatype TransportError = TransportError(description: string)

  /** What `HTTPClient.get(from:completion:)` delivers. */
  datatype HTTPClientResult =
    | Success(response: HTTPURLResponse, data: Data)
    | Failure(error: TransportError)

  /** One item of the feed as the remote API sends it. */
  datatype RemoteFeedItem = RemoteFeedItem(id: UUID, description: Option<string>, location: Option<string>, image: URL)

  /** `RemoteFeedLoader.Error`. */
  datatype Error = Connectivity | InvalidData
}
