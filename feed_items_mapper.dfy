/** Turning an HTTP response into remote feed items, or rejecting it. */
module FeedItemsMapper {
  import opened Wrappers
  import opened RemoteFeedApi

  /** The top-level JSON object `{ "items": [...] }`. */
  datatype Root = Root(items: seq<RemoteFeedItem>)

  /** JSON decoding of a body as a `Root`: `None` where the decoder throws. Left uninterpreted. */
  type Decoder = Data -> Option<Root>

  /** The only accepted status code. */
  const OK200: int := 200

  /**
   * `map(data:response:)`: the decoded items for a 200 response whose body
   * decodes, and `invalidData` for everything else.
   */
  function Map(data: Data, response: HTTPURLResponse, decode: Decoder): (r: Result<seq<RemoteFeedItem>, Error>)
    ensures r.Success? <==> response.statusCode == OK200 && decode(data).Some?
    ensures r.Success? ==> r.value == decode(data).value.items
    ensures r.Failure? ==> r.error == InvalidData
  {
    if response.statusCode != OK200 then Result.Failure(InvalidData)
    else match decode(data)
      case None => Result.Failure(InvalidData)
      case Some(root) => Result.Success(root.items)
  }
}
