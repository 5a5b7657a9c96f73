/** Loading the feed from the network and classifying what came back. */
module RemoteFeedLoader {
  import Wrappers
  import opened FeedImages
  import opened RemoteFeedApi
  import FeedItemsMapper

  /** The domain item a remote load delivers. */
  datatype FeedItem = FeedItem(id: UUID, description: Wrappers.Option<string>, location: Wrappers.Option<string>, imageURL: URL)

  /** `RemoteFeedLoader.Result`. */
  datatype LoadResult = Success(items: seq<FeedItem>) | Failure(error: Error)

  /** The loader keeps the URL it was created with; the client is passed to `Load`. */
  datatype RemoteFeedLoader = RemoteFeedLoader(url: URL)

  /** A client: the result its completion delivers for a request of each URL. */
  type HTTPClient = URL -> HTTPClientResult

  function ToFeedItem(item: RemoteFeedItem): FeedItem {
    FeedItem(item.id, item.description, item.location, item.image)
  }

  /** One domain item per remote item, in order. */
  function ToFeedItems(items: seq<RemoteFeedItem>): (feed: seq<FeedItem>)
    ensures |feed| == |items|
    ensures forall i :: 0 <= i < |items| ==>
      && feed[i].id == items[i].id
      && feed[i].description == items[i].description
      && feed[i].location == items[i].location
      && feed[i].imageURL == items[i].image
  {
    seq(|items|, i requires 0 <= i < |items| => ToFeedItem(items[i]))
  }

  /**
   * The completion `load` hands to the client: a transport failure is a
   * connectivity error; a response is whatever the mapper makes of it.
   */
  function Complete(result: HTTPClientResult, decode: FeedItemsMapper.Decoder): (r: LoadResult)
    ensures r == LoadResult.Failure(Connectivity) <==> result.Failure?
    ensures r == LoadResult.Failure(InvalidData) <==>
      result.Success? && (result.response.statusCode != FeedItemsMapper.OK200 || decode(result.data).None?)
    ensures r.Success? ==> r.items == ToFeedItems(decode(result.data).value.items)
  {
    match result
    case Failure(_) => LoadResult.Failure(Connectivity)
    case Success(response, data) =>
      match FeedItemsMapper.Map(data, response, decode)
      case Success(items) => LoadResult.Success(ToFeedItems(items))
      case Failure(e) => LoadResult.Failure(e)
  }

  /**
   * `load(completion:)`: request the loader's own URL from the client and
   * complete with the classified result.
   */
  function Load(loader: RemoteFeedLoader, client: HTTPClient, decode: FeedItemsMapper.Decoder): (r: LoadResult)
    ensures r.Failure? ==> r.error == Connectivity || r.error == InvalidData
    ensures r == LoadResult.Failure(Connectivity) <==> client(loader.url).Failure?
    ensures r.Success? <==>
      client(loader.url).Success?
      && client(loader.url).response.statusCode == FeedItemsMapper.OK200
      && decode(client(loader.url).data).Some?
  {
    Complete(client(loader.url), decode)
  }
}
