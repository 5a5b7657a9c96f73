/**
 * The feed image as the domain sees it (`FeedImage`) and as the cache stores it
 * (`LocalFeedImage`), and the field-by-field mapping between the two.
 */
module FeedImages {
  import opened Wrappers

  /** Foundation's `UUID`, kept opaque. */
  datatype UUID = UUID(raw: nat)

  /** Foundation's `URL`, kept opaque. */
  datatype URL = URL(absoluteString: string)

  /** Domain model of one image of the feed. */
  datatype FeedImage = FeedImage(id: UUID, description: Option<string>, location: Option<string>, url: URL)

  /** Storage-shaped mirror of `FeedImage`, with the same fields. */
  datatype LocalFeedImage = LocalFeedImage(id: UUID, description: Option<string>, location: Option<string>, url: URL)

  /** `local` carries exactly the fields of `image`. */
  predicate SameFields(image: FeedImage, local: LocalFeedImage) {
    && local.id == image.id
    && local.description == image.description
    && local.location == image.location
    && local.url == image.url
  }

  /** `LocalFeedImage(id:description:location:url:)` built from a model's fields; `ToModel` undoes it. */
  function ToLocal(image: FeedImage): (local: LocalFeedImage)
    ensures SameFields(image, local)
    ensures ToModel(local) == image
  {
    LocalFeedImage(image.id, image.description, image.location, image.url)
  }

  function ToModel(local: LocalFeedImage): FeedImage {
    FeedImage(local.id, local.description, local.location, local.url)
  }

  /** `models.map { LocalFeedImage(...) }`: one local per model, in order. */
  function ToLocals(feed: seq<FeedImage>): (locals: seq<LocalFeedImage>)
    ensures |locals| == |feed|
  {
    if feed == [] then [] else [ToLocal(feed[0])] + ToLocals(feed[1..])
  }

  /** The inverse mapping, from what the store holds back to domain models. */
  function ToModels(locals: seq<LocalFeedImage>): (feed: seq<FeedImage>)
    ensures |feed| == |locals|
  {
    if locals == [] then [] else [ToModel(locals[0])] + ToModels(locals[1..])
  }

  /** The i-th local is a field-by-field copy of the i-th model: order is kept. */
  lemma {:induction false} ToLocalsAt(feed: seq<FeedImage>, i: nat)
    requires i < |feed|
    ensures SameFields(feed[i], ToLocals(feed)[i])
  {
    if i > 0 {
      ToLocalsAt(feed[1..], i - 1);
    }
  }

  /** `ToLocals` is the element-wise map of `ToLocal`. */
  lemma ToLocalsIsElementwise(feed: seq<FeedImage>)
    ensures ToLocals(feed) == seq(|feed|, i requires 0 <= i < |feed| => ToLocal(feed[i]))
  {
    forall i | 0 <= i < |feed|
      ensures ToLocals(feed)[i] == ToLocal(feed[i])
    {
      ToLocalsAt(feed, i);
    }
  }

  /** Mapping models to locals and back loses nothing. */
  lemma {:induction false} LocalsRoundTrip(feed: seq<FeedImage>)
    ensures ToModels(ToLocals(feed)) == feed
  {
    if feed != [] {
      LocalsRoundTrip(feed[1..]);
      assert ToLocals(feed)[1..] == ToLocals(feed[1..]);
    }
  }

  /** Mapping locals to models and back loses nothing either. */
  lemma {:induction false} ModelsRoundTrip(locals: seq<LocalFeedImage>)
    ensures ToLocals(ToModels(locals)) == locals
  {
    if locals != [] {
      ModelsRoundTrip(locals[1..]);
      assert ToModels(locals)[1..] == ToModels(locals[1..]);
    }
  }
}
