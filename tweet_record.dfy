/** The record extractor of the tweet listener: how one status event delivered
    by the stream becomes one flat record (get_tweets.py, lines 17-40).

    The raw event is a value with explicit optional parts instead of Python
    attributes that may or may not exist: `retweeted` stands for the
    `retweeted_status` attribute and `extended` for the `extended_tweet`
    attribute. Timestamps and hashtags are opaque values that are only copied. */
module TweetRecord {
  import opened Wrappers

  /** An opaque creation time, copied through unchanged. */
  datatype Timestamp = Timestamp(raw: string)

  /** One entry of the `hashtags` entity list, copied through unchanged. */
  datatype Hashtag = Hashtag(text: string, indices: seq<int>)

  /** The author of a status (the `user` attribute). */
  datatype User = User(
    screenName: string,
    description: Option<string>,
    location: Option<string>,
    friendsCount: int,
    followersCount: int,
    statusesCount: int,
    createdAt: Timestamp)

  /** A status event as the stream delivers it. A retweet carries the original
      status in `retweeted`; a status with long-form text carries the
      `extended_tweet` dictionary in `extended`. */
  datatype Event = Event(
    id: int,
    user: User,
    createdAt: Timestamp,
    retweetCount: int,
    entities: map<string, seq<Hashtag>>,
    text: string,
    extended: Option<map<string, string>>,
    retweeted: Option<Event>)

  /** The exceptions the extraction lets escape: a missing dictionary key. */
  datatype Error = KeyError(key: string)

  /** The flat record built for one status. */
  datatype Record = Record(
    id: int,
    username: string,
    description: Option<string>,
    location: Option<string>,
    following: int,
    followers: int,
    totalTweets: int,
    userCreated: Timestamp,
    tweetCreated: Timestamp,
    retweetCount: int,
    hashtags: seq<Hashtag>,
    isRetweet: bool,
    text: string)

  const FullTextKey: string := "full_text"
  const HashtagsKey: string := "hashtags"

  /** The status whose text is used: the inner original of a retweet
      (one level only), otherwise the status itself. */
  function TextSource(status: Event): (source: Event)
  {
    match status.retweeted
    case Some(inner) => inner
    case None => status
  }

  /** The text of a status: the `full_text` entry of the source's
      `extended_tweet` when the source has that attribute, its short `text`
      only when the attribute is missing. A present `extended_tweet` without a
      `full_text` key is a KeyError, not a fallback. */
  function TweetText(status: Event): (r: Result<string, Error>)
    ensures r.Ok? <==> (TextSource(status).extended.None? || FullTextKey in TextSource(status).extended.value)
    ensures r.Err? ==> r.error == KeyError(FullTextKey)
    ensures TextSource(status).extended.None? ==> r == Ok(TextSource(status).text)
    ensures TextSource(status).extended.Some? && r.Ok? ==> r.value == TextSource(status).extended.value[FullTextKey]
  {
    var tweet := TextSource(status);
    match tweet.extended
    case None => Ok(tweet.text)
    case Some(ext) =>
      if FullTextKey in ext then Ok(ext[FullTextKey]) else Err(KeyError(FullTextKey))
  }

  /** The record `on_status` builds for a status. The keyword arguments are
      evaluated left to right, so a missing `hashtags` entity is reported
      before a missing `full_text`. */
  function BuildRecord(status: Event): (r: Result<Record, Error>)
    ensures r.Ok? <==> HashtagsKey in status.entities && TweetText(status).Ok?
    ensures HashtagsKey !in status.entities ==> r == Err(KeyError(HashtagsKey))
    ensures HashtagsKey in status.entities && TweetText(status).Err? ==> r == Err(TweetText(status).error)
    ensures r.Ok? ==>
      && r.value.id == status.id
      && r.value.username == status.user.screenName
      && r.value.description == status.user.description
      && r.value.location == status.user.location
      && r.value.following == status.user.friendsCount
      && r.value.followers == status.user.followersCount
      && r.value.totalTweets == status.user.statusesCount
      && r.value.userCreated == status.user.createdAt
      && r.value.tweetCreated == status.createdAt
      && r.value.retweetCount == status.retweetCount
      && r.value.hashtags == status.entities[HashtagsKey]
      && (r.value.isRetweet <==> status.retweeted.Some?)
      && r.value.text == TweetText(status).value
  {
    if HashtagsKey !in status.entities then Err(KeyError(HashtagsKey))
    else
      match TweetText(status)
      case Err(e) => Err(e)
      case Ok(text) =>
        Ok(Record(
          status.id,
          status.user.screenName,
          status.user.description,
          status.user.location,
          status.user.friendsCount,
          status.user.followersCount,
          status.user.statusesCount,
          status.user.createdAt,
          status.createdAt,
          status.retweetCount,
          status.entities[HashtagsKey],
          status.retweeted.Some?,
          text))
  }

  /** The record marks a retweet exactly when its text was taken from another
      status than the one delivered: both follow from `retweeted_status`. */
  lemma RetweetIffTextFromInner(status: Event)
    requires BuildRecord(status).Ok?
    ensures BuildRecord(status).value.isRetweet <==> TextSource(status) != status
  {
  }

  /** The text of a retweet is the text its inner original would have if it
      were delivered on its own: the wrapper's own `text` and
      `extended_tweet` never matter, and a retweet nested inside the original
      is not followed. */
  lemma RetweetTextIsOriginalText(status: Event, inner: Event)
    requires status.retweeted == Some(inner)
    ensures TweetText(status) == TweetText(inner.(retweeted := None))
  {
  }

  /** The status with the short `text` of its text source replaced. */
  function WithSourceText(status: Event, shortText: string): (varied: Event)
  {
    match status.retweeted
    case None => status.(text := shortText)
    case Some(inner) => status.(retweeted := Some(inner.(text := shortText)))
  }

  /** The long-form text takes precedence: when the text source has a
      `full_text` entry, that entry is the text, and the source's short `text`
      has no influence on the result. */
  lemma FullTextPrecedence(status: Event, shortText: string)
    requires TextSource(status).extended.Some? && FullTextKey in TextSource(status).extended.value
    ensures TweetText(status) == Ok(TextSource(status).extended.value[FullTextKey])
    ensures TweetText(WithSourceText(status, shortText)) == TweetText(status)
  {
  }
}
