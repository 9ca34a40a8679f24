# get-tweets: the tweet listener, in Dafny

This project models the capture core of `get_tweets.py`: the `TweetListener`
that the tweet stream calls once per status, and the `listen_for_words`
driver that returns what it collected.

- `TweetRecord` (tweet_record.dfy) is the pure part. A status event is a
  value with explicit optional parts: `retweeted` stands for the
  `retweeted_status` attribute and `extended` for the `extended_tweet`
  dictionary. `TextSource` picks the inner original of a retweet, or the
  status itself. `TweetText` takes that source's `full_text` entry. It falls
  back to the short `text` only when `extended_tweet` is absent. `BuildRecord`
  builds the flat record `on_status` appends. The exceptions the code does
  not catch are an `Err(KeyError(key))` result: a missing `full_text` key in a
  present `extended_tweet`, or a missing `hashtags` entity.
- `TweetListener` (tweet_listener.dfy) is the stateful part. `Listener` is a
  class with the record list `tweets` and the cap `maxTweets`. `OnStatus`
  appends one record and returns `Stop` (the source's `False`) exactly when
  the list length has reached the cap, and `Continue` (the source's `None`)
  otherwise. `Stream` is the specification of a whole session: the stream
  feeds events until the listener signals stop, the feed ends, or a record
  cannot be built. The lemmas about `Stream` state the threshold rule over
  many calls. `ListenForWords` is the driver. It is proved to return the
  data frame (`DataFrame`) of the session `Stream` describes for a fresh
  listener.
- `Wrappers` (wrappers.dfy) holds `Option` and `Result`.

The listener keeps one in-memory list of records and asks the stream to stop
once that list has reached `max_tweets` records. Building a record can fail:
only `AttributeError` is caught, so an `extended_tweet` without `full_text`
raises `KeyError`, and so does a status whose `entities` has no `hashtags`.
The model keeps both error paths. The record's keyword arguments are
evaluated left to right, so when both keys are missing the `hashtags` error
is the one reported. The `df` property builds a data frame indexed by `id`;
with no record there is no `id` column, and it raises `KeyError('id')`.

## Model

| member | source | states |
|---|---|---|
| TweetRecord.TweetText | get_tweets.py:17-23 | The text is the source's `full_text` when `extended_tweet` is present. It is the short `text` exactly when `extended_tweet` is absent. The result is a KeyError on `full_text` exactly when `extended_tweet` is present without that key. |
| TweetRecord.BuildRecord | get_tweets.py:25-40 | The record is built exactly when the `hashtags` entity exists and the text can be taken. Otherwise the error is the KeyError the code raises first. The id, user fields, creation time, retweet count and hashtags are copied from the delivered status, never from the retweeted one. `is_retweet` holds iff `retweeted_status` is present, and the text is `TweetText`. |
| TweetRecord.RetweetIffTextFromInner | get_tweets.py:19-38 | A built record is marked as a retweet exactly when its text came from a status other than the delivered one. |
| TweetRecord.RetweetTextIsOriginalText | get_tweets.py:18-23 | A retweet's text is the text its inner original would have on its own. The wrapper's own text fields never matter, and only one level of retweet is followed. |
| TweetRecord.FullTextPrecedence | get_tweets.py:19-23 | When the text source (the retweeted status or the status itself) has a `full_text` entry, the text is that entry, whatever the source's short `text` is. |
| TweetListener.DataFrame | get_tweets.py:48-50 | The data frame that `Listener.Df` returns holds the records in arrival order. It is a KeyError on `id` exactly when there is no record. |
| TweetListener.Listener.constructor | get_tweets.py:11-14 | A fresh listener has an empty list and stores the given `max_tweets`. |
| TweetListener.Listener.OnStatus | get_tweets.py:25-46 | A built record is appended once at the end, and earlier records and the cap are unchanged. The call returns stop iff the new length is at least the cap. A failed build raises and leaves the list unchanged. A listener already at the cap answers stop again. |
| TweetListener.StreamOnlyAppends | get_tweets.py:41-46 | A session keeps the earlier records as a prefix and adds no more records than the feed has events. A stopped session added at least one record and ended on a stop signal. A session that consumes its whole feed adds exactly one record per event. |
| TweetListener.StreamAppendsDelivered | get_tweets.py:25-46 | For any feed, the records a session adds are those of the events it was delivered, in order. With `k` records added, the first `k` events all yield a record, and the added records are theirs. |
| TweetListener.StreamFailsOnDelivered | get_tweets.py:25-41 | A failed session was delivered one event more than it added records for. That event's record could not be built, and the session ends with its KeyError. |
| TweetListener.StreamBounded | get_tweets.py:41-46 | Starting below the first stop, the list never exceeds `max(max_tweets, 1)` records. The session stops exactly when the list reaches that length. |
| TweetListener.StreamOfGoodEvents | get_tweets.py:41-46 | When the events delivered up to the first stop all yield a record, the session appends the records of exactly the first `max(max_tweets, 1) - len(tweets)` events, in order, and stops. If the feed ends first, it appends all of them. Events after the stop are never delivered and do not matter. |
| TweetListener.StopIsSticky | get_tweets.py:41-46 | Once the list has reached the cap, the next status is still appended and stop is signalled again. |
| TweetListener.ListenForWords | get_tweets.py:53-58 | The driver, with a cap of 1000 unless one is given, returns the data frame of the records `Stream` gives for a fresh listener. It holds between one and `max(max_tweets, 1)` records. If a record cannot be built, the escaping KeyError is returned. An empty session, such as an empty feed, gives `KeyError('id')`. |

## Left out

- Streaming and authentication (`tweepy.StreamListener`, `tweepy.Stream`, `stream.filter`, `OAuthHandler`) are external network I/O. The stream is modelled as a finite sequence of delivered events, fed until the listener signals stop. `words` only reaches the stream filter, so it is not modelled.
- The `tqdm` progress bar (creation, `update`, `close`) is display only. It does not affect the records or the signal.
- `df` stands for `pandas.DataFrame.from_records(..., index='id')`, a foreign library call. It is modelled as the record list in arrival order, or `KeyError('id')` when the list is empty. Column layout and index semantics are not modelled.
- Timestamps and hashtag entries are opaque values that are copied through. Date semantics and the other entity kinds are not modelled.
- A status missing `id`, `user`, `created_at`, `retweet_count` or `entities`, or a user missing `screen_name`, `description`, `location`, `friends_count`, `followers_count`, `statuses_count` or `created_at`, would raise `AttributeError`. The streaming API always supplies these, so the model makes them all required fields.
- `text` is read only on the text source (the inner `retweeted_status`, or else the status itself), and only when that source has no `extended_tweet` (get_tweets.py:22-23). A text source with neither `extended_tweet` nor `text` would raise `AttributeError` at get_tweets.py:23. The model makes `text` a required field, so this error is not modelled. On every other path the value of `text` has no influence on the result (`FullTextPrecedence`, `RetweetTextIsOriginalText`).
- A retweet's inner status is read only for `extended_tweet` and `text`. The model still gives it every field of a status.
