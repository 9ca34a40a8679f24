/** The tweet listener's bounded accumulation (get_tweets.py, lines 10-58):
    every status is turned into a record and appended to one in-memory list,
    and the listener asks the stream to stop once the list has reached
    `max_tweets` records. */
module TweetListener {
  import opened Wrappers
  import opened TweetRecord

  /** What `on_status` tells the stream: `None` (keep streaming) or `False`
      (stop streaming). */
  datatype Signal = Continue | Stop

  /** The signal once the list holds `count` records. */
  function SignalFor(count: nat, maxTweets: int): (signal: Signal)
  {
    if count >= maxTweets then Stop else Continue
  }

  /** The number of `on_status` calls after which a fresh listener first
      signals stop: the first record is always appended before the length is
      compared, so a cap below one stops on the first call. */
  function FirstStop(maxTweets: int): (calls: nat)
  {
    if maxTweets < 1 then 1 else maxTweets
  }

  /** The column `DataFrame.from_records` indexes the rows by. */
  const IdColumn: string := "id"

  /** The data frame built from the records, indexed by `id`: the records in
      arrival order. With no record there is no `id` column to index by, and
      the construction raises a KeyError. */
  function DataFrame(records: seq<Record>): (r: Result<seq<Record>, Error>)
    ensures r.Err? <==> records == []
    ensures r.Err? ==> r.error == KeyError(IdColumn)
    ensures r.Ok? ==> r.value == records && |r.value| > 0
  {
    if records == [] then Err(KeyError(IdColumn)) else Ok(records)
  }

  /** The listener object: the accumulated records and the cap. */
  class Listener {
    var tweets: seq<Record>
    var maxTweets: int

    /** A fresh listener holds no records and keeps the given cap. */
    constructor (maxTweets: int)
      ensures tweets == [] && this.maxTweets == maxTweets
    {
      tweets := [];
      this.maxTweets := maxTweets;
    }

    /** Builds the record for `status`, appends it and compares the new length
        with the cap. A status whose record cannot be built raises before the
        append, leaving the list as it was. */
    method OnStatus(status: Event) returns (r: Result<Signal, Error>)
      modifies this`tweets
      ensures BuildRecord(status).Err? ==> r == Err(BuildRecord(status).error) && tweets == old(tweets)
      ensures BuildRecord(status).Ok? ==>
        && tweets == old(tweets) + [BuildRecord(status).value]
        && r == Ok(SignalFor(|tweets|, maxTweets))
      ensures r.Ok? && old(|tweets|) >= maxTweets ==> r.value == Stop
      ensures r == Ok(Stop) <==> BuildRecord(status).Ok? && |tweets| >= maxTweets
    {
      var record := BuildRecord(status);
      if record.Err? {
        return Err(record.error);
      }
      tweets := tweets + [record.value];
      if |tweets| >= maxTweets {
        return Ok(Stop);
      }
      return Ok(Continue);
    }

    /** The `df` property: the data frame of the accumulated records. */
    function Df(): (r: Result<seq<Record>, Error>)
      reads this
    {
      DataFrame(tweets)
    }
  }

  /** How a streaming session ended. */
  datatype End = Stopped | Exhausted | Failed(error: Error)

  /** The list a session leaves behind and how it ended. */
  datatype Session = Session(tweets: seq<Record>, end: End)

  /** The session of a listener holding `tweets` that the stream feeds
      `events` one at a time, stopping as soon as `on_status` signals stop
      and ending with the exception when a record cannot be built. */
  function Stream(tweets: seq<Record>, events: seq<Event>, maxTweets: int): (s: Session)
    decreases |events|
  {
    if events == [] then Session(tweets, Exhausted)
    else
      match BuildRecord(events[0])
      case Err(e) => Session(tweets, Failed(e))
      case Ok(record) =>
        var grown := tweets + [record];
        if SignalFor(|grown|, maxTweets) == Stop then Session(grown, Stopped)
        else Stream(grown, events[1..], maxTweets)
  }

  /** Every event yields a record. */
  predicate AllBuild(events: seq<Event>)
  {
    forall i :: 0 <= i < |events| ==> BuildRecord(events[i]).Ok?
  }

  /** The records of events that all yield one, in order. */
  function Records(events: seq<Event>): (records: seq<Record>)
    requires AllBuild(events)
  {
    if events == [] then [] else [BuildRecord(events[0]).value] + Records(events[1..])
  }

  /** The records of the first `k` events when the first one yields a
      record: that record, then the records of the next `k - 1`. */
  lemma RecordsCons(events: seq<Event>, k: nat)
    requires 1 <= k <= |events|
    requires BuildRecord(events[0]).Ok? && AllBuild(events[1..][..k - 1])
    ensures AllBuild(events[..k])
    ensures Records(events[..k]) == [BuildRecord(events[0]).value] + Records(events[1..][..k - 1])
  {
    var prefix := events[..k];
    assert prefix[1..] == events[1..][..k - 1];
    forall i | 0 <= i < k ensures BuildRecord(prefix[i]).Ok? {
      if i > 0 {
        assert prefix[i] == events[1..][..k - 1][i - 1];
      }
    }
  }

  /** A session only appends: the records held before stay in place and at
      most one record is added per event. A stopped session added at least
      one record and ended on a stop signal; an exhausted one added one per
      event of the feed. */
  lemma {:induction false} StreamOnlyAppends(tweets: seq<Record>, events: seq<Event>, maxTweets: int)
    ensures var s := Stream(tweets, events, maxTweets);
      && tweets <= s.tweets
      && |s.tweets| <= |tweets| + |events|
      && (s.end.Stopped? ==> |s.tweets| > |tweets| && SignalFor(|s.tweets|, maxTweets) == Stop)
      && (s.end.Exhausted? ==> |s.tweets| == |tweets| + |events|)
      && (s.end.Failed? ==> |s.tweets| < |tweets| + |events|)
    decreases |events|
  {
    if events != [] {
      match BuildRecord(events[0])
      case Err(e) =>
      case Ok(record) =>
        var grown := tweets + [record];
        if SignalFor(|grown|, maxTweets) == Continue {
          StreamOnlyAppends(grown, events[1..], maxTweets);
        }
    }
  }

  /** `session` holds `tweets` followed by the records of the first events
      of `events`, one per event, in order. */
  predicate AppendsRecordsOf(tweets: seq<Record>, events: seq<Event>, session: Session)
  {
    && |tweets| <= |session.tweets| <= |tweets| + |events|
    && AllBuild(events[..|session.tweets| - |tweets|])
    && session.tweets == tweets + Records(events[..|session.tweets| - |tweets|])
  }

  /** One delivered event whose record is appended extends the property by
      one event at the front. */
  lemma AppendsRecordsOfCons(tweets: seq<Record>, record: Record, events: seq<Event>, session: Session)
    requires events != [] && BuildRecord(events[0]) == Ok(record)
    requires AppendsRecordsOf(tweets + [record], events[1..], session)
    ensures AppendsRecordsOf(tweets, events, session)
  {
    var k := |session.tweets| - |tweets + [record]|;
    RecordsCons(events, k + 1);
    assert session.tweets == tweets + ([record] + Records(events[1..][..k]));
  }

  /** What a session appends is the records of the events it was delivered,
      in order: with `k` records added, the first `k` events all yield a
      record and the added records are theirs. A stopped or exhausted session
      was delivered exactly those `k` events; a failed one was delivered one
      more (see `StreamFailsOnDelivered`). */
  lemma {:induction false} StreamAppendsDelivered(tweets: seq<Record>, events: seq<Event>, maxTweets: int)
    ensures AppendsRecordsOf(tweets, events, Stream(tweets, events, maxTweets))
    decreases |events|
  {
    if events == [] {
      assert events[..0] == [];
    } else {
      match BuildRecord(events[0])
      case Err(e) =>
        assert events[..0] == [];
      case Ok(record) =>
        var grown := tweets + [record];
        var rest := events[1..];
        if SignalFor(|grown|, maxTweets) == Stop {
          assert rest[..0] == [];
          assert AppendsRecordsOf(grown, rest, Session(grown, Stopped));
          AppendsRecordsOfCons(tweets, record, events, Session(grown, Stopped));
        } else {
          StreamAppendsDelivered(grown, rest, maxTweets);
          AppendsRecordsOfCons(tweets, record, events, Stream(grown, rest, maxTweets));
        }
    }
  }

  /** A failed session ends with the error of the event just after those
      whose records it added: the first delivered event whose record could
      not be built. */
  lemma {:induction false} StreamFailsOnDelivered(tweets: seq<Record>, events: seq<Event>, maxTweets: int)
    ensures var s := Stream(tweets, events, maxTweets);
      s.end.Failed? ==>
        && |tweets| <= |s.tweets| < |tweets| + |events|
        && BuildRecord(events[|s.tweets| - |tweets|]) == Err(s.end.error)
    decreases |events|
  {
    if events != [] {
      match BuildRecord(events[0])
      case Err(e) =>
      case Ok(record) =>
        var grown := tweets + [record];
        var rest := events[1..];
        if SignalFor(|grown|, maxTweets) == Continue {
          StreamFailsOnDelivered(grown, rest, maxTweets);
          var s := Stream(grown, rest, maxTweets);
          if s.end.Failed? {
            assert events[|s.tweets| - |tweets|] == rest[|s.tweets| - |grown|];
          }
        }
    }
  }

  /** A session that starts below the first stop never holds more than
      `FirstStop(maxTweets)` records, and it stops exactly when it reaches
      that many: the first stop comes on call `max(max_tweets, 1)`. */
  lemma {:induction false} StreamBounded(tweets: seq<Record>, events: seq<Event>, maxTweets: int)
    requires |tweets| < FirstStop(maxTweets)
    ensures var s := Stream(tweets, events, maxTweets);
      && |s.tweets| <= FirstStop(maxTweets)
      && (s.end.Stopped? <==> |s.tweets| == FirstStop(maxTweets))
    decreases |events|
  {
    if events != [] {
      match BuildRecord(events[0])
      case Err(e) =>
      case Ok(record) =>
        var grown := tweets + [record];
        if SignalFor(|grown|, maxTweets) == Continue {
          StreamBounded(grown, events[1..], maxTweets);
        }
    }
  }

  function Min(a: nat, b: nat): (m: nat)
  {
    if a <= b then a else b
  }

  /** When the first `k` events all yield a record, so do the first one and
      the `k - 1` after it. */
  lemma PrefixTailBuilds(events: seq<Event>, k: nat)
    requires 1 <= k <= |events| && AllBuild(events[..k])
    ensures BuildRecord(events[0]).Ok? && AllBuild(events[1..][..k - 1])
  {
    var prefix, tail := events[..k], events[1..][..k - 1];
    assert prefix[0] == events[0];
    forall i | 0 <= i < k - 1 ensures BuildRecord(tail[i]).Ok? {
      assert tail[i] == prefix[i + 1];
    }
  }

  /** The records of the first `k` events, appended to `tweets`, are the
      first event's record followed by the records of the next `k - 1`. */
  lemma PrefixRecords(tweets: seq<Record>, events: seq<Event>, record: Record, k: nat)
    requires 1 <= k <= |events| && BuildRecord(events[0]) == Ok(record)
    requires AllBuild(events[1..][..k - 1])
    ensures AllBuild(events[..k])
    ensures tweets + [record] + Records(events[1..][..k - 1]) == tweets + Records(events[..k])
  {
    RecordsCons(events, k);
  }

  /** When the events the stream delivers up to the first stop all yield a
      record, a session that starts below the first stop appends the records
      of exactly the first `FirstStop(maxTweets) - |tweets|` events and
      stops, or appends all of them when the feed ends first. What the feed
      holds after the stop is never delivered and does not matter. */
  lemma {:induction false} StreamOfGoodEvents(tweets: seq<Record>, events: seq<Event>, maxTweets: int)
    requires |tweets| < FirstStop(maxTweets)
    requires AllBuild(events[..Min(FirstStop(maxTweets) - |tweets|, |events|)])
    ensures var n := FirstStop(maxTweets) - |tweets|;
      var k := Min(n, |events|);
      Stream(tweets, events, maxTweets)
        == Session(tweets + Records(events[..k]), if |events| >= n then Stopped else Exhausted)
    decreases |events|
  {
    var n := FirstStop(maxTweets) - |tweets|;
    var k := Min(n, |events|);
    if events == [] {
      assert events[..0] == [];
    } else {
      PrefixTailBuilds(events, k);
      var record := BuildRecord(events[0]).value;
      PrefixRecords(tweets, events, record, k);
      var rest := events[1..];
      if n == 1 {
        assert rest[..0] == [];
        assert Stream(tweets, events, maxTweets) == Session(tweets + [record], Stopped);
      } else {
        assert Stream(tweets, events, maxTweets) == Stream(tweets + [record], rest, maxTweets);
        assert Min(n - 1, |rest|) == k - 1;
        StreamOfGoodEvents(tweets + [record], rest, maxTweets);
      }
    }
  }

  /** Once the list has reached the cap, every further status that yields a
      record is still appended and the session stops again at once. */
  lemma StopIsSticky(tweets: seq<Record>, events: seq<Event>, maxTweets: int)
    requires |tweets| >= maxTweets
    requires events != [] && BuildRecord(events[0]).Ok?
    ensures Stream(tweets, events, maxTweets) == Session(tweets + [BuildRecord(events[0]).value], Stopped)
  {
  }

  /** `listen_for_words`: a fresh listener with the given cap (1000 unless
      given) is fed the events the stream delivers until it signals stop or
      the stream ends; the result is the data frame of the accumulated list,
      or the exception that escaped `on_status`. A session that collected no
      record fails on building the data frame. */
  method ListenForWords(feed: seq<Event>, maxTweets: int := 1000) returns (r: Result<seq<Record>, Error>)
    ensures var s := Stream([], feed, maxTweets);
      match s.end
      case Failed(e) => r == Err(e)
      case _ => r == DataFrame(s.tweets)
    ensures r.Ok? ==> 0 < |r.value| <= FirstStop(maxTweets)
    ensures feed == [] ==> r == Err(KeyError(IdColumn))
  {
    var listener := new Listener(maxTweets);
    var i := 0;
    while i < |feed|
      invariant 0 <= i <= |feed|
      invariant listener.maxTweets == maxTweets
      invariant Stream([], feed, maxTweets) == Stream(listener.tweets, feed[i..], maxTweets)
      decreases |feed| - i
    {
      assert feed[i..][0] == feed[i];
      assert feed[i..][1..] == feed[i + 1..];
      var signal := listener.OnStatus(feed[i]);
      if signal.Err? {
        return Err(signal.error);
      }
      if signal.value == Stop {
        StreamBounded([], feed, maxTweets);
        return listener.Df();
      }
      i := i + 1;
    }
    StreamBounded([], feed, maxTweets);
    return listener.Df();
  }
}
