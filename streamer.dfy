/**
 * The stream listener: classifies each incoming status as a retweet, a quoted
 * tweet or a plain tweet, extracts a fixed set of fields into a record, stores
 * the record in the list for its kind and writes the status text, on one
 * line, to a text sink.
 */
module Streamer {
  import opened Wrappers
  import opened JsonValues
  import opened Text

  /**
   * A status object as the stream library hands it over. The attributes the
   * listener inspects are explicit: the optional retweeted and quoted
   * statuses, the optional `extended_tweet` dictionary and the short `text`.
   * `fields` holds every other entry of the status's JSON.
   */
  datatype Status = Status(
    retweetedStatus: Option<Status>,
    quotedStatus: Option<Status>,
    extendedTweet: Option<map<string, string>>,
    text: string,
    fields: map<string, Json>)

  /** The JSON keys that are attributes of their own in a `Status`. */
  const AttributeKeys: set<string> := {"text", "extended_tweet", "retweeted_status", "quoted_status"}

  /** The fields each stored record holds (`keys4tweets`). */
  const Keys4Tweets: seq<string> :=
    ["created_at", "id", "text", "favorite_count", "retweet_count", "lang", "geo",
     "coordinates", "source", "user", "entities"]

  /** The columns of the final table (`sub_columns`), nested fields flattened with dots. */
  const SubColumns: seq<string> :=
    ["created_at", "id", "text", "favorite_count", "retweet_count", "lang", "geo",
     "coordinates", "source", "user.name", "user.screen_name", "user.location",
     "entities.hashtags", "entities.user_mentions"]

  /**
   * `jsonify_tweepy`: the status as plain JSON data. The serialise/parse round
   * trip is the identity on JSON, so this is the status's own JSON: its
   * fields, its text, and its extended tweet and sub-statuses when present.
   */
  function Jsonify(s: Status): (j: Record)
    decreases s
    ensures "text" in j && j["text"] == JString(s.text)
    ensures ("extended_tweet" in j) == s.extendedTweet.Some?
    ensures ("retweeted_status" in j) == s.retweetedStatus.Some?
    ensures s.retweetedStatus.Some? ==> j["retweeted_status"] == JObject(Jsonify(s.retweetedStatus.value))
    ensures ("quoted_status" in j) == s.quotedStatus.Some?
    ensures s.quotedStatus.Some? ==> j["quoted_status"] == JObject(Jsonify(s.quotedStatus.value))
    ensures forall k :: k in s.fields && k !in AttributeKeys ==> k in j && j[k] == s.fields[k]
    ensures forall k :: k in j ==> k in s.fields || k in AttributeKeys
  {
    var base := (s.fields - AttributeKeys)["text" := JString(s.text)];
    var withExtended :=
      match s.extendedTweet
      case Some(ext) => base["extended_tweet" := JObject(map k | k in ext :: JString(ext[k]))]
      case None => base;
    var withRetweet :=
      match s.retweetedStatus
      case Some(r) => withExtended["retweeted_status" := JObject(Jsonify(r))]
      case None => withExtended;
    match s.quotedStatus
    case Some(q) => withRetweet["quoted_status" := JObject(Jsonify(q))]
    case None => withRetweet
  }

  /** `extended_tweet["full_text"]`; a missing key raises KeyError, which no branch catches. */
  function FullText(extended: map<string, string>): Result<string, Error>
  {
    if "full_text" in extended then Ok(extended["full_text"]) else Err(KeyError("full_text"))
  }

  /** `j[key]`, which must be a dictionary to be indexed again. */
  function Child(j: Record, key: string): Result<Record, Error>
  {
    if key !in j then Err(KeyError(key))
    else if j[key].JObject? then Ok(j[key].fields)
    else Err(TypeError(key))
  }

  /** Whether `keys[i]` is the first of `keys` that `obj` lacks. */
  predicate FirstMissing(obj: Record, keys: seq<string>, i: int)
  {
    0 <= i < |keys| && keys[i] !in obj && forall j :: 0 <= j < i ==> keys[j] in obj
  }

  /**
   * `{key: obj[key] for key in keys}`: the record with exactly the given keys,
   * each copied from `obj`; the first key `obj` lacks raises KeyError.
   */
  function SelectKeys(obj: Record, keys: seq<string>): (r: Result<Record, Error>)
    ensures r.Ok? <==> forall k :: k in keys ==> k in obj
    ensures r.Ok? ==> r.value.Keys == KeySet(keys)
    ensures r.Ok? ==> forall k :: k in r.value ==> r.value[k] == obj[k]
    ensures r.Err? ==> r.error.KeyError? && exists i :: FirstMissing(obj, keys, i) && keys[i] == r.error.key
  {
    if keys == [] then Ok(map[])
    else if keys[0] !in obj then
      assert FirstMissing(obj, keys, 0);
      Err(KeyError(keys[0]))
    else
      match SelectKeys(obj, keys[1..])
      case Err(e) =>
        var i :| FirstMissing(obj, keys[1..], i) && keys[1..][i] == e.key;
        assert FirstMissing(obj, keys, i + 1);
        Err(e)
      case Ok(rest) =>
        assert KeySet(keys) == {keys[0]} + KeySet(keys[1..]);
        Ok(rest[keys[0] := obj[keys[0]]])
  }

  /** The three kinds of status, and the three lists a listener keeps. */
  datatype Category = Tweet | Retweet | Quoted

  /** What one successful `on_status` call stores: the list, the record and the line of text. */
  datatype Effect = Effect(list: Category, record: Record, line: string)

  /**
   * The common tail of every branch of `on_status`: resolve the text and
   * normalise it, then take the sub-structure out of the JSON and copy the
   * record's keys from it.
   */
  function Extract(text: Result<string, Error>, source: Result<Record, Error>, keys: seq<string>, list: Category)
    : Result<Effect, Error>
  {
    match text
    case Err(e) => Err(e)
    case Ok(t) =>
      var line := Normalise(t);
      match source
      case Err(e) => Err(e)
      case Ok(obj) =>
        match SelectKeys(obj, keys)
        case Err(e) => Err(e)
        case Ok(record) => Ok(Effect(list, record, line))
  }

  /**
   * What `on_status` does with one status, branch by branch as the code is
   * written: the `try` branch reads the extended text, the `except
   * AttributeError` branch the short text. The quoted fallback branch stores
   * its record in the tweet list, not the quoted one.
   */
  function Handle(s: Status, keys: seq<string>): Result<Effect, Error>
  {
    if s.retweetedStatus.Some? then
      var sub := s.retweetedStatus.value;
      if sub.extendedTweet.Some? then
        Extract(FullText(sub.extendedTweet.value), Child(Jsonify(s), "retweeted_status"), keys, Retweet)
      else
        Extract(Ok(sub.text), Child(Jsonify(s), "retweeted_status"), keys, Retweet)
    else if s.quotedStatus.Some? then
      var sub := s.quotedStatus.value;
      if sub.extendedTweet.Some? then
        Extract(FullText(sub.extendedTweet.value), Child(Jsonify(s), "quoted_status"), keys, Quoted)
      else
        Extract(Ok(sub.text), Child(Jsonify(s), "quoted_status"), keys, Tweet)
    else if s.extendedTweet.Some? then
      Extract(FullText(s.extendedTweet.value), Ok(Jsonify(s)), keys, Tweet)
    else
      Extract(Ok(s.text), Ok(Jsonify(s)), keys, Tweet)
  }

  // ---------------------------------------------------------------------------
  // A reference reading of `on_status`, step by step, and what it implies
  // ---------------------------------------------------------------------------

  /** The category of a status: a retweet first, then a quoted tweet, otherwise a plain tweet. */
  function Classify(s: Status): Category
  {
    if s.retweetedStatus.Some? then Retweet
    else if s.quotedStatus.Some? then Quoted
    else Tweet
  }

  /** The sub-structure the fields and the text are read from. */
  function Selected(s: Status): Status
  {
    match Classify(s)
    case Retweet => s.retweetedStatus.value
    case Quoted => s.quotedStatus.value
    case Tweet => s
  }

  /** The text chosen from the selected sub-structure: the extended text whenever that attribute exists. */
  function ResolveText(s: Status): Result<string, Error>
  {
    match s.extendedTweet
    case Some(ext) => FullText(ext)
    case None => Ok(s.text)
  }

  /** The list a status is stored in. A quoted status without an extended tweet lands in the tweet list. */
  function Destination(s: Status): Category
  {
    if Classify(s) == Quoted && Selected(s).extendedTweet.None? then Tweet else Classify(s)
  }

  /**
   * The six branches collapse into one pipeline: classify, select the
   * sub-structure, resolve its text, copy its keys, store in the destination.
   */
  lemma HandleIsPipeline(s: Status, keys: seq<string>)
    ensures Handle(s, keys) ==
      match ResolveText(Selected(s))
      case Err(e) => Err(e)
      case Ok(t) =>
        match SelectKeys(Jsonify(Selected(s)), keys)
        case Err(e) => Err(e)
        case Ok(record) => Ok(Effect(Destination(s), record, Normalise(t)))
  {
    var j := Jsonify(s);
    if s.retweetedStatus.Some? {
      assert Child(j, "retweeted_status") == Ok(Jsonify(s.retweetedStatus.value));
    } else if s.quotedStatus.Some? {
      assert Child(j, "quoted_status") == Ok(Jsonify(s.quotedStatus.value));
    }
  }

  /**
   * Category priority: when a retweeted status is present, the quoted status
   * (present or not) plays no part in what is stored or written.
   */
  lemma RetweetTakesPriority(s: Status, q: Option<Status>, keys: seq<string>)
    requires s.retweetedStatus.Some?
    ensures Handle(s.(quotedStatus := q), keys) == Handle(s, keys)
    ensures Handle(s, keys).Ok? ==> Handle(s, keys).value.list == Retweet
  {
    HandleIsPipeline(s, keys);
    HandleIsPipeline(s.(quotedStatus := q), keys);
  }

  /** Where each branch stores its record, as written (`retweets`, `quoted` or `tweets`). */
  lemma ListPerBranch(s: Status, keys: seq<string>)
    requires Handle(s, keys).Ok?
    ensures Handle(s, keys).value.list ==
      if s.retweetedStatus.Some? then Retweet
      else if s.quotedStatus.Some? then (if s.quotedStatus.value.extendedTweet.Some? then Quoted else Tweet)
      else Tweet
  {
  }

  /**
   * The quoted fallback branch stores a quoted status in the tweet list:
   * the only branch whose list differs from the status's category.
   */
  lemma QuotedFallbackStoredAsTweet(s: Status, keys: seq<string>)
    requires Handle(s, keys).Ok?
    ensures Handle(s, keys).value.list != Classify(s) <==>
      s.retweetedStatus.None? && s.quotedStatus.Some? && s.quotedStatus.value.extendedTweet.None?
    ensures Handle(s, keys).value.list != Classify(s) ==> Handle(s, keys).value.list == Tweet
  {
    HandleIsPipeline(s, keys);
  }

  /**
   * Text resolution: the line written is the normalised extended text of the
   * selected sub-structure when it has an `extended_tweet`, whatever its
   * length or content, and the normalised short text only when it has none.
   */
  lemma TextResolution(s: Status, keys: seq<string>)
    requires Handle(s, keys).Ok?
    ensures Selected(s).extendedTweet.Some? ==>
      "full_text" in Selected(s).extendedTweet.value &&
      Handle(s, keys).value.line == Normalise(Selected(s).extendedTweet.value["full_text"])
    ensures Selected(s).extendedTweet.None? ==>
      Handle(s, keys).value.line == Normalise(Selected(s).text)
    ensures '\n' !in Handle(s, keys).value.line && '\r' !in Handle(s, keys).value.line
  {
    HandleIsPipeline(s, keys);
  }

  /**
   * Record shape: a stored record has exactly the requested keys, each
   * value copied from the selected sub-structure's JSON. Its "text" field is
   * the short text, even where the line written is the extended one.
   */
  lemma RecordShape(s: Status, keys: seq<string>)
    requires Handle(s, keys).Ok?
    ensures Handle(s, keys).value.record.Keys == KeySet(keys)
    ensures forall k :: k in keys ==> Handle(s, keys).value.record[k] == Jsonify(Selected(s))[k]
    ensures "text" in keys ==> Handle(s, keys).value.record["text"] == JString(Selected(s).text)
  {
    HandleIsPipeline(s, keys);
  }

  /**
   * Error cases: a status fails exactly when its selected sub-structure has
   * an extended tweet without "full_text" (KeyError "full_text", raised
   * before any key is copied) or lacks one of the keys (KeyError naming the
   * first missing key). A partial record is never produced.
   */
  lemma HandleFails(s: Status, keys: seq<string>)
    ensures Handle(s, keys).Err? <==>
      ResolveText(Selected(s)).Err? || exists k :: k in keys && k !in Jsonify(Selected(s))
    ensures ResolveText(Selected(s)).Err? ==> Handle(s, keys) == Err(KeyError("full_text"))
    ensures ResolveText(Selected(s)).Ok? && Handle(s, keys).Err? ==>
      exists i :: FirstMissing(Jsonify(Selected(s)), keys, i) && Handle(s, keys) == Err(KeyError(keys[i]))
  {
    HandleIsPipeline(s, keys);
  }

  /** `on_error`: False, the signal to stop the stream, for code 420 (rate limited); otherwise no value (None). */
  function OnError(statusCode: int): (r: Option<bool>)
    ensures r == Some(false) <==> statusCode == 420
    ensures r.None? <==> statusCode != 420
  {
    if statusCode == 420 then Some(false) else None
  }

  /** How an `on_status` call ends: normally, or with an exception propagated to the caller. */
  datatype Outcome = Done | Raised(error: Error)

  /**
   * The listener's session state: the three record lists, everything
   * written to the text sink (one string per `write` call) and the number
   * of statuses received.
   */
  class Listener {
    var textOut: seq<string>
    var tweets: seq<Record>
    var retweets: seq<Record>
    var quoted: seq<Record>
    const keys4tweets: seq<string>
    const subColumns: seq<string>
    var statusCounter: nat

    /** Every stored record has exactly the keys of `keys4tweets`. */
    predicate Valid()
      reads this
    {
      && (forall r :: r in tweets ==> r.Keys == KeySet(keys4tweets))
      && (forall r :: r in retweets ==> r.Keys == KeySet(keys4tweets))
      && (forall r :: r in quoted ==> r.Keys == KeySet(keys4tweets))
    }

    /** `__init__` without the transport handshake: empty lists, empty sink, counter 0. */
    constructor ()
      ensures Valid()
      ensures tweets == [] && retweets == [] && quoted == []
      ensures textOut == [] && statusCounter == 0
      ensures keys4tweets == Keys4Tweets && subColumns == SubColumns
    {
      keys4tweets, subColumns := Keys4Tweets, SubColumns;
      textOut := [];
      tweets, retweets, quoted := [], [], [];
      statusCounter := 0;
    }

    /** `tweets.append(subset)`, `retweets.append(subset)` or `quoted.append(subset)`. */
    method Append(list: Category, record: Record)
      requires Valid()
      requires record.Keys == KeySet(keys4tweets)
      modifies this
      ensures Valid()
      ensures tweets == old(tweets) + (if list == Tweet then [record] else [])
      ensures retweets == old(retweets) + (if list == Retweet then [record] else [])
      ensures quoted == old(quoted) + (if list == Quoted then [record] else [])
      ensures textOut == old(textOut) && statusCounter == old(statusCounter)
    {
      match list {
        case Tweet => tweets := tweets + [record];
        case Retweet => retweets := retweets + [record];
        case Quoted => quoted := quoted + [record];
      }
    }

    /**
     * The common tail of the branches of `on_status`: raise what the text or
     * the sub-structure raised, else copy the keys (raising on the first one
     * missing), append the record to `list`'s list and write the normalised
     * text and a newline.
     */
    method Store(text: Result<string, Error>, source: Result<Record, Error>, list: Category)
      returns (outcome: Outcome)
      requires Valid()
      modifies this
      ensures Valid()
      ensures statusCounter == old(statusCounter)
      ensures Extract(text, source, keys4tweets, list).Err? ==>
        && outcome == Raised(Extract(text, source, keys4tweets, list).error)
        && tweets == old(tweets) && retweets == old(retweets) && quoted == old(quoted)
        && textOut == old(textOut)
      ensures Extract(text, source, keys4tweets, list).Ok? ==>
        var e := Extract(text, source, keys4tweets, list).value;
        && outcome == Done
        && tweets == old(tweets) + (if e.list == Tweet then [e.record] else [])
        && retweets == old(retweets) + (if e.list == Retweet then [e.record] else [])
        && quoted == old(quoted) + (if e.list == Quoted then [e.record] else [])
        && textOut == old(textOut) + [e.line, "\n"]
    {
      if text.Err? {
        return Raised(text.error);
      }
      var line := Normalise(text.value);
      if source.Err? {
        return Raised(source.error);
      }
      var subset := SelectKeys(source.value, keys4tweets);
      if subset.Err? {
        return Raised(subset.error);
      }
      assert Extract(text, source, keys4tweets, list) == Ok(Effect(list, subset.value, line));
      Append(list, subset.value);
      ghost var written := textOut;
      textOut := textOut + [line];
      textOut := textOut + ["\n"];
      assert textOut == written + [line, "\n"];
      outcome := Done;
    }

    /**
     * `on_status`. The counter is bumped first, so it counts a status that
     * then raises. A status that raises stores and writes nothing; otherwise
     * exactly one list grows by the record and the sink by the line and a
     * newline.
     */
    method OnStatus(status: Status) returns (outcome: Outcome)
      requires Valid()
      modifies this
      ensures Valid()
      ensures statusCounter == old(statusCounter) + 1
      ensures Handle(status, keys4tweets).Err? ==>
        && outcome == Raised(Handle(status, keys4tweets).error)
        && tweets == old(tweets) && retweets == old(retweets) && quoted == old(quoted)
        && textOut == old(textOut)
      ensures Handle(status, keys4tweets).Ok? ==>
        var e := Handle(status, keys4tweets).value;
        && outcome == Done
        && tweets == old(tweets) + (if e.list == Tweet then [e.record] else [])
        && retweets == old(retweets) + (if e.list == Retweet then [e.record] else [])
        && quoted == old(quoted) + (if e.list == Quoted then [e.record] else [])
        && textOut == old(textOut) + [e.line, "\n"]
    {
      statusCounter := statusCounter + 1;

      var json := Jsonify(status);
      var text: Result<string, Error>;
      var source: Result<Record, Error>;
      var list: Category;
      if status.retweetedStatus.Some? {
        var sub := status.retweetedStatus.value;
        if sub.extendedTweet.Some? {
          text := FullText(sub.extendedTweet.value);
        } else {
          text := Ok(sub.text);
        }
        source, list := Child(json, "retweeted_status"), Retweet;
      } else if status.quotedStatus.Some? {
        var sub := status.quotedStatus.value;
        if sub.extendedTweet.Some? {
          text, list := FullText(sub.extendedTweet.value), Quoted;
        } else {
          // As written: this fallback appends to `tweets` (streamer.py:141).
          text, list := Ok(sub.text), Tweet;
        }
        source := Child(json, "quoted_status");
      } else {
        if status.extendedTweet.Some? {
          text := FullText(status.extendedTweet.value);
        } else {
          text := Ok(status.text);
        }
        source, list := Ok(json), Tweet;
      }
      assert Handle(status, keys4tweets) == Extract(text, source, keys4tweets, list);

      outcome := Store(text, source, list);
    }
  }
}
