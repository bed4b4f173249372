# tweet_streamer core, modelled in Dafny

This project models the core of `streamer.py`, a Twitter stream client:

- **`Listener`** receives one status at a time (`on_status`). It classifies
  the status as a retweet, a quoted tweet or a plain tweet, in that order of
  priority. It picks the sub-structure to read: the retweeted status, the
  quoted status or the status itself. It resolves the text: the extended
  `full_text` when the `extended_tweet` attribute exists, else the short
  `text`. It normalises the text to one line and copies the fixed key set
  `keys4tweets` into a record. Then it appends the record to one of its three
  lists, writes the line and a newline to its text sink, and counts the
  status. `on_error` asks the stream to stop on HTTP 420.
- **`Wrangler`** flattens each record list, selects the fixed `sub_columns`,
  tags every row with its `kind`, and concatenates the blocks: tweets, then
  retweets, then quoted tweets.

Modules:

- `Wrappers`: `Option` and `Result`.
- `JsonValues`: JSON values and the exceptions raised by indexing them.
- `Text`: the `replace('\n',' ').replace('\r','')` normalisation.
- `Streamer`:
  - the `Status` datatype, which is the library's status object;
  - `Jsonify`, which gives its `_json` dictionary;
  - `Handle`, which says what `on_status` does with a status, branch by branch;
  - the `Listener` class: fields `tweets`, `retweets`, `quoted`, `textOut`
    (one string per `write` call) and `statusCounter`, with the `OnStatus`
    method proved against `Handle`;
  - `OnError`.
- `Wrangler`: the aggregation as functions on sequences.

### Behaviour of the source that the model keeps

- The quoted-status branch that falls back to the short text appends its
  record to `tweets`, not `quoted` (streamer.py:141). `OnStatus` and `Handle`
  do the same. `QuotedFallbackStoredAsTweet` proves that this is the only
  branch whose list differs from the status's category.
- `keys4tweets` lists eleven keys (streamer.py:50), so every stored record
  has eleven fields.
- A newline becomes a space; it is not removed. So the short text
  `"hello world\n"` is written as `"hello world "` followed by the newline
  (`TrailingNewlineBecomesSpace`).
- A status with an `extended_tweet` that lacks `"full_text"` raises KeyError.
  That error propagates, because only AttributeError is caught. The same
  holds for a missing record key. Either way the counter has already been
  bumped (streamer.py:77), and nothing is stored or written.
- The record's `text` field is copied from the JSON, so it is always the
  short text, even when the written line is the extended text (`RecordShape`).
- `pd.json_normalize([])` has no columns, so selecting `columns` from an
  empty list raises KeyError. The table is built only when every selected
  column occurs in some record of each list. In particular, an empty list
  makes it fail (`EmptyListFails`). A record that lacks a column which other
  records of its list have gets NaN (`Cell.Missing`) there.

## Model

| member | source | states |
|---|---|---|
| `Text.ReplaceNewlines` | streamer.py:91 | `replace('\n',' ')` keeps the length, turns every newline into a space, keeps every other character in place, and keeps the count of carriage returns |
| `Text.RemoveCarriageReturns` | streamer.py:91 | `replace('\r','')` leaves no carriage return, shortens the text by exactly the number of carriage returns, and introduces no new character |
| `Text.Normalise` | streamer.py:91 | the written text holds neither `'\n'` nor `'\r'`, and its length is the original length minus the count of `'\r'` |
| `Text.NormaliseIsOneLine` | streamer.py:91 | the two replacements equal a one-pass transformation: drop `'\r'`, turn `'\n'` into a space, keep every other character in order |
| `Text.OneLineKeepsCleanText` | streamer.py:105 | a text that already has neither character is left unchanged |
| `Text.NormaliseIdempotent` | streamer.py:122 | normalising twice gives the same text as normalising once |
| `Text.TrailingNewlineBecomesSpace` | streamer.py:166-167 | a single-line short text followed by a newline is written with a trailing space |
| `Streamer.Jsonify` | streamer.py:61-65 | the status's JSON holds its `text`, its `extended_tweet` exactly when that attribute exists, its `retweeted_status` and `quoted_status` exactly when present (as the sub-statuses' own JSON objects), and its other fields unchanged |
| `Streamer.SelectKeys` | streamer.py:94 | the dict comprehension succeeds exactly when every key is present; the record then has exactly those keys, with values copied; otherwise it raises KeyError on the first missing key |
| `Streamer.HandleIsPipeline` | streamer.py:86-176 | the six branches equal one pipeline: classify (retweet before quoted before plain), select the sub-structure, resolve its text, copy its keys from its JSON, store in the destination list |
| `Streamer.RetweetTakesPriority` | streamer.py:87-118 | with a retweeted status present, the quoted status plays no part in the outcome, and the record goes to `retweets` |
| `Streamer.ListPerBranch` | streamer.py:96-172 | both retweet branches store in `retweets`; the quoted `try` branch in `quoted`; the quoted fallback and both plain branches in `tweets` |
| `Streamer.QuotedFallbackStoredAsTweet` | streamer.py:133-141 | the stored list differs from the status's category exactly for a quoted status without an extended tweet, and then it is `tweets` |
| `Streamer.TextResolution` | streamer.py:88-104 | the line is the normalised `full_text` of the selected sub-structure whenever it has an `extended_tweet`, and its normalised short text only when it has none; the line is single-line |
| `Streamer.RecordShape` | streamer.py:94-125 | a stored record has exactly the requested keys, each copied from the selected sub-structure's JSON; its `text` is the short text |
| `Streamer.HandleFails` | streamer.py:88-108 | a status raises exactly when its extended tweet lacks `full_text` (KeyError `full_text`, checked first) or its JSON lacks a key (KeyError naming the first missing one) |
| `Streamer.OnError` | streamer.py:180-183 | returns False (stop) if and only if the code is 420, and no value otherwise |
| `Streamer.Listener.constructor` | streamer.py:35-57 | a new listener has empty lists, an empty sink, counter 0, and the fixed `keys4tweets` and `sub_columns` |
| `Streamer.Listener.Append` | streamer.py:96 | the record is appended to the chosen list only; the other two lists, the sink and the counter are unchanged, and every record keeps the `keys4tweets` keys |
| `Streamer.Listener.Store` | streamer.py:91-100 | a raised text or key error stores and writes nothing; otherwise the record is appended to the chosen list only, and the sink grows by the line and `"\n"` |
| `Streamer.Listener.OnStatus` | streamer.py:68-176 | the counter grows by exactly 1, even when the status raises; on success exactly one list grows by `Handle`'s record, the other two are unchanged, and the sink grows by the normalised line and `"\n"`; every stored record keeps exactly the `keys4tweets` keys |
| `Wrangler.MissingColumn` | streamer.py:199-201 | none exactly when every selected column is found in some record of the list; otherwise the first selected column found in no record, every column before it being found |
| `Wrangler.WrangleSucceedsIff` | streamer.py:199-209 | the table is built if and only if every column is found in each of the three lists; otherwise a KeyError names a column that one list lacks |
| `Wrangler.EmptyListFails` | streamer.py:199-201 | with at least one column, an empty list makes the aggregation fail |
| `Wrangler.TaggedFrame` | streamer.py:204-206 | selecting the columns and tagging a list gives one row per record, in the records' order: the record's projection plus its `kind` |
| `Wrangler.WrangleBlocks` | streamer.py:204-209 | the table is the tweets' rows, then the retweets' rows, then the quoted tweets' rows, each block in its list's order; for lists of sizes a, b and c it has a+b+c rows |
| `Wrangler.WrangleKinds` | streamer.py:204-209 | rows 0..a-1 have kind "Tweet", the next b have "Retweet", and the last c have "Quoted" |
| `Wrangler.TableRowShape` | streamer.py:199-206 | every row has exactly the selected columns plus `kind`; each column holds the flattened record's value, or NaN where that record lacks it |
| `Wrangler.DottedColumnReadsNested` | streamer.py:53-54 | a dotted column such as `user.name` reads the field inside the record's nested `user` object |

## Left out

- Tweepy transport: the `tweepy.Stream` base class, the credentials handshake and the connection lifecycle (streamer.py:32, 39). This is network code in a foreign library.
- Opening the output file (streamer.py:42). The sink is the `textOut` field, a sequence holding the strings passed to `write`.
- The `print` in `on_error` (streamer.py:182). It is only logging.
- `json.dumps` / `json.loads` in `jsonify_tweepy`. The round trip is the identity on JSON, so `Jsonify` is the status's own JSON view.
- `str(...)` conversions: texts are taken to be strings already, and `extended_tweet` is modelled as a string-valued dictionary.
- Statuses that lack a `text` attribute. The short text is always present in `Status`, so the AttributeError such a status raises in the fallback branches is not modelled.
- `pd.to_datetime` on `created_at` (streamer.py:212). Date parsing depends on a format parser that is not part of this model, so no row states the date round trip.
- `pd.json_normalize` internals. Flattening is one level deep (`ColumnOf`): an object nested inside a nested object is not flattened further, and column names are split at their first dot. Where a record holds both a literal top-level key such as `"user.name"` and a nested `user` object with `"name"`, `ColumnOf` takes the top-level value; pandas, which merges the flattened nested columns after the top-level ones, would take the nested one.
- Column order, duplicate selected columns and the reset of the index by `ignore_index` are not modelled. A row is a map from column name to cell.
- Wrangler.WrangleSucceedsIff: the KeyError names one missing column, where pandas lists all the missing ones.
