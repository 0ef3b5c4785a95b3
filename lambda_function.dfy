/**
 * The batch normalise-and-index step of the search-indexing function: split
 * an object's newline-delimited body into records, flatten each tweet into a
 * search document, and upload the documents to the search index in
 * fixed-size bulk batches (or print them in dry-run mode).
 *
 * The services the code calls are parameters: Python's `str.lower` and
 * `json.loads`, the object store's `get_object`, the bulk helper of the
 * search client and the sentiment service's `detect_sentiment`.
 */
module LambdaFunction {
  import opened Wrappers
  import opened PythonStr
  import opened Batching

  const EsIndex := "tweet-index"
  const DocType := "tweet-type"
  const DefaultBulkSize := 25

  /** The module-level flags that `lambda_handler` passes to the pipeline. */
  const GlobalUpload := false
  const GlobalGetSentiment := false

  /** The keys of a sentiment response that are kept in the document. */
  const SentimentKeys: set<string> := {"Sentiment", "SentimentScore"}

  /** A JSON value, as found in a sentiment response. */
  datatype Json =
    | JNull
    | JBool(b: bool)
    | JNumber(n: real)
    | JString(s: string)
    | JArray(items: seq<Json>)
    | JObject(fields: map<string, Json>)

  datatype Hashtag = Hashtag(text: string)
  datatype UserMention = UserMention(screenName: string)
  datatype Entities = Entities(hashtags: seq<Hashtag>, userMentions: seq<UserMention>)
  datatype User = User(screenName: string)
  datatype Geo = Geo(coordinates: seq<real>)
  /**
   * `placeType` and `fullName` are `None` when the place block has no
   * `place_type` or `full_name` key, which `.get` reads as null.
   */
  datatype Place = Place(placeType: Option<string>, fullName: Option<string>)
  /** `fullText` is `None` when the block has no `full_text` key. */
  datatype ExtendedTweet = ExtendedTweet(fullText: Option<string>, entities: Entities)

  /**
   * One decoded tweet. `geo` and `place` are `None` when the key is absent
   * or null; `extendedTweet` is `None` when the key is absent, null or an
   * empty object (the values Python treats as false).
   */
  datatype Tweet = Tweet(
    idStr: string,
    createdAt: string,
    timestampMs: string,
    text: string,
    user: User,
    entities: Entities,
    geo: Option<Geo>,
    place: Option<Place>,
    extendedTweet: Option<ExtendedTweet>)

  /**
   * The flat document built for the index; an optional key is `None` when it
   * is absent. `city` is `Some(None)` when the key is present with the value
   * null.
   */
  datatype Doc = Doc(
    idStr: string,
    createdAt: string,
    timestampMs: string,
    text: string,
    hashtags: seq<string>,
    mentions: seq<string>,
    user: string,
    coordinates: Option<seq<real>>,
    city: Option<Option<string>>,
    sentiment: Option<map<string, Json>>)

  /** One action for the bulk helper: `_index`, `_type`, `_id` and `_source`. */
  datatype BulkDoc = BulkDoc(index: string, docType: string, id: string, source: Doc)

  /** What decoding a line can raise: malformed JSON, or a required key that is missing. */
  datatype Error = ParseError(line: string) | KeyError(key: string)

  /** Python's `str.lower` and `json.loads` (the latter read into a `Tweet`). */
  datatype Python = Python(lower: string -> string, loads: string -> Result<Tweet, Error>)

  /** The clients the pipeline is built from. */
  datatype Services = Services(
    s3: (string, string) -> string,
    es: seq<BulkDoc> -> nat,
    comprehend: string -> map<string, Json>)

  /**
   * An `ESPipeline` object: `s3` gives the decoded body of a (bucket, key)
   * object, `es` the success count the bulk helper reports for a batch, and
   * `comprehend` is the sentiment client when there is one.
   */
  datatype ESPipeline = ESPipeline(
    s3: (string, string) -> string,
    es: seq<BulkDoc> -> nat,
    upload: bool,
    comprehend: Option<string -> map<string, Json>>)

  /** `ESPipeline.__init__`: the sentiment client exists exactly when sentiment is requested. */
  function NewPipeline(upload: bool, getSentiment: bool, svc: Services): (p: ESPipeline)
    ensures p.upload == upload
    ensures p.comprehend.Some? <==> getSentiment
  {
    ESPipeline(svc.s3, svc.es, upload, if getSentiment then Some(svc.comprehend) else None)
  }

  // ---------------------------------------------------------------- json_parser

  /** The lines of a body: stripped, then split at each newline. */
  function Lines(body: string): (lines: seq<string>)
    ensures |lines| == Count(Strip(body), '\n') + 1
    ensures forall k :: 0 <= k < |lines| ==> '\n' !in lines[k]
    ensures Join(lines, '\n') == Strip(body)
  {
    SplitCount(Strip(body), '\n');
    Split(Strip(body), '\n')
  }

  /** Decodes each line on its own, keeping the order. */
  function DecodeEach(loads: string -> Result<Tweet, Error>, lines: seq<string>): (records: seq<Result<Tweet, Error>>)
    ensures |records| == |lines|
    ensures forall k :: 0 <= k < |lines| ==> records[k] == loads(lines[k])
  {
    if lines == [] then [] else [loads(lines[0])] + DecodeEach(loads, lines[1..])
  }

  /**
   * `ESPipeline.json_parser`: one record per newline-separated line of the
   * stripped body, in order, each line decoded independently.
   */
  function JsonParser(py: Python, body: string): (records: seq<Result<Tweet, Error>>)
    ensures |records| == Count(Strip(body), '\n') + 1
    ensures forall k :: 0 <= k < |records| ==> records[k] == py.loads(Lines(body)[k])
  {
    DecodeEach(py.loads, Lines(body))
  }

  /**
   * A body made of newline-free lines (and no surrounding whitespace)
   * gives back exactly those lines, decoded one by one.
   */
  lemma JsonParserOfJoinedLines(py: Python, lines: seq<string>)
    requires |lines| >= 1
    requires forall k :: 0 <= k < |lines| ==> '\n' !in lines[k]
    requires Strip(Join(lines, '\n')) == Join(lines, '\n')
    ensures |JsonParser(py, Join(lines, '\n'))| == |lines|
    ensures forall k :: 0 <= k < |lines| ==> JsonParser(py, Join(lines, '\n'))[k] == py.loads(lines[k])
  {
    SplitJoin(lines, '\n');
  }

  /** An empty or blank body still yields one record: the decoding of the empty line. */
  lemma BlankBodyYieldsOneRecord(py: Python, body: string)
    requires forall k :: 0 <= k < |body| ==> IsSpace(body[k])
    ensures JsonParser(py, body) == [py.loads("")]
  {
    StripAllSpace(body);
  }

  // -------------------------------------------------------------- get_sentiment

  /** The dict comprehension of `get_sentiment`: the response restricted to the two sentiment keys. */
  function KeepSentimentKeys(response: map<string, Json>): (r: map<string, Json>)
    ensures r.Keys == response.Keys * SentimentKeys
    ensures forall k :: k in r ==> r[k] == response[k]
  {
    map k | k in response && k in SentimentKeys :: response[k]
  }

  /** `ESPipeline.get_sentiment`: the filtered response, or `{}` when there is no sentiment client. */
  function GetSentiment(p: ESPipeline, text: string): (r: map<string, Json>)
    ensures p.comprehend.None? ==> r == map[]
    ensures p.comprehend.Some? ==> r.Keys == p.comprehend.value(text).Keys * SentimentKeys
    ensures p.comprehend.Some? ==> forall k :: k in r ==> r[k] == p.comprehend.value(text)[k]
    ensures r.Keys <= SentimentKeys
  {
    match p.comprehend
    case None => map[]
    case Some(detectSentiment) => KeepSentimentKeys(detectSentiment(text))
  }

  // ------------------------------------------------------------ tweet_extractor

  /** `[hashtag['text'].lower() for hashtag in hashtags]`. */
  function LowerHashtags(lower: string -> string, hashtags: seq<Hashtag>): (r: seq<string>)
    ensures |r| == |hashtags|
    ensures forall k :: 0 <= k < |r| ==> r[k] == lower(hashtags[k].text)
  {
    if hashtags == [] then [] else [lower(hashtags[0].text)] + LowerHashtags(lower, hashtags[1..])
  }

  /** `[user_mention['screen_name'].lower() for user_mention in mentions]`. */
  function LowerMentions(lower: string -> string, mentions: seq<UserMention>): (r: seq<string>)
    ensures |r| == |mentions|
    ensures forall k :: 0 <= k < |r| ==> r[k] == lower(mentions[k].screenName)
  {
    if mentions == [] then [] else [lower(mentions[0].screenName)] + LowerMentions(lower, mentions[1..])
  }

  /** Python truthiness of an optional string: present and non-empty. */
  predicate Truthy(s: Option<string>)
  {
    s.Some? && s.value != ""
  }

  /** The hashtag entities whose lowercased texts end up in the document. */
  function HashtagSource(t: Tweet): seq<Hashtag>
  {
    if t.extendedTweet.Some? && t.extendedTweet.value.entities.hashtags != []
    then t.extendedTweet.value.entities.hashtags
    else t.entities.hashtags
  }

  /** The mention entities whose lowercased screen names end up in the document. */
  function MentionSource(t: Tweet): seq<UserMention>
  {
    if t.extendedTweet.Some? && t.extendedTweet.value.entities.userMentions != []
    then t.extendedTweet.value.entities.userMentions
    else t.entities.userMentions
  }

  /** The document before the optional keys: copied fields and lowercased canonical lists. */
  function BaseDoc(lower: string -> string, t: Tweet): Doc
  {
    Doc(t.idStr, t.createdAt, t.timestampMs, t.text,
        LowerHashtags(lower, t.entities.hashtags), LowerMentions(lower, t.entities.userMentions),
        t.user.screenName, None, None, None)
  }

  /** The `geo` step: reversed coordinates when there is a geo block; no other key changes. */
  function AddCoordinates(data: Doc, geo: Option<Geo>): (r: Doc)
    ensures r == data.(coordinates := r.coordinates)
  {
    if geo.Some? then data.(coordinates := Some(Reverse(geo.value.coordinates))) else data
  }

  /**
   * The `place` step: the full name, or null when the key is missing, when
   * the place is a city; no other key changes.
   */
  function AddCity(data: Doc, place: Option<Place>): (r: Doc)
    ensures r == data.(city := r.city)
  {
    if place.Some? && place.value.placeType == Some("city") then data.(city := Some(place.value.fullName)) else data
  }

  /**
   * The `extended_tweet` step: each of text, hashtags and mentions is
   * replaced only by a non-empty value; no other key changes.
   */
  function ApplyExtended(lower: string -> string, data: Doc, extended: Option<ExtendedTweet>): (r: Doc)
    ensures r.idStr == data.idStr && r.createdAt == data.createdAt && r.timestampMs == data.timestampMs
    ensures r.user == data.user && r.coordinates == data.coordinates && r.city == data.city
    ensures r.sentiment == data.sentiment
  {
    match extended
    case None => data
    case Some(ext) =>
      var data' := if Truthy(ext.fullText) then data.(text := ext.fullText.value) else data;
      var hashtags := LowerHashtags(lower, ext.entities.hashtags);
      var data'' := if hashtags != [] then data'.(hashtags := hashtags) else data';
      var mentions := LowerMentions(lower, ext.entities.userMentions);
      if mentions != [] then data''.(mentions := mentions) else data''
  }

  /** The sentiment step, run on the final text; no other key changes. */
  function AddSentiment(p: ESPipeline, data: Doc): (r: Doc)
    ensures r == data.(sentiment := r.sentiment)
  {
    if p.comprehend.Some? then data.(sentiment := Some(GetSentiment(p, data.text))) else data
  }

  /** `ESPipeline.tweet_extractor`: the four steps in the order the code applies them. */
  function TweetExtractor(p: ESPipeline, lower: string -> string, t: Tweet): Doc
  {
    AddSentiment(p, ApplyExtended(lower, AddCity(AddCoordinates(BaseDoc(lower, t), t.geo), t.place), t.extendedTweet))
  }

  /** The identifier, both timestamps and the author's screen name are copied unchanged. */
  lemma ExtractorCopiesFields(p: ESPipeline, lower: string -> string, t: Tweet)
    ensures var d := TweetExtractor(p, lower, t);
      && d.idStr == t.idStr && d.createdAt == t.createdAt
      && d.timestampMs == t.timestampMs && d.user == t.user.screenName
  {
  }

  /** The text is the extended full text when that is present and non-empty, else the canonical text. */
  lemma ExtractorText(p: ESPipeline, lower: string -> string, t: Tweet)
    ensures TweetExtractor(p, lower, t).text ==
      if t.extendedTweet.Some? && Truthy(t.extendedTweet.value.fullText)
      then t.extendedTweet.value.fullText.value else t.text
  {
  }

  /**
   * Hashtags and mentions are the lowercased extended lists when those are
   * non-empty, else the lowercased canonical lists: same length and order
   * as the source entities, each element the lowercase of the entity's text.
   */
  lemma ExtractorTags(p: ESPipeline, lower: string -> string, t: Tweet)
    ensures var d := TweetExtractor(p, lower, t);
      && |d.hashtags| == |HashtagSource(t)|
      && (forall k :: 0 <= k < |d.hashtags| ==> d.hashtags[k] == lower(HashtagSource(t)[k].text))
      && |d.mentions| == |MentionSource(t)|
      && (forall k :: 0 <= k < |d.mentions| ==> d.mentions[k] == lower(MentionSource(t)[k].screenName))
  {
    var d2 := AddCity(AddCoordinates(BaseDoc(lower, t), t.geo), t.place);
    var d3 := ApplyExtended(lower, d2, t.extendedTweet);
    if t.extendedTweet.Some? {
      var ext := t.extendedTweet.value;
      assert LowerHashtags(lower, ext.entities.hashtags) != [] <==> ext.entities.hashtags != [];
      assert LowerMentions(lower, ext.entities.userMentions) != [] <==> ext.entities.userMentions != [];
    }
    assert d3.hashtags == LowerHashtags(lower, HashtagSource(t));
    assert d3.mentions == LowerMentions(lower, MentionSource(t));
  }

  /**
   * Coordinates are present iff `geo` is, and are its coordinate list
   * reversed; the city is present iff the place is of type "city", and is
   * its full name.
   */
  lemma ExtractorGeoAndCity(p: ESPipeline, lower: string -> string, t: Tweet)
    ensures var d := TweetExtractor(p, lower, t);
      && (d.coordinates.Some? <==> t.geo.Some?)
      && (t.geo.Some? ==> d.coordinates.value == Reverse(t.geo.value.coordinates))
      && (d.city.Some? <==> t.place.Some? && t.place.value.placeType == Some("city"))
      && (d.city.Some? ==> d.city.value == t.place.value.fullName)
  {
  }

  /**
   * The sentiment key is present iff there is a sentiment client, and then
   * holds `get_sentiment` of the final text.
   */
  lemma ExtractorSentiment(p: ESPipeline, lower: string -> string, t: Tweet)
    ensures var d := TweetExtractor(p, lower, t);
      && (d.sentiment.Some? <==> p.comprehend.Some?)
      && (d.sentiment.Some? ==> d.sentiment.value == GetSentiment(p, d.text))
  {
  }

  /** A `geo` pair stored as (longitude, latitude) comes out as (latitude, longitude). */
  lemma GeoPairIsSwapped(p: ESPipeline, lower: string -> string, t: Tweet, lon: real, lat: real)
    requires t.geo == Some(Geo([lon, lat]))
    ensures TweetExtractor(p, lower, t).coordinates == Some([lat, lon])
  {
    ExtractorGeoAndCity(p, lower, t);
    var r := Reverse([lon, lat]);
    assert r[0] == lat && r[1] == lon;
    assert r == [lat, lon];
  }

  /** The example pair: `[-73.9, 40.7]` becomes `[40.7, -73.9]`. */
  lemma GeoExample(p: ESPipeline, lower: string -> string, t: Tweet)
    requires t.geo == Some(Geo([-73.9, 40.7]))
    ensures TweetExtractor(p, lower, t).coordinates == Some([40.7, -73.9])
  {
    GeoPairIsSwapped(p, lower, t, -73.9, 40.7);
  }

  /** A city place without a `full_name` key gives a `city` key holding null, not an error. */
  lemma CityWithoutFullNameIsNull(p: ESPipeline, lower: string -> string, t: Tweet)
    requires t.place.Some? && t.place.value.placeType == Some("city")
    requires t.place.value.fullName.None?
    ensures TweetExtractor(p, lower, t).city == Some(None)
  {
    ExtractorGeoAndCity(p, lower, t);
  }

  /**
   * An extended block with full text but no hashtags replaces the text and
   * leaves the canonical hashtags in place.
   */
  lemma ExtendedTextWithoutHashtags(p: ESPipeline, lower: string -> string, t: Tweet)
    requires t.extendedTweet.Some?
    requires t.extendedTweet.value.fullText == Some("hello world")
    requires t.extendedTweet.value.entities.hashtags == []
    ensures TweetExtractor(p, lower, t).text == "hello world"
    ensures TweetExtractor(p, lower, t).hashtags == LowerHashtags(lower, t.entities.hashtags)
  {
    ExtractorText(p, lower, t);
    ExtractorTags(p, lower, t);
    assert TweetExtractor(p, lower, t).hashtags == LowerHashtags(lower, t.entities.hashtags);
  }

  /** With no sentiment client the document has no sentiment key at all. */
  lemma NoSentimentKeyWhenDisabled(p: ESPipeline, lower: string -> string, t: Tweet)
    requires p.comprehend.None?
    ensures TweetExtractor(p, lower, t).sentiment == None
  {
    ExtractorSentiment(p, lower, t);
  }

  /**
   * The geo, place and extended handling do not interfere: tweets that
   * agree on `geo` get the same coordinates, tweets that agree on `place`
   * the same city, and tweets that agree on the text fields the same text,
   * hashtags and mentions, whatever their other fields are.
   */
  lemma FieldsAreIndependent(p: ESPipeline, lower: string -> string, t: Tweet, u: Tweet)
    ensures t.geo == u.geo ==> TweetExtractor(p, lower, t).coordinates == TweetExtractor(p, lower, u).coordinates
    ensures t.place == u.place ==> TweetExtractor(p, lower, t).city == TweetExtractor(p, lower, u).city
    ensures t.text == u.text && t.entities == u.entities && t.extendedTweet == u.extendedTweet ==>
      && TweetExtractor(p, lower, t).text == TweetExtractor(p, lower, u).text
      && TweetExtractor(p, lower, t).hashtags == TweetExtractor(p, lower, u).hashtags
      && TweetExtractor(p, lower, t).mentions == TweetExtractor(p, lower, u).mentions
  {
    ExtractorGeoAndCity(p, lower, t);
    ExtractorGeoAndCity(p, lower, u);
    ExtractorText(p, lower, t);
    ExtractorText(p, lower, u);
    ExtractorTags(p, lower, t);
    ExtractorTags(p, lower, u);
    var dt, du := TweetExtractor(p, lower, t), TweetExtractor(p, lower, u);
    if t.text == u.text && t.entities == u.entities && t.extendedTweet == u.extendedTweet {
      assert HashtagSource(t) == HashtagSource(u) && MentionSource(t) == MentionSource(u);
      assert dt.hashtags == du.hashtags;
      assert dt.mentions == du.mentions;
    }
  }

  /**
   * When `lower` is idempotent (lowercasing a lowercase string changes
   * nothing), every hashtag and mention of the document is lowercase,
   * whatever the casing of the input.
   */
  lemma TagsAreLowercase(p: ESPipeline, lower: string -> string, t: Tweet)
    requires forall s :: lower(lower(s)) == lower(s)
    ensures forall h :: h in TweetExtractor(p, lower, t).hashtags ==> lower(h) == h
    ensures forall m :: m in TweetExtractor(p, lower, t).mentions ==> lower(m) == m
  {
    ExtractorTags(p, lower, t);
    var d := TweetExtractor(p, lower, t);
    forall h | h in d.hashtags ensures lower(h) == h {
      var k :| 0 <= k < |d.hashtags| && d.hashtags[k] == h;
      assert h == lower(HashtagSource(t)[k].text);
    }
    forall m | m in d.mentions ensures lower(m) == m {
      var k :| 0 <= k < |d.mentions| && d.mentions[k] == m;
      assert m == lower(MentionSource(t)[k].screenName);
    }
  }

  // ------------------------------------------------------------------------ run

  /** `self.tweet_extractor` as a function value, the way `run` uses it. */
  function Extractor(p: ESPipeline, lower: string -> string): Tweet -> Doc
  {
    t => TweetExtractor(p, lower, t)
  }

  /** The bulk action of `run` for one parsed document. */
  function ToBulkDoc(d: Doc): BulkDoc
  {
    BulkDoc(EsIndex, DocType, d.idStr, d)
  }

  /** The first `n` records all decoded. */
  predicate Decoded(records: seq<Result<Tweet, Error>>, n: nat)
  {
    n <= |records| && forall j :: 0 <= j < n ==> records[j].Success?
  }

  /** The index of the first record that failed to decode, or the number of records. */
  function FirstFailure(records: seq<Result<Tweet, Error>>): (k: nat)
    ensures k <= |records|
    ensures Decoded(records, k)
    ensures k < |records| ==> records[k].Failure?
  {
    if records == [] || records[0].Failure? then 0 else 1 + FirstFailure(records[1..])
  }

  /** The documents extracted from the first `n` records, all of which decoded. */
  function ExtractPrefix(extract: Tweet -> Doc, records: seq<Result<Tweet, Error>>, n: nat): (docs: seq<Doc>)
    requires Decoded(records, n)
    ensures |docs| == n
  {
    if n == 0 then [] else ExtractPrefix(extract, records, n - 1) + [extract(records[n - 1].value)]
  }

  /** The `j`-th extracted document is the extraction of the `j`-th record: one per record, in order. */
  lemma {:induction false} ExtractPrefixAt(extract: Tweet -> Doc, records: seq<Result<Tweet, Error>>, n: nat, j: nat)
    requires Decoded(records, n)
    requires j < n
    ensures ExtractPrefix(extract, records, n)[j] == extract(records[j].value)
  {
    if j < n - 1 {
      ExtractPrefixAt(extract, records, n - 1, j);
    }
  }

  /** The bulk actions for a list of documents, in the same order. */
  function ToBulkDocs(docs: seq<Doc>): (actions: seq<BulkDoc>)
    ensures |actions| == |docs|
    ensures forall j :: 0 <= j < |docs| ==> actions[j] == ToBulkDoc(docs[j])
  {
    if docs == [] then [] else ToBulkDocs(docs[..|docs| - 1]) + [ToBulkDoc(docs[|docs| - 1])]
  }

  /** The documents `run` extracts before it stops: at the end, or at the first record that fails. */
  function RunDocs(extract: Tweet -> Doc, records: seq<Result<Tweet, Error>>): seq<Doc>
  {
    ExtractPrefix(extract, records, FirstFailure(records))
  }

  /**
   * What `run` returns for these records: the error of the first record
   * that fails to decode; otherwise, in upload mode, the sum of the success
   * counts of all bulk calls, and 0 in dry-run mode.
   */
  function RunOutcome(p: ESPipeline, extract: Tweet -> Doc, records: seq<Result<Tweet, Error>>, bulkSize: int): Result<nat, Error>
  {
    var k := FirstFailure(records);
    if k < |records| then Failure(records[k].error)
    else if p.upload then Success(SumOver(p.es, Batches(ToBulkDocs(RunDocs(extract, records)), bulkSize)))
    else Success(0)
  }

  /**
   * The batches `run` hands to the bulk helper: none in dry-run mode; the
   * chunks flushed inside the loop, plus the final flush when no record
   * failed.
   */
  function RunTrace(p: ESPipeline, extract: Tweet -> Doc, records: seq<Result<Tweet, Error>>, bulkSize: int): seq<seq<BulkDoc>>
  {
    var actions := ToBulkDocs(RunDocs(extract, records));
    if !p.upload then []
    else if FirstFailure(records) < |records| then FullChunks(actions, bulkSize)
    else Batches(actions, bulkSize)
  }

  /** The documents `run` prints: every extracted one in dry-run mode, none in upload mode. */
  function RunPrinted(p: ESPipeline, extract: Tweet -> Doc, records: seq<Result<Tweet, Error>>): seq<Doc>
  {
    if p.upload then [] else RunDocs(extract, records)
  }

  /**
   * `ESPipeline.run`: reads the object, splits its body into lines with
   * `json_parser` and processes them. `outcome` is the returned count or the
   * error raised, `sent` the batches passed to the bulk helper, in call
   * order, and `printed` the documents printed in dry-run mode.
   */
  method Run(p: ESPipeline, py: Python, bucket: string, key: string, bulkSize: int)
    returns (outcome: Result<nat, Error>, sent: seq<seq<BulkDoc>>, printed: seq<Doc>)
    ensures outcome == RunOutcome(p, Extractor(p, py.lower), JsonParser(py, p.s3(bucket, key)), bulkSize)
    ensures sent == RunTrace(p, Extractor(p, py.lower), JsonParser(py, p.s3(bucket, key)), bulkSize)
    ensures printed == RunPrinted(p, Extractor(p, py.lower), JsonParser(py, p.s3(bucket, key)))
  {
    var body := p.s3(bucket, key);
    outcome, sent, printed := ProcessLines(p, py.loads, Extractor(p, py.lower), Lines(body), bulkSize);
  }

  /**
   * The buffer step of the upload loop: append one action and, when the
   * buffer then holds `bulkSize` actions, send it, add the reported
   * successes to the count and empty the buffer.
   */
  method BufferAction(es: seq<BulkDoc> -> nat, sent: seq<seq<BulkDoc>>, tweets: seq<BulkDoc>, count: nat,
                      action: BulkDoc, bulkSize: int, ghost actions: seq<BulkDoc>)
    returns (sent': seq<seq<BulkDoc>>, tweets': seq<BulkDoc>, count': nat)
    requires sent == FullChunks(actions, bulkSize) && tweets == Remainder(actions, bulkSize)
    requires count == SumOver(es, sent)
    ensures sent' == FullChunks(actions + [action], bulkSize)
    ensures tweets' == Remainder(actions + [action], bulkSize)
    ensures count' == SumOver(es, sent')
    ensures bulkSize >= 1 ==> |tweets'| < bulkSize
  {
    AppendStep(actions, action, bulkSize);
    if bulkSize >= 1 {
      RemainderShape(actions + [action], bulkSize);
    }
    sent', tweets', count' := sent, tweets + [action], count;
    if |tweets'| == bulkSize {
      var success := es(tweets');
      assert (sent' + [tweets'])[..|sent'|] == sent';
      count' := count' + success;
      sent' := sent' + [tweets'];
      tweets' := [];
    }
  }

  /** The final flush of the `else` branch: the buffer is sent whatever its length. */
  method FinalFlush(es: seq<BulkDoc> -> nat, sent: seq<seq<BulkDoc>>, tweets: seq<BulkDoc>, count: nat)
    returns (sent': seq<seq<BulkDoc>>, count': nat)
    requires count == SumOver(es, sent)
    ensures sent' == sent + [tweets]
    ensures count' == SumOver(es, sent')
  {
    var success := es(tweets);
    assert (sent + [tweets])[..|sent|] == sent;
    count' := count + success;
    sent' := sent + [tweets];
  }

  lemma ExtractPrefixStep(extract: Tweet -> Doc, records: seq<Result<Tweet, Error>>, i: nat, t: Tweet)
    requires i < |records| && records[i] == Success(t)
    requires Decoded(records, i)
    ensures Decoded(records, i + 1)
    ensures ExtractPrefix(extract, records, i + 1) == ExtractPrefix(extract, records, i) + [extract(t)]
    ensures ToBulkDocs(ExtractPrefix(extract, records, i + 1))
            == ToBulkDocs(ExtractPrefix(extract, records, i)) + [ToBulkDoc(extract(t))]
  {
    var docs := ExtractPrefix(extract, records, i + 1);
    assert docs[..i] == ExtractPrefix(extract, records, i);
  }

  /**
   * The `for ... else` loop of `run` over the lines of the body: each line
   * is decoded when its turn comes, so the batches flushed before a line
   * that fails to decode have already been sent.
   */
  method ProcessLines(p: ESPipeline, loads: string -> Result<Tweet, Error>, extract: Tweet -> Doc,
                      lines: seq<string>, bulkSize: int)
    returns (outcome: Result<nat, Error>, sent: seq<seq<BulkDoc>>, printed: seq<Doc>)
    ensures outcome == RunOutcome(p, extract, DecodeEach(loads, lines), bulkSize)
    ensures sent == RunTrace(p, extract, DecodeEach(loads, lines), bulkSize)
    ensures printed == RunPrinted(p, extract, DecodeEach(loads, lines))
  {
    ghost var records := DecodeEach(loads, lines);
    ghost var actions: seq<BulkDoc> := [];
    var tweets: seq<BulkDoc> := [];
    var count: nat := 0;
    sent, printed := [], [];
    var i := 0;
    while i < |lines|
      invariant 0 <= i <= |lines| == |records|
      invariant Decoded(records, i)
      invariant p.upload ==> actions == ToBulkDocs(ExtractPrefix(extract, records, i))
      invariant p.upload ==> sent == FullChunks(actions, bulkSize) && tweets == Remainder(actions, bulkSize)
      invariant p.upload ==> printed == []
      invariant !p.upload ==> sent == [] && tweets == [] && printed == ExtractPrefix(extract, records, i)
      invariant count == SumOver(p.es, sent)
      invariant bulkSize >= 1 ==> |tweets| < bulkSize
    {
      var tweet := loads(lines[i]);
      if tweet.Failure? {
        assert FirstFailure(records) == i;
        outcome := Failure(tweet.error);
        return;
      }
      var parsedTweet := extract(tweet.value);
      ExtractPrefixStep(extract, records, i, tweet.value);
      if p.upload {
        var bulkDoc := ToBulkDoc(parsedTweet);
        sent, tweets, count := BufferAction(p.es, sent, tweets, count, bulkDoc, bulkSize, actions);
        actions := actions + [bulkDoc];
      } else {
        printed := printed + [parsedTweet];
      }
      i := i + 1;
    }
    assert FirstFailure(records) == |records|;
    if p.upload {
      sent, count := FinalFlush(p.es, sent, tweets, count);
    }
    outcome := Success(count);
  }

  /** The count `run` returns is the sum of the success counts of the batches it sent. */
  lemma RunCountIsSumOfSuccesses(p: ESPipeline, extract: Tweet -> Doc, records: seq<Result<Tweet, Error>>, bulkSize: int)
    requires RunOutcome(p, extract, records, bulkSize).Success?
    ensures RunOutcome(p, extract, records, bulkSize).value == SumOver(p.es, RunTrace(p, extract, records, bulkSize))
  {
  }

  /** In dry-run mode there is no bulk call, the count is 0, and every extracted document is printed. */
  lemma DryRun(p: ESPipeline, extract: Tweet -> Doc, records: seq<Result<Tweet, Error>>, bulkSize: int)
    requires !p.upload
    ensures RunTrace(p, extract, records, bulkSize) == []
    ensures RunOutcome(p, extract, records, bulkSize).Success? ==> RunOutcome(p, extract, records, bulkSize).value == 0
    ensures RunPrinted(p, extract, records) == RunDocs(extract, records)
  {
  }

  /**
   * In upload mode, when every record decodes, the batches sent concatenate
   * to one bulk action per record, in input order, each with the fixed
   * index and type and keyed by the document's `id_str`.
   */
  lemma UploadSendsEveryDocumentInOrder(p: ESPipeline, extract: Tweet -> Doc, records: seq<Result<Tweet, Error>>, bulkSize: int)
    requires p.upload
    requires RunOutcome(p, extract, records, bulkSize).Success?
    ensures var flat := Flatten(RunTrace(p, extract, records, bulkSize));
      && |flat| == |records|
      && forall j :: 0 <= j < |flat| ==>
           && flat[j].index == EsIndex && flat[j].docType == DocType
           && flat[j].source == extract(records[j].value)
           && flat[j].id == flat[j].source.idStr
  {
    FlattenBatches(ToBulkDocs(RunDocs(extract, records)), bulkSize);
    forall j | 0 <= j < |records|
      ensures RunDocs(extract, records)[j] == extract(records[j].value)
    {
      ExtractPrefixAt(extract, records, |records|, j);
    }
  }

  /**
   * In upload mode with a bulk size of at least 1, when every record
   * decodes: there are `n / bulkSize + 1` calls, each but the last with
   * exactly `bulkSize` actions, and the last (always made) with `n mod bulkSize`.
   */
  lemma UploadBatchSizes(p: ESPipeline, extract: Tweet -> Doc, records: seq<Result<Tweet, Error>>, bulkSize: int)
    requires p.upload && bulkSize >= 1
    requires RunOutcome(p, extract, records, bulkSize).Success?
    ensures var trace := RunTrace(p, extract, records, bulkSize);
      && |trace| == |records| / bulkSize + 1
      && (forall j :: 0 <= j < |trace| - 1 ==> |trace[j]| == bulkSize)
      && |trace[|trace| - 1]| == |records| % bulkSize
  {
    BatchShape(ToBulkDocs(RunDocs(extract, records)), bulkSize);
  }

  /** With a bulk size below 1 the loop never flushes and one final batch holds every action. */
  lemma UploadSingleBatchWhenSizeBelowOne(p: ESPipeline, extract: Tweet -> Doc, records: seq<Result<Tweet, Error>>, bulkSize: int)
    requires p.upload && bulkSize < 1
    requires RunOutcome(p, extract, records, bulkSize).Success?
    ensures RunTrace(p, extract, records, bulkSize) == [ToBulkDocs(RunDocs(extract, records))]
  {
  }

  /**
   * When a record fails to decode, only the full batches flushed before it
   * were sent: each holds exactly `bulkSize` actions, together they are a
   * prefix of the actions for the records before the failing one, and
   * fewer than `bulkSize` of those actions were never sent.
   */
  lemma FailureKeepsOnlyFlushedBatches(p: ESPipeline, extract: Tweet -> Doc, records: seq<Result<Tweet, Error>>, bulkSize: int)
    requires p.upload && bulkSize >= 1
    requires RunOutcome(p, extract, records, bulkSize).Failure?
    ensures var trace := RunTrace(p, extract, records, bulkSize);
      var actions := ToBulkDocs(RunDocs(extract, records));
      && (forall j :: 0 <= j < |trace| ==> |trace[j]| == bulkSize)
      && |Flatten(trace)| <= |actions|
      && Flatten(trace) == actions[..|Flatten(trace)|]
      && |actions| - |Flatten(trace)| < bulkSize
  {
    var actions := ToBulkDocs(RunDocs(extract, records));
    FullChunkShape(actions, bulkSize);
    ChunksThenRemainder(actions, bulkSize);
    RemainderShape(actions, bulkSize);
    var flat := Flatten(FullChunks(actions, bulkSize));
    assert actions == flat + Remainder(actions, bulkSize);
    assert actions[..|flat|] == flat;
  }

  /** Thirty decodable records at the default size of 25: two bulk calls, of 25 and 5 actions. */
  lemma ThirtyRecordsGiveTwoBatches(p: ESPipeline, extract: Tweet -> Doc, records: seq<Result<Tweet, Error>>)
    requires p.upload && |records| == 30
    requires RunOutcome(p, extract, records, DefaultBulkSize).Success?
    ensures var trace := RunTrace(p, extract, records, DefaultBulkSize);
      && |trace| == 2 && |trace[0]| == 25 && |trace[1]| == 5
      && RunOutcome(p, extract, records, DefaultBulkSize).value == p.es(trace[0]) + p.es(trace[1])
  {
    UploadBatchSizes(p, extract, records, DefaultBulkSize);
    RunCountIsSumOfSuccesses(p, extract, records, DefaultBulkSize);
    var trace := RunTrace(p, extract, records, DefaultBulkSize);
    assert trace[..1][..0] == [];
    assert SumOver(p.es, trace[..1]) == p.es(trace[0]);
    assert SumOver(p.es, trace) == SumOver(p.es, trace[..1]) + p.es(trace[1]);
  }

  /** If the bulk helper never reports more successes than actions, `run` counts at most one per record. */
  lemma RunCountAtMostRecords(p: ESPipeline, extract: Tweet -> Doc, records: seq<Result<Tweet, Error>>, bulkSize: int)
    requires forall b :: p.es(b) <= |b|
    requires RunOutcome(p, extract, records, bulkSize).Success?
    ensures RunOutcome(p, extract, records, bulkSize).value <= |records|
  {
    if p.upload {
      var actions := ToBulkDocs(RunDocs(extract, records));
      SumOverBounded(p.es, Batches(actions, bulkSize));
      FlattenBatches(actions, bulkSize);
    }
  }

  // ------------------------------------------------------------- lambda_handler

  datatype S3Record = S3Record(bucket: string, key: string)
  /** The notification event: its `Records` list, one object per entry. */
  datatype Event = Event(records: seq<S3Record>)

  /** What `run` returns for one notified object, with the default bulk size. */
  function RecordOutcome(p: ESPipeline, py: Python, record: S3Record): Result<nat, Error>
  {
    RunOutcome(p, Extractor(p, py.lower), JsonParser(py, p.s3(record.bucket, record.key)), DefaultBulkSize)
  }

  /** `RecordOutcome` as a function value, the way the handler's loop uses `run`. */
  function Runs(p: ESPipeline, py: Python): S3Record -> Result<nat, Error>
  {
    record => RecordOutcome(p, py, record)
  }

  /** One iteration of the handler's loop: `run` on one object; in dry-run mode its count is 0. */
  method RunRecord(p: ESPipeline, py: Python, record: S3Record) returns (total: Result<nat, Error>)
    ensures total == Runs(p, py)(record)
    ensures !p.upload && total.Success? ==> total.value == 0
  {
    var sent, printed;
    total, sent, printed := Run(p, py, record.bucket, record.key, DefaultBulkSize);
    if !p.upload {
      DryRun(p, Extractor(p, py.lower), JsonParser(py, p.s3(record.bucket, record.key)), DefaultBulkSize);
    }
  }

  /** In dry-run mode every run that completes returns 0. */
  lemma DryRunsReturnZero(p: ESPipeline, py: Python)
    requires !p.upload
    ensures forall record :: Runs(p, py)(record).Success? ==> Runs(p, py)(record).value == 0
  {
    forall record | Runs(p, py)(record).Success? ensures Runs(p, py)(record).value == 0 {
      DryRun(p, Extractor(p, py.lower), JsonParser(py, p.s3(record.bucket, record.key)), DefaultBulkSize);
    }
  }

  /**
   * What `lambda_handler` does with the notified objects, given what `run`
   * returns for each: the count of each run in order, up to the first run
   * that raises, and that run's error (`None` when every run completed).
   */
  function HandleRecords(run: S3Record -> Result<nat, Error>, records: seq<S3Record>): (seq<nat>, Option<Error>)
  {
    if records == [] then ([], None)
    else match run(records[0])
      case Failure(e) => ([], Some(e))
      case Success(n) =>
        var rest := HandleRecords(run, records[1..]);
        ([n] + rest.0, rest.1)
  }

  /**
   * The handler logs one count per run that completed, each the value that
   * run returned; it stops at the first run that raises, and it completes
   * exactly when every run did.
   */
  lemma {:induction false} HandlerFollowsRuns(run: S3Record -> Result<nat, Error>, records: seq<S3Record>)
    ensures var (totals, error) := HandleRecords(run, records);
      && |totals| <= |records|
      && (forall j :: 0 <= j < |totals| ==> run(records[j]) == Success(totals[j]))
      && (error.None? <==> |totals| == |records|)
      && (error.Some? ==> run(records[|totals|]) == Failure(error.value))
  {
    if records != [] && run(records[0]).Success? {
      HandlerFollowsRuns(run, records[1..]);
      var rest := HandleRecords(run, records[1..]);
      var totals := HandleRecords(run, records).0;
      assert totals == [run(records[0]).value] + rest.0;
      forall j | 1 <= j < |totals|
        ensures run(records[j]) == Success(totals[j])
      {
        assert records[j] == records[1..][j - 1];
      }
    }
  }

  /** After the first `i` objects the handler has logged `totals`, and the rest follow on from there. */
  predicate HandledSoFar(run: S3Record -> Result<nat, Error>, records: seq<S3Record>, i: nat, totals: seq<nat>)
  {
    && i <= |records|
    && HandleRecords(run, records).0 == totals + HandleRecords(run, records[i..]).0
    && HandleRecords(run, records).1 == HandleRecords(run, records[i..]).1
  }

  /** Before the loop nothing is logged. */
  lemma HandleStart(run: S3Record -> Result<nat, Error>, records: seq<S3Record>)
    ensures HandledSoFar(run, records, 0, [])
  {
    assert records[0..] == records;
  }

  /** A run that completes adds its count to the log, and the handler goes on with the next object. */
  lemma HandleAdvance(run: S3Record -> Result<nat, Error>, records: seq<S3Record>, i: nat, totals: seq<nat>)
    requires HandledSoFar(run, records, i, totals) && i < |records|
    requires run(records[i]).Success?
    ensures HandledSoFar(run, records, i + 1, totals + [run(records[i]).value])
  {
    assert records[i..][0] == records[i];
    assert records[i..][1..] == records[i + 1..];
  }

  /** A run that raises ends the handler with the counts logged so far and that run's error. */
  lemma HandleStop(run: S3Record -> Result<nat, Error>, records: seq<S3Record>, i: nat, totals: seq<nat>)
    requires HandledSoFar(run, records, i, totals) && i < |records|
    requires run(records[i]).Failure?
    ensures HandleRecords(run, records) == (totals, Some(run(records[i]).error))
  {
    assert records[i..][0] == records[i];
    assert totals + [] == totals;
  }

  /** Once every object has been run, the handler has logged every count and raised nothing. */
  lemma HandleDone(run: S3Record -> Result<nat, Error>, records: seq<S3Record>, totals: seq<nat>)
    requires HandledSoFar(run, records, |records|, totals)
    ensures HandleRecords(run, records) == (totals, None)
  {
    assert records[|records|..] == [];
    assert totals + [] == totals;
  }

  /** When every completed run returns 0, so does every count the handler logs. */
  lemma {:induction false} ZeroRunsLogZero(run: S3Record -> Result<nat, Error>, records: seq<S3Record>)
    requires forall record :: run(record).Success? ==> run(record).value == 0
    ensures forall j :: 0 <= j < |HandleRecords(run, records).0| ==> HandleRecords(run, records).0[j] == 0
  {
    if records != [] && run(records[0]).Success? {
      ZeroRunsLogZero(run, records[1..]);
    }
  }

  /** With the module's flags as they are, the handler never uploads, so every count it logs is 0. */
  lemma HandlerLogsZero(py: Python, svc: Services, records: seq<S3Record>)
    ensures var totals := HandleRecords(Runs(NewPipeline(GlobalUpload, GlobalGetSentiment, svc), py), records).0;
      forall j :: 0 <= j < |totals| ==> totals[j] == 0
  {
    var p := NewPipeline(GlobalUpload, GlobalGetSentiment, svc);
    DryRunsReturnZero(p, py);
    ZeroRunsLogZero(Runs(p, py), records);
  }

  /**
   * The loop of `lambda_handler`: `run` on each notified object in order,
   * logging each count, until a run raises. `error` is what that run
   * raised, or `None` when every run completed.
   */
  method RunEach(p: ESPipeline, py: Python, records: seq<S3Record>) returns (totals: seq<nat>, error: Option<Error>)
    ensures (totals, error) == HandleRecords(Runs(p, py), records)
  {
    ghost var run := Runs(p, py);
    totals := [];
    HandleStart(run, records);
    var i := 0;
    while i < |records|
      invariant HandledSoFar(run, records, i, totals)
    {
      var total := RunRecord(p, py, records[i]);
      if total.Failure? {
        HandleStop(run, records, i, totals);
        return totals, Some(total.error);
      }
      HandleAdvance(run, records, i, totals);
      totals := totals + [total.value];
      i := i + 1;
    }
    HandleDone(run, records, totals);
    error := None;
  }

  /**
   * `lambda_handler`: builds the pipeline from the module flags, runs it on
   * every notified object in order with the default bulk size, and returns
   * the event unchanged; an error in one run stops the handler there.
   * `totals` holds the count logged for each completed run.
   */
  method LambdaHandler(event: Event, py: Python, svc: Services) returns (outcome: Result<Event, Error>, totals: seq<nat>)
    ensures var (expected, error) := HandleRecords(Runs(NewPipeline(GlobalUpload, GlobalGetSentiment, svc), py), event.records);
      && totals == expected
      && outcome == if error.None? then Success(event) else Failure(error.value)
  {
    var pipeline := NewPipeline(GlobalUpload, GlobalGetSentiment, svc);
    var error;
    totals, error := RunEach(pipeline, py, event.records);
    outcome := if error.None? then Success(event) else Failure(error.value);
  }
}
