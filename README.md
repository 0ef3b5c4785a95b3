# Tweet indexing Lambda: a Dafny model

This project models the batch step of the Elasticsearch demo Lambda
(`lambda_functions/demo-lambda-es/lambda_function.py`). The step reads an S3
object of newline-delimited tweets and decodes it line by line
(`ESPipeline.json_parser`). It flattens each tweet into a search document
(`ESPipeline.tweet_extractor`) and can attach a filtered sentiment block
(`ESPipeline.get_sentiment`). It then sends the documents to the bulk helper
in chunks of `bulk_size` and adds up the success counts it reports
(`ESPipeline.run`), or prints them in dry-run mode. `lambda_handler` runs the
pipeline on every object of an S3 notification event and returns the event
unchanged.

The project has four modules:

- `Wrappers` (`wrappers.dfy`): `Option` and `Result`.
- `PythonStr` (`python_str.dfy`): the Python string operations the code relies on.
  - `str.strip()` with Python's `str.isspace()` character set.
  - `str.split('\n')` and its inverse `'\n'.join`.
  - The reversing slice `[::-1]`.
- `Batching` (`batching.dfy`): how a list of bulk actions is cut into the batches the upload loop sends. These are the full chunks of `bulk_size` flushed inside the loop, plus the final remainder.
- `LambdaFunction` (`lambda_function.dfy`): the tweet record, the document and bulk action types, the pipeline, and the four operations plus the handler.

The services the code talks to are parameters of the model:

- The S3 body of a (bucket, key) object.
- The success count the bulk helper returns for a batch.
- The Comprehend sentiment response for a text.
- `json.loads`, read into a tweet record or an error.
- Python's `str.lower`.

An `ESPipeline` is a datatype. `__init__` fixes its fields and nothing later updates them.

`run` is a method with a loop. It is proved against closed-form functions of the decoded records:

- `RunOutcome`: the returned count or the raised error.
- `RunTrace`: the batches handed to the bulk helper, in call order.
- `RunPrinted`: what is printed in dry-run mode.

The lemmas about these functions state what the loop promises. The loop of `lambda_handler` (`RunEach`) is proved against `HandleRecords`, a recursive function over the event's records.

How the code differs from a first reading of it, and what the model follows:

- Hashtags and mentions are lists that keep order and duplicates, not sets.
- The text is replaced only when `extended_tweet.full_text` is truthy, meaning present and non-empty.
- The final flush in the `for ... else` branch always happens, even with an empty buffer. Thirty documents at size 25 therefore give two calls (25 and 5), and fifty give three (25, 25 and 0).
- `json_parser` is a generator, so each line is decoded only when the loop reaches it. A line that fails to decode stops `run` after the batches already flushed, and no final flush happens.
- A `bulk_size` below 1 never equals the buffer length after an append. In that case all actions go out in the single final flush.
- `lambda_handler` passes the module-level values `upload = False` and `get_sentiment = False` (lines 23-24). As written, every run is a dry run and every logged total is 0.
- An empty or blank body still yields one record, the decoding of the empty string, because `''.split('\n') == ['']`.

## Model

| member | source | states |
|---|---|---|
| `LambdaFunction.NewPipeline` | lambda_functions/demo-lambda-es/lambda_function.py:59-82 | the pipeline keeps the upload flag it is given and has a sentiment client exactly when sentiment is requested |
| `PythonStr.TrimStart` | lambda_functions/demo-lambda-es/lambda_function.py:91 | the leading part `lstrip` drops is all whitespace, and what is kept does not start with whitespace |
| `PythonStr.TrimEnd` | lambda_functions/demo-lambda-es/lambda_function.py:91 | the trailing part `rstrip` drops is all whitespace, and what is kept does not end with whitespace |
| `PythonStr.TrimStartIsSuffix` | lambda_functions/demo-lambda-es/lambda_function.py:91 | what `lstrip` keeps is a suffix of the input |
| `PythonStr.TrimEndIsPrefix` | lambda_functions/demo-lambda-es/lambda_function.py:91 | what `rstrip` keeps is a prefix of the input |
| `PythonStr.Strip` | lambda_functions/demo-lambda-es/lambda_function.py:91 | `str.strip()` is `rstrip` after `lstrip`. StripIsMaximalSlice, StripAllSpace and StripIdempotent state its properties |
| `PythonStr.StripIsMaximalSlice` | lambda_functions/demo-lambda-es/lambda_function.py:91 | `strip()` returns a contiguous slice of the input. Everything dropped on either side is whitespace, and the result neither starts nor ends with whitespace |
| `PythonStr.StripAllSpace` | lambda_functions/demo-lambda-es/lambda_function.py:91 | a string made only of whitespace strips to the empty string |
| `PythonStr.StripIdempotent` | lambda_functions/demo-lambda-es/lambda_function.py:91 | stripping twice gives the same result as stripping once |
| `PythonStr.IndexOf` | lambda_functions/demo-lambda-es/lambda_function.py:91 | the index of the first separator, or the length when there is none. No earlier character is the separator |
| `PythonStr.Split` | lambda_functions/demo-lambda-es/lambda_function.py:91 | `split(sep)` gives at least one part, no part contains the separator, and joining the parts with the separator gives back the input |
| `PythonStr.CountConcat` | lambda_functions/demo-lambda-es/lambda_function.py:91 | counting a character is additive over concatenation |
| `PythonStr.CountAbsent` | lambda_functions/demo-lambda-es/lambda_function.py:91 | a character that does not occur has count 0 |
| `PythonStr.SplitCount` | lambda_functions/demo-lambda-es/lambda_function.py:91 | the number of parts is one more than the number of separators |
| `PythonStr.SplitJoin` | lambda_functions/demo-lambda-es/lambda_function.py:91 | splitting the join of separator-free parts gives back exactly those parts (round trip) |
| `PythonStr.Reverse` | lambda_functions/demo-lambda-es/lambda_function.py:121 | `[::-1]` keeps the length and puts element `k` at position `n - 1 - k` |
| `PythonStr.ReverseInvolution` | lambda_functions/demo-lambda-es/lambda_function.py:121 | reversing twice gives back the input |
| `LambdaFunction.Lines` | lambda_functions/demo-lambda-es/lambda_function.py:91 | the stripped body cut at newlines: one line more than there are newlines, no line holds a newline, and joining the lines with newlines gives back the stripped body |
| `LambdaFunction.DecodeEach` | lambda_functions/demo-lambda-es/lambda_function.py:91-92 | one decoded record per line, in order, each the decoding of its own line |
| `LambdaFunction.JsonParser` | lambda_functions/demo-lambda-es/lambda_function.py:84-92 | one record per newline-separated line of the stripped body, in input order, each line decoded independently |
| `LambdaFunction.JsonParserOfJoinedLines` | lambda_functions/demo-lambda-es/lambda_function.py:91-92 | a body made of newline-free lines with no surrounding whitespace parses back to exactly the decodings of those lines |
| `LambdaFunction.BlankBodyYieldsOneRecord` | lambda_functions/demo-lambda-es/lambda_function.py:91-92 | an empty or blank body yields exactly one record, `loads("")` |
| `LambdaFunction.KeepSentimentKeys` | lambda_functions/demo-lambda-es/lambda_function.py:103 | the result's keys are the response's keys that are `Sentiment` or `SentimentScore`, with the response's values |
| `LambdaFunction.GetSentiment` | lambda_functions/demo-lambda-es/lambda_function.py:94-105 | `{}` without a client. With one, the detected response filtered to the two sentiment keys. The keys are always among those two |
| `LambdaFunction.LowerHashtags` | lambda_functions/demo-lambda-es/lambda_function.py:109 | same length and order as the hashtag entities, each element the lowercase of its `text` |
| `LambdaFunction.LowerMentions` | lambda_functions/demo-lambda-es/lambda_function.py:110 | same length and order as the mention entities, each element the lowercase of its `screen_name` |
| `LambdaFunction.BaseDoc` | lambda_functions/demo-lambda-es/lambda_function.py:109-118 | the document before the optional keys: the copied fields and the lowercased canonical lists, as ExtractorCopiesFields and ExtractorTags state for the finished document |
| `LambdaFunction.AddCoordinates` | lambda_functions/demo-lambda-es/lambda_function.py:120-121 | the geo step changes no key other than `coordinates` |
| `LambdaFunction.AddCity` | lambda_functions/demo-lambda-es/lambda_function.py:123-124 | the place step changes no key other than `city` |
| `LambdaFunction.ApplyExtended` | lambda_functions/demo-lambda-es/lambda_function.py:126-136 | the extended step leaves the id, timestamps, user, coordinates, city and sentiment unchanged |
| `LambdaFunction.AddSentiment` | lambda_functions/demo-lambda-es/lambda_function.py:138-139 | the sentiment step changes no key other than `sentiment` |
| `LambdaFunction.TweetExtractor` | lambda_functions/demo-lambda-es/lambda_function.py:107-141 | the four steps in the order the code applies them. Its contract is stated by ExtractorCopiesFields, ExtractorText, ExtractorTags, ExtractorGeoAndCity and ExtractorSentiment |
| `LambdaFunction.ExtractorCopiesFields` | lambda_functions/demo-lambda-es/lambda_function.py:112-118 | `id_str`, `created_at`, `timestamp_ms` and `user` (from `user.screen_name`) are copied unchanged |
| `LambdaFunction.ExtractorText` | lambda_functions/demo-lambda-es/lambda_function.py:115-129 | the text is the extended full text when that is truthy, otherwise the canonical text |
| `LambdaFunction.ExtractorTags` | lambda_functions/demo-lambda-es/lambda_function.py:109-136 | hashtags and mentions come from the extended lists when those are non-empty, otherwise from the canonical lists. Either way they have the source list's length and order, each element lowercased |
| `LambdaFunction.ExtractorGeoAndCity` | lambda_functions/demo-lambda-es/lambda_function.py:120-124 | coordinates are present iff `geo` is, and are its reversed coordinate list. The city is present iff the place has type `city`, and then holds its `full_name`, which is null when that key is missing |
| `LambdaFunction.ExtractorSentiment` | lambda_functions/demo-lambda-es/lambda_function.py:138-139 | the sentiment key is present iff there is a sentiment client, and then holds `get_sentiment` of the final text |
| `LambdaFunction.GeoPairIsSwapped` | lambda_functions/demo-lambda-es/lambda_function.py:121 | a `[lon, lat]` pair comes out as `[lat, lon]` |
| `LambdaFunction.GeoExample` | lambda_functions/demo-lambda-es/lambda_function.py:121 | `[-73.9, 40.7]` becomes `[40.7, -73.9]` |
| `LambdaFunction.CityWithoutFullNameIsNull` | lambda_functions/demo-lambda-es/lambda_function.py:123-124 | a city place without `full_name` gives a `city` key holding null, not an error |
| `LambdaFunction.ExtendedTextWithoutHashtags` | lambda_functions/demo-lambda-es/lambda_function.py:126-132 | an extended block with full text and no hashtags replaces the text and keeps the canonical hashtags |
| `LambdaFunction.NoSentimentKeyWhenDisabled` | lambda_functions/demo-lambda-es/lambda_function.py:138-139 | with sentiment disabled the document has no sentiment key at all |
| `LambdaFunction.FieldsAreIndependent` | lambda_functions/demo-lambda-es/lambda_function.py:119-136 | the geo, place and extended handling each depend only on their own input fields |
| `LambdaFunction.TagsAreLowercase` | lambda_functions/demo-lambda-es/lambda_function.py:109-134 | for an idempotent `lower`, every hashtag and mention in the document is already lowercase |
| `LambdaFunction.FirstFailure` | lambda_functions/demo-lambda-es/lambda_function.py:147 | every record before the returned index decoded, and the record at that index (if any) failed |
| `LambdaFunction.ExtractPrefix` | lambda_functions/demo-lambda-es/lambda_function.py:147-148 | one extracted document per decoded record of the prefix |
| `LambdaFunction.ExtractPrefixAt` | lambda_functions/demo-lambda-es/lambda_function.py:147-148 | document `j` is the extraction of record `j`: input order is kept |
| `LambdaFunction.ToBulkDocs` | lambda_functions/demo-lambda-es/lambda_function.py:150-155 | one bulk action per document, in the same order |
| `LambdaFunction.ToBulkDoc` | lambda_functions/demo-lambda-es/lambda_function.py:150-155 | the action for one document: index `tweet-index`, type `tweet-type`, the document's `id_str` as id and the document as source, as UploadSendsEveryDocumentInOrder states |
| `LambdaFunction.ExtractPrefixStep` | lambda_functions/demo-lambda-es/lambda_function.py:147-156 | one more decoded record appends exactly its document and its bulk action |
| `Batching.FlattenAppend` | lambda_functions/demo-lambda-es/lambda_function.py:158 | appending one batch to the trace appends its items to the concatenation of all batches |
| `Batching.FullChunks` | lambda_functions/demo-lambda-es/lambda_function.py:156-161 | the batches flushed inside the loop. FullChunkShape states their number and size, ChunksThenRemainder and AppendStep how they follow the actions |
| `Batching.Remainder` | lambda_functions/demo-lambda-es/lambda_function.py:156-161 | the buffer left after the loop. RemainderShape states its length, ChunksThenRemainder that it is the tail of the actions |
| `Batching.Batches` | lambda_functions/demo-lambda-es/lambda_function.py:156-168 | every batch sent, the final flush last. BatchShape states their number and sizes, FlattenBatches that they concatenate to the actions |
| `Batching.AppendStep` | lambda_functions/demo-lambda-es/lambda_function.py:156-161 | appending one action either fills the buffer, which then becomes one more full chunk and is emptied, or just extends the buffer |
| `Batching.ChunksThenRemainder` | lambda_functions/demo-lambda-es/lambda_function.py:156-161 | the flushed chunks followed by the buffer are all actions, in order |
| `Batching.FlattenBatches` | lambda_functions/demo-lambda-es/lambda_function.py:156-168 | the concatenation of every batch sent, the final flush last, is all actions in input order |
| `Batching.FullChunkShape` | lambda_functions/demo-lambda-es/lambda_function.py:157-161 | there are `n / bulk_size` full chunks, each of exactly `bulk_size` actions |
| `Batching.RemainderShape` | lambda_functions/demo-lambda-es/lambda_function.py:157-161 | the buffer left at the end holds `n mod bulk_size` actions, fewer than `bulk_size` |
| `Batching.BatchShape` | lambda_functions/demo-lambda-es/lambda_function.py:157-168 | `n / bulk_size + 1` batches, all but the last of size `bulk_size`, the last of size `n mod bulk_size` |
| `Batching.SingleBatchWhenSizeBelowOne` | lambda_functions/demo-lambda-es/lambda_function.py:157-166 | with a size below 1 the final flush is the only batch and holds every action |
| `Batching.SumOverBounded` | lambda_functions/demo-lambda-es/lambda_function.py:158-167 | if no bulk call reports more successes than it has actions, the summed count is at most the number of actions sent |
| `LambdaFunction.BufferAction` | lambda_functions/demo-lambda-es/lambda_function.py:156-161 | after an append the sent batches and the buffer are the full chunks and the remainder of the longer action list. The count is the sum of the reported successes, and the buffer holds fewer than `bulk_size` actions |
| `LambdaFunction.FinalFlush` | lambda_functions/demo-lambda-es/lambda_function.py:164-168 | the buffer is sent whatever its length, and its success count is added |
| `LambdaFunction.ProcessLines` | lambda_functions/demo-lambda-es/lambda_function.py:144-169 | the loop's count or error, its bulk calls and its printed documents are `RunOutcome`, `RunTrace` and `RunPrinted` of the decoded lines |
| `LambdaFunction.Run` | lambda_functions/demo-lambda-es/lambda_function.py:143-169 | `run` on a (bucket, key) object sends, prints and returns what `RunTrace`, `RunPrinted` and `RunOutcome` give for the parsed body |
| `LambdaFunction.RunCountIsSumOfSuccesses` | lambda_functions/demo-lambda-es/lambda_function.py:145-169 | the returned count is the sum of the success counts of every bulk call made |
| `LambdaFunction.DryRun` | lambda_functions/demo-lambda-es/lambda_function.py:149-169 | in dry-run mode there is no bulk call, the count is 0, and every extracted document is printed |
| `LambdaFunction.UploadSendsEveryDocumentInOrder` | lambda_functions/demo-lambda-es/lambda_function.py:150-168 | the batches sent concatenate to one action per record, in input order. Each action carries index `tweet-index`, type `tweet-type`, the document's `id_str` as id and the document as source |
| `LambdaFunction.UploadBatchSizes` | lambda_functions/demo-lambda-es/lambda_function.py:157-168 | with `bulk_size >= 1` there are `n / bulk_size + 1` calls. Each but the last has exactly `bulk_size` actions, and the always-made last call has `n mod bulk_size` |
| `LambdaFunction.UploadSingleBatchWhenSizeBelowOne` | lambda_functions/demo-lambda-es/lambda_function.py:157-168 | with `bulk_size < 1` there is exactly one call, holding every action |
| `LambdaFunction.FailureKeepsOnlyFlushedBatches` | lambda_functions/demo-lambda-es/lambda_function.py:147-161 | when a line fails to decode, only full batches were sent. Together they are a prefix of the actions before that line, with fewer than `bulk_size` actions left unsent |
| `LambdaFunction.ThirtyRecordsGiveTwoBatches` | lambda_functions/demo-lambda-es/lambda_function.py:143-169 | thirty records at the default size 25 give two calls, of 25 and 5 actions, and the count is the sum of their successes |
| `LambdaFunction.RunCountAtMostRecords` | lambda_functions/demo-lambda-es/lambda_function.py:158-169 | if the bulk helper never reports more successes than actions, the count is at most the number of records |
| `LambdaFunction.RunRecord` | lambda_functions/demo-lambda-es/lambda_function.py:175-177 | one handler iteration returns `run`'s outcome for that object, which is 0 in dry-run mode |
| `LambdaFunction.DryRunsReturnZero` | lambda_functions/demo-lambda-es/lambda_function.py:165-169 | in dry-run mode every run that completes returns 0 |
| `LambdaFunction.HandleRecords` | lambda_functions/demo-lambda-es/lambda_function.py:174-178 | the counts logged and the error raised for a list of records. HandlerFollowsRuns states one count per completed run, the stop at the first raise and completion exactly when every run completes |
| `LambdaFunction.HandlerFollowsRuns` | lambda_functions/demo-lambda-es/lambda_function.py:174-178 | the handler logs one count per completed run, each the value that run returned. It stops at the first run that raises, carrying its error, and completes exactly when all runs did |
| `LambdaFunction.HandleAdvance` | lambda_functions/demo-lambda-es/lambda_function.py:174-178 | a run that completes adds its count to the log, and the handler goes on with the next object |
| `LambdaFunction.HandleStop` | lambda_functions/demo-lambda-es/lambda_function.py:174-177 | a run that raises ends the handler with the counts logged so far and that run's error |
| `LambdaFunction.RunEach` | lambda_functions/demo-lambda-es/lambda_function.py:174-178 | the handler's loop logs the counts and stops at the error that `HandleRecords` gives for the event's records |
| `LambdaFunction.ZeroRunsLogZero` | lambda_functions/demo-lambda-es/lambda_function.py:177-178 | when every completed run returns 0, every logged count is 0 |
| `LambdaFunction.HandlerLogsZero` | lambda_functions/demo-lambda-es/lambda_function.py:173-178 | with the module flags as written, every total the handler logs is 0 |
| `LambdaFunction.LambdaHandler` | lambda_functions/demo-lambda-es/lambda_function.py:172-179 | the handler's logged totals are those of `HandleRecords`. It returns the event unchanged when every run completes, and otherwise the first error raised |

## Left out

- S3 `get_object`, the UTF-8 decoding of the body, the Elasticsearch client and its SigV4 authentication, the `mapping` literal, and the index existence check and creation (lines 30-72 and 74-77) are not modelled. They are calls into services; the body is a parameter of the pipeline. The creation step does not affect what `run` returns. The index and type names (lines 28-29) and the choice of clients (lines 73 and 79-82) are modelled.
- The Comprehend call and the internals of the `bulk` helper are parameters. The model keeps only the key filter and the success count.
- An exception raised inside `bulk` (lines 158 and 166) is not modelled: `es` always returns a count.
- GetSentiment: an exception raised by `detect_sentiment` (line 102) is not modelled. In Python it aborts `run` at that record, after the batches already flushed; in the model `comprehend` always returns a response.
- `json.loads` is a parameter that returns a tweet record or an error, and its internals are not modelled. When a tweet lacks a key that `tweet_extractor` reads with `[...]` (lines 109-118, 127-134), Python raises `KeyError` there; the model folds that into the error of `loads` for that line, with the same effect on `run`.
- TweetExtractor: a `geo` object without `coordinates` makes line 121 raise a `TypeError` (`None[::-1]`). A `Geo` always carries its coordinate list, so that input is not representable; it too would abort `run` at that record. The inner keys of `place` never raise: a missing `place_type` or `full_name` reads as null (lines 123-124), and the model keeps that.
- LambdaHandler: an event without `Records`, or a record without `s3.bucket.name` or `s3.object.key`, makes lines 174-176 raise `KeyError`. `Event` and `S3Record` always carry those keys, so that case is not representable.
- What `.lower()` does to each character is not modelled; `lower` is a parameter.
- Logging is not modelled. The handler's logged totals are returned as a sequence, and `print` is modelled as the sequence of printed documents.
- The handler's `context` argument, the environment-variable configuration and the log level (lines 11-22) are not modelled.
- `tweet_stream_firehose.py` and `tweet_stream_listener.py` are not part of this model. They stream tweets into Firehose and hold no indexing logic.
- Overwriting a document with the same `_id` happens inside the search index, not in this code, and is not modelled.
