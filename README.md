# torequests in Dafny

This project models the decision logic of the Python package `torequests`. The package wraps `requests` and `aiohttp` with thread pools, an asyncio loop, retries, per-host rate limiting, parser chains and request-cleaning crawlers. The model keeps what those layers decide and leaves the I/O they perform to the caller: HTTP calls, clocks, locks and foreign libraries become parameters or oracles.

One Dafny module covers each core source file:

- `Utils` (utils.py): `slice_by_size`, `slice_into_pieces`, `itertools_chain`, the timestamp normalisation of `ttime`, `Curl.parse` after tokenisation, `Null` and the old `FailureException`.
- `Parsers` (parsers.py): `get_one`, `ensure_list`, `const_parser`, the JSON-path normaliser, the html/xml method check and the `1-1 / 1-n / n-1 / n-n` chaining rule of `SimpleParser.parse`.
- `Exceptions` (exceptions.py): the falsy, non-callable `CommonException` and the idempotent `FailureException`.
- `SyncTools` and `AsyncTools` (frequency_controller/): the `Frequency` and `AsyncFrequency` controllers as classes.
  - Their slot list is an array updated in place.
  - Both share `FrequencyRules`, a reference definition of the round-robin grant schedule on an abstract integer clock.
- `Py3Patch` (_py3_patch.py): the synchronous `retry` decorator and the `NewResponse` predicates and encoding cache.
- `MainPool` (main.py): the timeout-return policy of `NewFuture.x`, `Pool.submit` after shutdown, and `tPool`'s retry with `fail_return`.
- `Dummy` (dummy.py), covering the asyncio layer:
  - `NewTask`'s callback result;
  - `Loop.todo_tasks`/`done_tasks`;
  - for `Requests`: keyword normalisation, frequency choice, the frequency table, retry with the failure value, and `close`.
- `AiohttpDummy` (aiohttp_dummy.py): the lite `Requests`, covering validator-driven retry, callbacks, `head` and `closed`/`close`.
- `Crawlers` (crawlers.py):
  - `CleanRequest`: leave-one-out candidates, the `ignore` lists and the rebuilt request;
  - `StressTest`'s counters and shutdown decision;
  - `Seed`'s checks.

Shared support modules:

- `PyValues`: Python values, exceptions, truthiness and `str` helpers.
- `Dicts`: insertion-ordered dicts as association lists.
- `Attempts`: a reference definition, `Run`, of the bounded "try, catch listed errors, try again" loop that four source files repeat. Each source loop is a method proved equal to it.

An attempt is an oracle `calls: nat -> Outcome`, where the i-th attempt returns a value or raises. Time is an integer clock, and a sleep is exact. A server is a function from request to response fingerprint.

## Model

| member | source | states |
|---|---|---|
| Utils.Chain | torequests/utils.py:177-181 | the nested generator loops yield exactly the concatenation of the iterables, in order |
| Utils.FlattenAppend | torequests/utils.py:177-181 | chaining two lists of iterables is chaining each and concatenating |
| Utils.SliceBySize | torequests/utils.py:195-202 | the zip-with-filler loop yields exactly the reference chunks `Chunks(s, size)`, each with its `null` items removed and the chunks left empty dropped |
| Utils.KeptChunks | torequests/utils.py:195-202 | with no `null` item in the input, the chunks are yielded unchanged |
| Utils.SliceBySizeItems | torequests/utils.py:195-202 | the yielded chunks hold exactly the input's non-`null` items, in order |
| Utils.ChunksFlatten | torequests/utils.py:195-202 | the chunks concatenate back to the input |
| Utils.ChunksShape | torequests/utils.py:195-202 | no chunk is empty, every chunk but the last has exactly `size` items, the last holds the rest |
| Utils.ChunksCount | torequests/utils.py:195-202 | there are ceil(len/size) chunks |
| Utils.PieceOfPadded | torequests/utils.py:198-200 | one zipped tuple with the filler removed is the slice from its position, cut at the end of the input, without its `null` items |
| Utils.SliceStep | torequests/utils.py:198-202 | one loop pass appends the `null`-free tuple exactly when it is non-empty |
| Utils.FloorMod | torequests/utils.py:187-190 | Python's `%` and `//`: the remainder takes the divisor's sign and `a == (a // b) * b + a % b` |
| Utils.SliceIntoPieces | torequests/utils.py:184-192 | n == 0 is a ZeroDivisionError; otherwise the chunks of size ceil(len/n), `null` items removed |
| Utils.PieceSizeCovers | torequests/utils.py:186-190 | for n > 0 and a non-empty input, the piece size is at least 1 and n pieces of it cover the input |
| Utils.PiecesBound | torequests/utils.py:184-192 | for n > 0 there are at most n pieces, and they concatenate back to the input |
| Utils.NegativePieces | torequests/utils.py:184-192 | a negative n yields no piece at all |
| Utils.TenIntoThree | torequests/utils.py:184-192 | range(10) into 3 gives pieces of 4, 4 and 2 items |
| Utils.ParseInt | torequests/utils.py:218 | `int(text)` fails only with ValueError, and succeeds only on an optionally signed run of digits with single `_` separators, after stripping Unicode whitespace |
| Utils.ParseGrouped | torequests/utils.py:218 | a digit run with single `_` separators reads as its digits without the underscores |
| Utils.UnderscoreIgnored | torequests/utils.py:218 | inserting one `_` between two digit groups does not change the value `int` gives |
| Utils.ParseDigits | torequests/utils.py:218 | `int(str(n)) == n` for a natural number |
| Utils.ShortTimestamp | torequests/utils.py:217-218 | a timestamp of at most 10 digits, with or without a fraction, keeps its whole seconds |
| Utils.MillisecondSeconds | torequests/utils.py:218 | a 13-digit millisecond timestamp truncates to its seconds value (m // 1000) |
| Utils.SameSeconds | torequests/utils.py:216-223 | `ttime` depends on the timestamp only through the whole seconds it keeps |
| Utils.MillisecondTimestamp | torequests/utils.py:216-223 | `ttime` formats a millisecond timestamp exactly as its seconds value |
| Utils.TimestampSeconds | torequests/utils.py:217 | the conversion fails only with ValueError; a digit run before the first '.' gives the value of its first ten digits |
| Utils.FormatSeconds | torequests/utils.py:218-223 | a conversion error escapes the `try`; otherwise the formatted local time when `strftime` succeeds, and `fail` exactly when it fails |
| Utils.Ttime | torequests/utils.py:205-223 | fails (ValueError) exactly when the timestamp does not convert; otherwise the local time of the seconds shifted by `time.timezone + tzone * 3600` (tzone defaulting to 8) when `strftime` succeeds, and `fail` when it fails |
| Utils.SplitOnce | torequests/utils.py:113 | `split(c, 1)`: the text before the first separator and the rest, which is absent exactly when there is no separator |
| Utils.HeaderPairs | torequests/utils.py:112-114 | one (key, value stripped of Unicode whitespace) pair per header, in order |
| Utils.HeaderFoldSpec | torequests/utils.py:112-114 | the header loop fails (ValueError) exactly when some header lacks ':'; otherwise it builds the dict of the pairs |
| Utils.HeaderFoldStop | torequests/utils.py:112-114 | once a header fails to unpack, later headers change nothing |
| Utils.ParseHeaders | torequests/utils.py:112-114 | the header loop as a method: fails exactly when a header lacks ':', else the dict of the pairs |
| Utils.HeadersLastWins | torequests/utils.py:112-114 | a repeated header key keeps the stripped value of its last occurrence |
| Utils.Auth | torequests/utils.py:121-123 | a user string becomes (user, password) split at the first ':', the password defaulting to '' |
| Utils.FormField | torequests/utils.py:130 | a field parses exactly when it contains '='; its key is the text before the first '=' and its value the unquoted text up to the second |
| Utils.FormFieldList | torequests/utils.py:130-131 | every '&'-separated item is parsed in order; the list fails exactly when one item lacks '=' |
| Utils.FormData | torequests/utils.py:129-132 | the form body fails (IndexError) exactly when some item lacks '=' |
| Utils.FormFieldErr | torequests/utils.py:130 | an item without '=' raises IndexError |
| Utils.FormDataGet | torequests/utils.py:129-132 | each key of a well-formed form maps to the unquoted value of its last field |
| Utils.SubstringAt | torequests/utils.py:133 | a string occurring at some index is a substring |
| Utils.JsonTestAsWritten | torequests/utils.py:133 | `x in ('application/json')` raises TypeError exactly when no Content-Type is given, and is otherwise a substring test |
| Utils.CurlDataWithoutContentType | torequests/utils.py:126-137 | as written, `-d` without a Content-Type raises TypeError; the corrected branch encodes the data |
| Utils.CurlJsonSubstring | torequests/utils.py:133-134 | as written, a Content-Type of 'json' is parsed as JSON; the corrected branch encodes it as bytes |
| Utils.DataBodyAsWritten | torequests/utils.py:127-137 | as written: no Content-Type raises TypeError, and a JSON body is chosen for any Content-Type that is part of 'application/json' |
| Utils.DataBody | torequests/utils.py:127-137 | corrected: a form, JSON or bytes body carries exactly what the form parser, the decoder or the encoder gave, and an error is one of theirs |
| Utils.DataBodyAgrees | torequests/utils.py:130-137 | the two agree whenever the Content-Type is 'application/json' or no part of it |
| Utils.BodyKind | torequests/utils.py:127-137 | corrected: form data exactly for the form type, JSON exactly for 'application/json', bytes otherwise |
| Utils.CurlData | torequests/utils.py:126-127 | `data or data_binary`, present exactly when one of them is non-empty |
| Utils.WithAgent | torequests/utils.py:115-116 | `-A` sets User-Agent, overriding a header of that name; other headers are untouched |
| Utils.HeadersPresent | torequests/utils.py:117-118 | with at least one header or a user agent, the `headers` key is present |
| Utils.CurlVerb | torequests/utils.py:119-138 | data makes it 'post', otherwise `-I` makes it 'head', otherwise the `-X` method; always lower-case |
| Utils.Parse | torequests/utils.py:105-139 | the whole request dict: url, headers present only when non-empty, auth, body and method, and a ValueError for a header without ':'; the body uses the corrected data branch (see Findings) |
| Utils.Apply | torequests/utils.py:150-163 | any call or attribute/item access on `null` gives `null` |
| Utils.ObjStr | torequests/utils.py:165-169 | `null` prints as "" |
| Utils.NullAbsorbs | torequests/utils.py:145-172 | any chain of accesses on `null` stays `null`, falsy and printing as "" |
| Utils.FailureException.constructor | torequests/utils.py:77-80 | keeps the error and sets `ok` to False |
| Utils.FailureException.Truthy | torequests/utils.py:82-83 | always falsy |
| Utils.FailureException.Repr | torequests/utils.py:85-86 | the repr is `FailureException(...)` |
| Utils.FailureException.Str | torequests/utils.py:85-86 | str is repr |
| Parsers.GetOne | torequests/parsers.py:18-24 | string-like input is returned when skipping; the first item of a truthy iterable; `default` for falsy or non-iterable input; StopIteration only for an empty lazy iterator |
| Parsers.EnsureList | torequests/parsers.py:43-49 | falsy gives [], str/bytes gives [obj], anything else `list(obj)` |
| Parsers.EnsureListOfList | torequests/parsers.py:43-49 | a list passes through unchanged |
| Parsers.EnsureListIdempotent | torequests/parsers.py:43-49 | applying `ensure_list` twice is applying it once |
| Parsers.ConstParser | torequests/parsers.py:91-92 | the first extra argument if any, else the input |
| Parsers.JsonPathPrefix | torequests/parsers.py:86-87 | after the prefix substitution the path starts with '$.' |
| Parsers.DropTrailingDot | torequests/parsers.py:86 | one trailing '.' (also before a final newline) is removed, nothing else |
| Parsers.NormalizeJsonPath | torequests/parsers.py:86-87 | the normalised path starts with '$' and is the prefixed path or one character shorter |
| Parsers.NormalizedStart | torequests/parsers.py:86-87 | every normalised path starts with '$', and with '$.' unless nothing follows |
| Parsers.JsonPathDotted | torequests/parsers.py:86-87 | 'JSON.' and '$.' prefixes normalise alike |
| Parsers.JsonPathBare | torequests/parsers.py:86-87 | 'JSON' and '$' prefixes normalise alike |
| Parsers.JsonPathRelative | torequests/parsers.py:86-87 | a path with no prefix normalises like '$.' + path |
| Parsers.JsonPathTrailingDot | torequests/parsers.py:86-87 | a plain path becomes '$.' + path, with one trailing '.' removed |
| Parsers.ChooseParser | torequests/parsers.py:40-41 | exactly the names with a `<name>_parser` attribute resolve (the five parsers, `_html`, `_xml` and `_choose`); others are an AttributeError |
| Parsers.CallParser | torequests/parsers.py:40-92 | the lxml parser objects are not callable (TypeError); `_choose_parser` as a step takes only a str naming an attribute; const returns its argument or the input |
| Parsers.CheckMarkupArgs | torequests/parsers.py:54-80 | exactly two arguments, with the method in text/html/xml; ValueError or AssertionError otherwise |
| Parsers.ToStrings | torequests/parsers.py:64-79 | one `tostring` per selected element, in order |
| Parsers.MarkupParser | torequests/parsers.py:54-80 | a bad method or argument count fails before selection; a result is always a list |
| Parsers.JsonParserCall | torequests/parsers.py:82-89 | exactly one path argument; a result is a list |
| Parsers.ReParserAsWritten | torequests/parsers.py:51-52 | as written, `re_parser` always fails |
| Parsers.ReParserCall | torequests/parsers.py:51-52 | corrected: a list of the `re` function's result on `args[1:] + [scode]` |
| Parsers.MapList | torequests/parsers.py:52 | a successful `ensure_list` gives a list value |
| Parsers.ReParserDiffers | torequests/parsers.py:51-52 | for a callable `re` function, the as-written parser raises TypeError while the corrected one succeeds |
| Parsers.ModesAccepted | torequests/parsers.py:105-106 | of the three-character modes exactly 1-1, 1-n, n-1, n-n pass |
| Parsers.NToOneAsWritten | torequests/parsers.py:110-118 | 'n-1' as written: an empty input raises StopIteration, else the parser on the first item |
| Parsers.NToOne | torequests/parsers.py:110-118 | 'n-1' corrected: `default` for an empty input, else the parser on the first item |
| Parsers.NToOneEmpty | torequests/parsers.py:110-118 | the two differ exactly on empty input |
| Parsers.NToN | torequests/parsers.py:110-121 | 'n-n' gives one `get_one` per input item; it succeeds exactly when every item parses and has a `get_one`, and otherwise fails with the error of the first item that does not |
| Parsers.RunStep | torequests/parsers.py:102-124 | one step: a bad mode is an AssertionError, an unknown parser an AttributeError; 'n' input maps the parser over the iterated items, '1' input passes `scode` to json and `get_one(scode)` to the others; output '1' takes `get_one`, 'n-n' is `NToN` over the items (one `get_one` per item, failing exactly when some item fails), '1-n' a list; 'n-1' and 're' use the corrected definitions (see Findings) |
| Parsers.ChainFailure | torequests/parsers.py:102-124 | an empty chain returns the input; a failing chain fails with an error one of its steps raised |
| Parsers.ChainAppend | torequests/parsers.py:102-124 | running two chains in turn is running their concatenation |
| Parsers.BadModeStops | torequests/parsers.py:105-106 | a bad mode anywhere in the chain makes the whole chain fail |
| Parsers.ConstSteps | torequests/parsers.py:113-124 | a '1-1' const step gives `get_one(x)`; a '1-n' const step gives `list(x)` |
| Parsers.StepShapes | torequests/parsers.py:116-124 | '1-n' always yields a list; 'n-n' yields one value per input item |
| Parsers.JoinResult | torequests/parsers.py:125-126 | the result is unchanged without `join_with`; otherwise the str items joined with it, a TypeError when an item is not a str, and the iteration error of a value that is not iterable |
| Parsers.JoinSplits | torequests/parsers.py:125-126 | with a one-character `join_with` that no item contains, splitting the joined text at it gives the items back |
| Parsers.Parse | torequests/parsers.py:94-127 | the step loop equals the reference chain of corrected steps (see Findings), then the join |
| Exceptions.CommonException.Truthy | torequests/exceptions.py:10-14 | a CommonException is always falsy |
| Exceptions.CommonException.Str | torequests/exceptions.py:19-20 | str is "Class: name" |
| Exceptions.CommonException.Repr | torequests/exceptions.py:22-23 | repr is "Class('name',)" |
| Exceptions.CommonException.Call | torequests/exceptions.py:16-17 | calling one raises TypeError naming its repr |
| Exceptions.ReprDeterminesName | torequests/exceptions.py:22-23 | the repr determines the name |
| Exceptions.FailureName | torequests/exceptions.py:40 | the given name, or the wrapped error's class name |
| Exceptions.FailureException.Create | torequests/exceptions.py:29-41 | a new instance keeps the error, names it, and has `ok` False |
| Exceptions.FailureException.Reinit | torequests/exceptions.py:35-41 | re-init on an existing instance keeps the original underlying error |
| Exceptions.FailureException.Wrap | torequests/exceptions.py:29-41 | wrapping an instance returns that same object with its original error; wrapping a plain error makes a new one |
| Exceptions.FailureException.Truthy | torequests/exceptions.py:10-14 | always falsy |
| Exceptions.FailureException.Str | torequests/exceptions.py:43-48 | str is "FailureException: name" followed by the error's args |
| Exceptions.FailureException.Repr | torequests/exceptions.py:50-51 | repr is "<FailureException [name]>" |
| Exceptions.FailureException.Text | torequests/exceptions.py:53-55 | `text` is str, so it starts with 'FailureException' |
| Exceptions.FailureException.Call | torequests/exceptions.py:16-17 | calling one raises TypeError |
| Exceptions.WrapTwice | torequests/exceptions.py:29-41 | wrapping twice returns the first wrapper, whose error is the original error |
| FrequencyRules.Grant | torequests/frequency_controller/sync_tools.py:64-69 | a grant is at least `interval` after the slot's previous grant and no earlier than now |
| FrequencyRules.NextIndex | torequests/frequency_controller/sync_tools.py:61-62 | the slot index wraps from n-1 back to 0 |
| FrequencyRules.Index | torequests/frequency_controller/sync_tools.py:61-62 | the k-th acquisition uses a slot below n |
| FrequencyRules.IndexRounds | torequests/frequency_controller/sync_tools.py:61-62 | k is a whole number of rounds plus its slot |
| FrequencyRules.IndexIsMod | torequests/frequency_controller/sync_tools.py:61-62 | round robin: the k-th acquisition uses slot k mod n |
| FrequencyRules.Ring | torequests/frequency_controller/sync_tools.py:59-70 | the slot list starts as n zeros and each grant is written to its slot |
| FrequencyRules.RingRecent | torequests/frequency_controller/sync_tools.py:59-70 | the slot written t acquisitions ago holds that grant, or 0 before that |
| FrequencyRules.RingSlot | torequests/frequency_controller/sync_tools.py:62-69 | the next slot read holds grant k-n, or 0 for the first n |
| FrequencyRules.Schedule | torequests/frequency_controller/sync_tools.py:59-70 | one grant per acquisition |
| FrequencyRules.SchedulePrefix | torequests/frequency_controller/sync_tools.py:59-70 | later acquisitions do not change earlier grants |
| FrequencyRules.ScheduleLast | torequests/frequency_controller/sync_tools.py:63-69 | the last grant is computed against grant k-n |
| FrequencyRules.ScheduleGrant | torequests/frequency_controller/sync_tools.py:63-69 | grant k is at least `interval` after grant k-n; the first n grants wait only against 0 |
| FrequencyRules.TwoPerSecond | torequests/frequency_controller/sync_tools.py:14-31 | n=2, interval=1, five acquisitions at t give t, t, t+1, t+1, t+2 |
| FrequencyRules.BindArgs | torequests/frequency_controller/sync_tools.py:38-49 | binds positional and keyword arguments to `(n=None, interval=0)`, with Python's TypeErrors |
| FrequencyRules.Keywords | torequests/frequency_controller/sync_tools.py:84 | `**frequency` needs string keys and keeps the entries in order |
| FrequencyRules.FromValue | torequests/frequency_controller/sync_tools.py:81-86 | a dict is used as keywords, an iterable as positional arguments, and anything else is a TypeError |
| FrequencyRules.ListRoundTrip | torequests/frequency_controller/sync_tools.py:51-53 | `cls(*f.to_list())` rebuilds the same settings |
| FrequencyRules.DictRoundTrip | torequests/frequency_controller/sync_tools.py:55-57 | `cls(**f.to_dict())` rebuilds the same settings |
| SyncTools.Frequency.constructor | torequests/frequency_controller/sync_tools.py:38-49 | stores n and interval, sets the repr "Frequency(n, interval)", and has a generator exactly when n is truthy |
| SyncTools.Frequency.ToList | torequests/frequency_controller/sync_tools.py:51-53 | `[n, interval]`, which rebuilds the same controller |
| SyncTools.Frequency.ToDict | torequests/frequency_controller/sync_tools.py:55-57 | `{'n': n, 'interval': interval}`, which rebuilds the same controller |
| SyncTools.Frequency.Truthy | torequests/frequency_controller/sync_tools.py:101-102 | truthy exactly when n is truthy |
| SyncTools.Frequency.Enter | torequests/frequency_controller/sync_tools.py:46-90 | falsy n is a no-op; otherwise the grant goes to the next round-robin slot, which is overwritten with it, and all grants equal `Schedule` |
| SyncTools.Frequency.Next | torequests/frequency_controller/sync_tools.py:62-70 | one step of the generator: the request is recorded, the grant is the last entry of `Schedule` of all requests, and the slot ring and index stay as `Valid` describes |
| SyncTools.Frequency.Str | torequests/frequency_controller/sync_tools.py:95-99 | str and repr are the stored repr |
| SyncTools.EnsureFrequency | torequests/frequency_controller/sync_tools.py:72-86 | an instance comes back unchanged; otherwise a new controller from the dict or the positional arguments |
| AsyncTools.AsyncFrequency.constructor | torequests/frequency_controller/async_tools.py:38-49 | the repr is "AsyncFrequency(n, interval)" or "AsyncFrequency(unlimited)"; a generator exists exactly when n is truthy; no lock yet |
| AsyncTools.AsyncFrequency.ToList | torequests/frequency_controller/async_tools.py:51-53 | `[n, interval]`, which rebuilds the same controller |
| AsyncTools.AsyncFrequency.ToDict | torequests/frequency_controller/async_tools.py:55-57 | `{'n': n, 'interval': interval}`, which rebuilds the same controller |
| AsyncTools.AsyncFrequency.Truthy | torequests/frequency_controller/async_tools.py:109-110 | truthy exactly when n is truthy |
| AsyncTools.AsyncFrequency.Enter | torequests/frequency_controller/async_tools.py:59-98 | as the sync rule: the round-robin slot is updated in place, and the lock is created on first use |
| AsyncTools.AsyncFrequency.Next | torequests/frequency_controller/async_tools.py:69-78 | the same generator step, leaving the lock flag alone |
| AsyncTools.AsyncFrequency.Str | torequests/frequency_controller/async_tools.py:103-107 | str and repr are the stored repr |
| AsyncTools.EnsureFrequency | torequests/frequency_controller/async_tools.py:80-94 | an instance unchanged, a dict as keywords, anything else as positional arguments |
| Attempts.RunFromSpec | torequests/_py3_patch.py:120-127 | the loop, continued after i caught attempts, ends at the first return or uncaught error, or after all tries with the last error |
| Attempts.RunSpec | torequests/_py3_patch.py:120-127 | at most `tries` attempts; the first success, the first uncaught error, or the last caught error |
| Attempts.AllFail | torequests/_py3_patch.py:120-127 | when every attempt raises a caught error, the loop is exhausted with the last one |
| Attempts.FirstSuccess | torequests/_py3_patch.py:120-122 | a first attempt that returns is the answer |
| Py3Patch.Unbound | torequests/_py3_patch.py:125-127 | reading `error` after no attempt is an UnboundLocalError |
| Py3Patch.RetryCompletion | torequests/_py3_patch.py:120-127 | the first success is returned; the last caught error is returned with `catch_exception`, else raised; an uncaught error propagates |
| Py3Patch.RetrySync | torequests/_py3_patch.py:119-127 | the `retry_sync` loop equals the reference retry |
| Py3Patch.RetryAllFail | torequests/_py3_patch.py:124-127 | when every attempt fails, the last error is returned or raised according to `catch_exception` |
| Py3Patch.RetryUncaught | torequests/_py3_patch.py:121-124 | an unlisted error propagates at once |
| Py3Patch.NewResponse.constructor | torequests/_py3_patch.py:42-44 | no encoding is cached at first |
| Py3Patch.NewResponse.Ok | torequests/_py3_patch.py:73-75 | `ok` holds exactly when 200 <= status < 400 |
| Py3Patch.NewResponse.Truthy | torequests/_py3_patch.py:66-67 | `bool(response)` equals `ok` |
| Py3Patch.NewResponse.IsRedirect | torequests/_py3_patch.py:77-82 | a `location` header and 300 <= status < 400 |
| Py3Patch.NewResponse.Repr | torequests/_py3_patch.py:63-64 | repr is "<NewResponse [status]>" |
| Py3Patch.NewResponse.Encoding | torequests/_py3_patch.py:84-88 | a cached non-empty encoding is returned as is; otherwise the detected one is cached and returned |
| Py3Patch.NewResponse.SetEncoding | torequests/_py3_patch.py:90-93 | the setter stores the encoding |
| Py3Patch.RedirectIsOk | torequests/_py3_patch.py:66-82 | a redirect is a truthy response |
| Py3Patch.EncodingCached | torequests/_py3_patch.py:84-88 | once read as non-empty, later reads return the same encoding |
| MainPool.TimeoutPolicy | torequests/main.py:71-76 | a falsy `timeout_return` gives 'TimeoutError: args, kwargs'; a callable is called with the arguments; anything else is returned itself |
| MainPool.X | torequests/main.py:67-76 | a finished call's result or non-timeout error is passed on; a wait that times out, or a call that itself raised TimeoutError, applies the policy |
| MainPool.Pool.Create | torequests/main.py:18-24 | n <= 0 is the ValueError 'max_workers must be greater than 0'; otherwise a new pool with the timeout policy, open and empty |
| MainPool.Pool.Submit | torequests/main.py:35-46 | RuntimeError after shutdown; otherwise a future carrying the pool's policy and arguments, queued as a work item |
| MainPool.Pool.Close | torequests/main.py:32-33 | the pool is shut down |
| MainPool.SubmitAfterClose | torequests/main.py:37-40 | a closed pool rejects every submission with RuntimeError |
| MainPool.PoolSize | torequests/main.py:118 | `n or 10` |
| MainPool.RequestResult | torequests/main.py:137-152 | the first response, or `fail_return(url, error)` when callable, or `fail_return` itself |
| MainPool.Attempt | torequests/main.py:139-142 | with a non-negative delay each attempt is the session request; with a negative one every attempt raises the sleep's ValueError |
| MainPool.SleepError | torequests/main.py:140 | a negative delay makes `sleep` raise ValueError, which is retried like any Exception |
| MainPool.TPool.Create | torequests/main.py:115-122 | the pool's ValueError for n <= 0 propagates; otherwise the adapter size is `n or 10`, positive, and the pool carries n and the timeout policy |
| MainPool.TPool.Close | torequests/main.py:124-126 | closes the session and shuts the pool down |
| MainPool.TPool.Request | torequests/main.py:137-152 | the retry loop equals the reference retry over `Exception`, followed by the fail_return rule |
| MainPool.RequestSpec | torequests/main.py:137-152 | at most retry+1 attempts and the first success; after all fail, the fail_return rule on the last error |
| Dummy.CallbackList | torequests/dummy.py:68-74 | no callback, one callable or a list/tuple/set becomes the list of done-callbacks |
| Dummy.CallbacksAllRaise | torequests/dummy.py:80-83 | callbacks that all raise leave `_callback_result` unset |
| Dummy.CallbackLastReturning | torequests/dummy.py:80-83 | `_callback_result` is the value of the last callback that returned |
| Dummy.NewTask.constructor | torequests/dummy.py:55-74 | a new `NewTask` starts pending with `_callback_result` unset |
| Dummy.NewTask.RunCallbacks | torequests/dummy.py:72-83 | the callbacks run in order, each returning one overwriting `_callback_result` |
| Dummy.NewTask.Complete | torequests/dummy.py:72-83 | finishing or cancelling a `NewTask` runs the callbacks on its outcome |
| Dummy.NewTask.CallbackResult | torequests/dummy.py:97-111 | runs a pending task first, and re-raises what its coroutine raised even when a callback stored a value; otherwise the stored callback result, or `result()` when none is stored |
| Dummy.PendingRaiseWins | torequests/dummy.py:101-111 | a pending task whose coroutine raises gives that error, not the value its callback stored |
| Dummy.NewTask.X | torequests/dummy.py:113-118 | runs a pending task first, then gives `result()` |
| Dummy.NoCallbackResult | torequests/dummy.py:102-111 | without callbacks, `callback_result` is `result()` |
| Dummy.TodoTasks | torequests/dummy.py:285-291 | only pending tasks |
| Dummy.DoneTasks | torequests/dummy.py:293-299 | only tasks no longer pending |
| Dummy.TasksPartition | torequests/dummy.py:285-299 | the two views partition `all_tasks` |
| Dummy.NormalizeTimeout | torequests/dummy.py:530-542 | a number sets connect and read; a tuple or list gives [0] and [1]; None or a ClientTimeout is kept; anything else is a ValueError; other keys are untouched |
| Dummy.RenameVerify | torequests/dummy.py:543-544 | `verify` becomes `ssl` |
| Dummy.LookupValue | torequests/dummy.py:546 | `proxies[scheme]`: found exactly when the key is present |
| Dummy.AddProxy | torequests/dummy.py:545-546 | `proxy` is "<scheme>://<proxies[scheme]>", a KeyError for a missing scheme |
| Dummy.WithTarget | torequests/dummy.py:547-548 | the url and method are set |
| Dummy.PopExtras | torequests/dummy.py:550-551 | `referer_info` and `encoding` are popped, defaulting to None |
| Dummy.PrepareKwargs | torequests/dummy.py:530-551 | the stages in order; the timeout error comes first |
| Dummy.PrepareTarget | torequests/dummy.py:517-548 | the session gets the url stripped of Unicode whitespace, and the method |
| Dummy.PrepareExtras | torequests/dummy.py:550-551 | the popped extras are the caller's values |
| Dummy.PrepareVerify | torequests/dummy.py:543-544 | a `verify` argument reaches the session as `ssl` |
| Dummy.PrepareFrame | torequests/dummy.py:530-551 | every other keyword reaches the session unchanged |
| Dummy.FailureRequest | torequests/dummy.py:565-569 | the failure's request holds the kwargs with `retry` and any truthy `referer_info`/`encoding` put back |
| Dummy.CatchException | torequests/dummy.py:459-460 | `return_exceptions`, when given, overrides `catch_exception` |
| Dummy.EnsureFrequencies | torequests/dummy.py:486-496 | falsy gives {}, a non-dict is a ValueError, otherwise each host's value goes through `ensure_frequency`: an instance is kept, and arguments give a new controller with an empty schedule, a different one per host |
| Dummy.Requests.Create | torequests/dummy.py:438-471 | the constructor resolves `catch_exception`, keeps `default_host_frequency`, builds a new global controller from n and interval, and makes the table one controller per given host (new, with an empty schedule and not shared, for a host given as arguments), or fails with the conversion error of one of the given hosts |
| Dummy.Requests.ChooseFrequency | torequests/dummy.py:521-529 | the host's truthy entry; else, with a truthy `default_host_frequency`, the entry already stored or else one built from it (the instance itself, or a new controller with its n and interval and an empty schedule) and stored with setdefault; else the global one |
| Dummy.Requests.UpdateFrequency | torequests/dummy.py:508-510 | a falsy argument changes nothing; a non-dict is a ValueError; a dict's entries are each converted from that host's own value (a new, unshared controller with an empty schedule for arguments), and they replace or extend the table while other hosts keep theirs; on error the table is unchanged |
| Dummy.Requests.SetFrequency | torequests/dummy.py:498-506 | a new controller from `n or self.n` and the interval is stored for the host |
| Dummy.Requests.Retry | torequests/dummy.py:552-576 | at most retry+1 attempts and the first response; after all fail, a FailureException carrying the request, returned or raised per `catch_exception` |
| Dummy.Requests.Close | torequests/dummy.py:659-668 | closing once sets `_closed`; a closed object is left as is; a failing close marks nothing |
| Dummy.ChooseTwice | torequests/dummy.py:521-529 | choosing twice for one host gives the same controller |
| Dummy.CloseTwice | torequests/dummy.py:659-666 | a second close changes nothing |
| AiohttpDummy.ValidationFailed | torequests/aiohttp_dummy.py:26-80 | the validator's ValidationError is among the default retry exceptions |
| AiohttpDummy.AttemptOutcome | torequests/aiohttp_dummy.py:74-83 | the request's error, else the validator's error or the ValidationError of a falsy verdict, and only for an accepted response the error of reading its body, else the response |
| AiohttpDummy.Requests.Create | torequests/aiohttp_dummy.py:23-38 | RuntimeError unless an event loop is running |
| AiohttpDummy.Requests.Closed | torequests/aiohttp_dummy.py:210-215 | closed when there is no session, else the session's state |
| AiohttpDummy.Requests.Close | torequests/aiohttp_dummy.py:217-223 | True at once when already closed; otherwise the session's close |
| AiohttpDummy.Requests.Request | torequests/aiohttp_dummy.py:62-95 | at most retry+1 attempts, each validating before reading the body, and the first accepted response that reads; afterwards a FailureException of the last error, returned or raised per `catch_exception` |
| AiohttpDummy.Deliver | torequests/aiohttp_dummy.py:49-60 | the callback is applied to the outcome, failure values included; an awaitable result is awaited, giving its value or raising its error, and an exception the callback raises propagates |
| AiohttpDummy.RejectingValidator | torequests/aiohttp_dummy.py:72-95 | a validator rejecting everything ends in a failure of ValidationError after retry+1 attempts, whatever reading the bodies would do |
| AiohttpDummy.AcceptingValidator | torequests/aiohttp_dummy.py:72-83 | an accepted first response whose body reads is returned |
| AiohttpDummy.ValidatorErrorEscapes | torequests/aiohttp_dummy.py:74-84 | an error the validator raises that is not retried ends the loop at the first attempt, before any read |
| AiohttpDummy.HeadKwargs | torequests/aiohttp_dummy.py:163-171 | `allow_redirects` defaults to False |
| Crawlers.WithoutIsPop | torequests/crawlers.py:230-231 | removing a key from a copy is `pop` on a dict with distinct keys |
| Crawlers.WithoutSpec | torequests/crawlers.py:230-231 | the key is gone and every other key keeps its value |
| Crawlers.UrlTaskDropsOne | torequests/crawlers.py:201-212 | each url candidate drops exactly its one pair and keeps the others in order |
| Crawlers.DataTasksShape | torequests/crawlers.py:218-248 | nothing unless the request posts truthy data; then a total_data candidate, followed by one per form or JSON key |
| Crawlers.FormTaskDropsKey | torequests/crawlers.py:227-233 | each form candidate lacks exactly its key |
| Crawlers.Others | torequests/crawlers.py:257-258 | the other morsels are those different from the one left out |
| Crawlers.HeaderTasksShape | torequests/crawlers.py:271-279 | at most one candidate per header, none for Cookie |
| Crawlers.HeaderTaskCount | torequests/crawlers.py:271-279 | without a Cookie header, every header gets its candidate in order |
| Crawlers.AddIgnoreSpec | torequests/crawlers.py:343 | appending to an ignore list lists the argument and loses nothing |
| Crawlers.KeepSpec | torequests/crawlers.py:339-343 | exactly the unchanged tasks are recorded, one entry each |
| Crawlers.FilterOut | torequests/crawlers.py:287-288 | every copy of an ignored pair is removed, and nothing else |
| Crawlers.PopWellFormed | torequests/crawlers.py:291-292 | a pop keeps dict keys distinct |
| Crawlers.PopAllFrame | torequests/crawlers.py:291-292 | a pop loop stops only on KeyError and keeps the keys it was not asked to pop |
| Crawlers.PopAllGone | torequests/crawlers.py:291-292 | after a successful pop loop none of the popped keys remain |
| Crawlers.PopKeys | torequests/crawlers.py:291-292 | the pop loop equals its reference definition |
| Crawlers.ResetHeaders | torequests/crawlers.py:284-295 | the ignored pairs leave the url; the headers, if kept, are non-empty |
| Crawlers.ResetCookie | torequests/crawlers.py:296-306 | unchanged unless a cookie is ignored and the header is not; KeyError without headers; otherwise the Cookie header is rebuilt from the morsels whose names are not ignored, and nothing else changes |
| Crawlers.KeepCookies | torequests/crawlers.py:300-305 | the morsels whose names are not ignored |
| Crawlers.ResetData | torequests/crawlers.py:308-322 | only truthy post data changes: ignored form keys popped (KeyError when missing) and an emptied form dropped; any data dropped once total_data is ignored; ignored JSON keys popped when `has_json_data` |
| Crawlers.ResetSpec | torequests/crawlers.py:282-323 | ignored pairs are gone, the rest of the url and the method are kept, and empty headers are dropped |
| Crawlers.ResetHeadersGone | torequests/crawlers.py:291-295 | no ignored header survives the header step |
| Crawlers.ResetDropsHeaders | torequests/crawlers.py:282-323 | no ignored header survives a reset |
| Crawlers.ResetDropsData | torequests/crawlers.py:308-322 | after a reset, truthy post data is gone once total_data is ignored; a form the pops empty is dropped, and a kept form is non-empty without ignored keys; a JSON body loses every ignored key |
| Crawlers.ResetDataGone | torequests/crawlers.py:308-322 | the data step alone, with the same guarantee |
| Crawlers.ResetDropsCookies | torequests/crawlers.py:284-306 | after a reset, the Cookie header holds exactly the morsels whose names are not ignored |
| Crawlers.CookieSurvivesHeaders | torequests/crawlers.py:291-295 | popping the other ignored headers keeps the Cookie header |
| Crawlers.ResetReachesData | torequests/crawlers.py:282-322 | the url and header steps leave the method and the data as they were |
| Crawlers.CleanRequest.Create | torequests/crawlers.py:145-171 | a failed original response is an AssertionError; a cookie whose removal changes nothing is ignored from the start; the request's n is kept |
| Crawlers.CleanRequest.CleanUrl | torequests/crawlers.py:201-212 | appends exactly the url candidates |
| Crawlers.CleanRequest.CleanPostData | torequests/crawlers.py:214-248 | appends exactly the data candidates, and sets `has_json_data` for JSON |
| Crawlers.CleanRequest.AddFormTasks | torequests/crawlers.py:227-233 | one candidate per form key |
| Crawlers.CleanRequest.AddJsonTasks | torequests/crawlers.py:239-244 | one candidate per JSON key |
| Crawlers.CleanRequest.CleanCookie | torequests/crawlers.py:250-262 | nothing when the cookie is unnecessary; otherwise one candidate per morsel |
| Crawlers.CleanRequest.AddCookieTasks | torequests/crawlers.py:256-261 | one candidate per morsel |
| Crawlers.CleanRequest.CleanHeaders | torequests/crawlers.py:264-280 | the cookie candidates, then one per other header |
| Crawlers.CleanRequest.AddHeaderTasks | torequests/crawlers.py:271-279 | one candidate per header other than Cookie |
| Crawlers.CleanRequest.CleanAll | torequests/crawlers.py:325-327 | url, then data, then header candidates |
| Crawlers.CleanRequest.ResetNewRequest | torequests/crawlers.py:282-323 | the in-place reset equals its reference definition |
| Crawlers.CleanRequest.ResetCookieStep | torequests/crawlers.py:296-306 | the cookie step equals its reference definition |
| Crawlers.CleanRequest.ResetDataStep | torequests/crawlers.py:308-322 | the data step equals its reference definition |
| Crawlers.CleanRequest.Result | torequests/crawlers.py:329-344 | `clean_all` runs only when there are no tasks; then `interval / n` fails with TypeError for n None and ZeroDivisionError for n 0; otherwise each unchanged task is recorded, then the reset |
| Crawlers.Limit | torequests/crawlers.py:447-449 | a missing or zero limit means unbounded |
| Crawlers.StressTest.constructor | torequests/crawlers.py:409-457 | the counters start at 0, and the limits default to unbounded |
| Crawlers.StressTest.Callback | torequests/crawlers.py:487-509 | counts every response, counts matches as successes, and calls shutdown per limit reached and for a changed response under `shutdown_changed` |
| Crawlers.RunUnlimited | torequests/crawlers.py:487-509 | without limits and without `shutdown_changed` the test never shuts down |
| Crawlers.NewSeed | torequests/crawlers.py:358-369 | accepted exactly for a numeric frequency and a dict of string keys to lists or tuples; AssertionError otherwise |
| Crawlers.ParsersOk | torequests/crawlers.py:362-364 | every item parser has a string key and a list or tuple value |

## Left out

- I/O and foreign code: HTTP sessions, sockets, `urlparse`/`urlunparse`, `parse_qsl`, `SimpleCookie`, `json`, `md5`, `shlex`/`argparse`, lxml, jsonpath, `re` and `strftime`. Each is an oracle parameter, or the model starts after its output.
- Concurrency: thread and process pools, gevent, the asyncio event loop, locks and `run_until_complete`. Calls are sequential, and the lock only appears as `AsyncFrequency`'s lazily created `_lock`.
- Clocks and sleeping: time is an integer parameter, a sleep is exact, and the extra delay of a late wake-up is the `late` argument of `Enter`.
- Floating point: timestamps, intervals and timeouts are integers; the reporting of `succ_rate`, `speed`, the cost string and `timepass` is not modelled.
- `Loop.run`/`wait`/`wait_all_tasks_done`, `_exhaust_simple_coro` and `NewTask`'s timing fields: pure event-loop plumbing.
- `StressTest.start` and its `os._exit` shutdown: an endless loop. The model counts the `shutdown` calls instead.
- The asynchronous branch of `retry`: it is the synchronous loop with `await`.
- `Curl.parse`'s tokenisation by `shlex` and `argparse`: the model starts from the parsed arguments.
- `CommonRequests._ensure_response`: the server oracle returns its fingerprint directly.
- `ensure_request` and `ensure_dict_key_title`: the request is given already parsed, with title-cased header names.
- `Seed`'s `as_list`/`as_dict`/`as_json`: JSON rendering.
- `CleanRequest.sort_url_qsl`: sorting by a caller-supplied key.
- `ttime`'s `str(float)` rendering: the timestamp is given as the text `str()` produces.
- Dummy.Requests.Retry: the `async with frequency` around each attempt is not modelled; the frequency controller's own rule is proved in `SyncTools`/`AsyncTools`.
- MainPool.RequestResult: a callable `fail_return` receives the url and the last error but not the request keyword arguments.
- MainPool.TPool.Request: the log message that formats the error on each failure is not modelled.
- Crawlers.CleanRequest.CleanPostData: JSON bodies are modelled as objects. A JSON array or scalar body, where `pop(key)` would misbehave, is not modelled.
- Utils.Ttime: it takes the localtime offset as a parameter (`time.timezone`) and formats through a supplied `strftime`.
- Utils.ParseInt: only ASCII decimal digits are accepted; `int` also reads other Unicode decimal digits, which the model rejects with ValueError.
- PyValues.Lower: case folding is ASCII-only.
- Utils.CurlVerb: a `-X` method is lower-cased in its ASCII letters only; `str.lower()` also folds other letters.
- FrequencyRules.AsN: a non-integer n is a TypeError here; `Frequency.__init__` stores it.
- FrequencyRules.AsInterval: a non-integer interval is a TypeError here; `Frequency.__init__` stores it.
- FrequencyRules.BindArgs: n and interval are modelled as integers; a non-integer value, which `Frequency.__init__` would store and fail on later, if at all, is a TypeError at construction.
- Crawlers.CleanRequest.CleanPostData: a str body (`.decode` raises AttributeError) and bytes that are not valid in the encoding (UnicodeDecodeError) are not modelled; the body is given as decoded text.
- Imports: the source files name some things that the other given files do not define. The model gives each the meaning below.
  - `dummy.py` imports `Error` and `ProcessPool` from `main.py`. Neither is used by the modelled members.
  - `aiohttp_dummy.py` imports `ValidationError` from `exceptions.py`. The model takes it as an exception class named ValidationError that subclasses Exception.
  - `crawlers.py` imports `Counts`, `ensure_dict_key_title`, `ensure_request`, `parse_qsl`, `unparse_qsl`, `urlparse`, `urlunparse` and `timepass` from `utils.py`. The model takes:
    - `Counts` as a counter that starts at 0 and steps by 1;
    - `ensure_request` as giving the request dict with title-cased header names;
    - the url helpers as splitting a url into its query pairs and an unchanged rest, and joining them back;
    - `timepass` as log text only.
- Dummy.Requests.SetFrequency: `dummy.py` builds the controller with `Frequency(..., loop=self.loop)` imported from the async controller module, which defines no `Frequency`; the model builds `AsyncTools.AsyncFrequency` from n and interval without a loop.
- Parsers.CallParser: a user-supplied callable passed as `html_parser`/`xml_parser` is not modelled; the default lxml parser objects are not callable.
- Utils.Parse: the body uses the corrected data branch (Utils.DataBody); the TypeError for `-d` without a Content-Type and the JSON test by substring are modelled by Utils.DataBodyAsWritten and Utils.CurlDataWithoutContentType.
- Parsers.CallParser: a `_choose_parser` step given a 1-tuple holding a str would look up that str (`'%s' % ('json',)` is 'json'); lists and tuples are one value here, so the model treats every non-str input as naming no attribute.
- Exceptions.FailureException.Wrap: `self.__dict__ = error.__dict__` makes the wrapper share the wrapped error's attribute dict, so an attribute set later on one (such as the `.request` set in `dummy.py`) shows on the other; the model copies the error's name and args and does not model that sharing.
- Crawlers: the server is an oracle to response fingerprints that are None exactly for a failed or falsy response; a user `ensure_response` returning None for a truthy response passes `assert resp` in `crawlers.py` and is compared as None, which the model does not represent.
- Parsers.RunStep: an 'n-1' step and a 're' step use the corrected Parsers.NToOne and Parsers.ReParserCall; the StopIteration on an empty input and the TypeError of every 're' step are modelled by Parsers.NToOneAsWritten and Parsers.ReParserAsWritten.
- Parsers.Parse: it runs the corrected steps of Parsers.RunStep, so it inherits the two corrections above.

## Findings

| source | as written | input that shows it | evidently intended | confidence | as-written member | corrected member |
|---|---|---|---|---|---|---|
| torequests/utils.py:133 | `headers.get('Content-Type') in ('application/json')` tests for a substring of a plain string, not membership in a tuple | `curl URL -d 'a=1'` with no Content-Type header raises TypeError (`None in str`); a Content-Type of `json` is parsed as JSON | Content-Type equal to 'application/json' selects JSON; anything else sends the data as bytes | high, not executed | Utils.CurlDataWithoutContentType | Utils.BodyKind |
| torequests/parsers.py:110-118 | on Python 3 `map(...)` is a lazy, always-truthy object, so `get_one` calls `next` on it | an 'n-1' step over an empty list raises StopIteration instead of returning `default` | an empty input gives `default`, as `get_one` promises | high, not executed | Parsers.NToOneEmpty | Parsers.NToOne |
| torequests/parsers.py:52 | `args[1:] + [scode]` adds a list to the tuple `args`, and the result is passed as a single argument | `parse('<a>', [['1-n', 're', 'findall', '<(.)>']])` raises TypeError | call `re.<args[0]>(*args[1:], scode)` and return a list | high, not executed | Parsers.ReParserDiffers | Parsers.ReParserCall |
