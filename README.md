# TwitterScraper core, modelled in Dafny

This project models the two collectors of TwitterScraper and the utilities they share.

- **Filtered-stream collector** (`src/twitter_stream.py`). Each run does four things in order:
  - fetches the account's stream rules;
  - deletes the existing rules;
  - adds the configured rule and tag pairs;
  - opens the stream and logs every record it reads.
- **User collector** (`src/twitter_user.py`). Each run:
  - looks up the configured usernames in one batched request;
  - splits the reply into a dict of found users keyed by id and a dict of errors keyed by resource id (`"Unknown"` when absent);
  - fetches the latest five tweets of every found user.
- **Retry loop.** Both collectors run inside a `create_thread` function. It sets up a log file, then loops on `while True`. Its `except` clauses decide whether to break, retry, or (for the stream collector's rate limit) sleep until the reset time and retry.
- **Utilities** (`src/utils.py`). These are:
  - `log_wrapper`, which turns an exception into a log line and a `None` result;
  - a `RawConfigParser` whose `options` can leave out the DEFAULT section.

## How the model is organised

**Modules.**

- `Wrappers` and `Errors`: `Option`/`Result`, and the Python exceptions the core can raise.
- `Json`: the values `json.loads` returns, and which of them can be dict keys.
- `OrderedDicts`: Python dicts, with their insertion order.
- `Strings`: the string operations the core uses, such as `str.format` with one argument, `",".join`, `str.split`, `int()` and `str()`.
- `Utils`: the configuration parser, section lookup with DEFAULT fallback, and `log_wrapper`.
- `Http`:
  - requests, replies and the stream reply;
  - the trace of observable events (requests sent, values logged, sleeps);
  - the shared "send, check the status, parse the body" step.
- `Retry`: the `while True` loop as a specification function `Run` over a sequence of attempts.
- `TwitterStream` and `TwitterUser`: the two collectors.

**How Python is modelled.**

- The outside world is a parameter:
  - the server's reply to each request;
  - the chunks of the stream;
  - `json.loads`;
  - the lines of the usernames file;
  - `time.time()` at the moment the rate-limit handler runs.
- Every operation returns a `Step`: the events it produced and either its value or the exception it raised.
- Where the source loops, the model has a method with a `while` loop. That method is proved equal to the function that specifies it:
  - the rule and tag pairing;
  - the stream reader;
  - the dict building;
  - the tweets loop;
  - both retry loops.

**Behaviour worth noting.** Each of these follows from the code as written.

- **Stream filtering.** The stream is filtered per text chunk that `aiter_text` delivers, not per line. Only a chunk that is empty or exactly `"\r\n"` or `"\n"` is skipped. A chunk holding two keep-alives or a blank is handed to `json.loads` (`CoalescedKeepAliveIsParsed`).
- **Rule pairing.** Rules and tags are paired with `zip`, so the shorter list silently wins, and no count is checked. A rule or tag read from the configuration file is text, so `zip` pairs its characters (`TextRulesPairCharacters`).
- **Rate-limit sleep.** The stream collector sleeps `int(reset) - time.time()` seconds. When the reset time has already passed, that argument is negative, `time.sleep` raises `ValueError`, and the exception leaves the retry loop. A missing reset header raises `KeyError` out of the loop in the same way.
- **User collector retries.** The user collector retries every status error, 429 included, without sleeping.
- **Empty rule lists.** A rules reply `{"data": []}` still sends a delete request, with an empty id list, since the early return only tests for `"data"` being absent.
- **Users dict.** Found users are keyed by id in a dict, so a repeated id keeps the last user object, under the position of its first occurrence (`DuplicateIdKeepsLast`).

## Model

| member | source | states |
|---|---|---|
| Utils.Options | src/utils.py:17-25 | with no_defaults: exactly the keys stored in the section, in insertion order, or NoSectionError naming a missing section; otherwise configparser's inherited options |
| Utils.OptionsWithoutDefaults | src/utils.py:18-23 | for an existing section, the list has no duplicates, holds every key of the section, and holds no key that only the DEFAULT section has |
| Utils.InheritedOptions | src/utils.py:24-25 | fails exactly for a missing section; otherwise lists a key iff the section holds it or only DEFAULT does |
| Utils.InheritedOptionsDistinct | src/utils.py:24-25 | the inherited options list each key of the section or of DEFAULT exactly once: the section's own keys first and in their order, then the DEFAULT keys the section lacks, filtered from DEFAULT's key order |
| Utils.KeysNotInAppend | src/utils.py:24-25 | the inherited DEFAULT keys are filtered key by key, so they keep DEFAULT's own order |
| Utils.KeysNotInOne | src/utils.py:24-25 | a DEFAULT key is inherited iff the section does not hold it |
| Utils.Lookup | src/twitter_stream.py:30 | config[section][key] succeeds iff the section exists (or is DEFAULT) and it or DEFAULT holds the key; the section's own value wins, otherwise DEFAULT's value is returned; a missing section raises KeyError naming the section, a missing key KeyError naming the key |
| Utils.SectionKeys | src/twitter_user.py:131-132 | iterating DEFAULT visits its keys in order; iterating another section visits the inherited options (its own keys, then the DEFAULT keys it lacks); a missing section raises KeyError; every key visited can be looked up |
| Utils.LogWrapper | src/utils.py:4-14 | a normal return passes through and logs nothing; an exception becomes None and is logged to the logger keyword argument if given, else to the root logger |
| OrderedDicts.ODict.Put | src/twitter_user.py:87 | d[k] = v keeps a dict valid, updates the mapping, keeps the position of an existing key and appends a new one |
| Http.Call | src/twitter_user.py:119-126 | the body is returned iff the reply is a response with the expected status and a JSON body; transport failure is RequestError; another status is HTTPStatusError with that status and headers; a non-JSON body is JSONDecodeError |
| Http.Exchange | src/twitter_stream.py:94-103 | one request is sent; the result is the status-checked parse, and the parsed body is logged exactly when it succeeds |
| Strings.ParseIntDecimalString | src/twitter_stream.py:58 | int() reads back any integer written with str() |
| Strings.DecimalString | src/twitter_stream.py:58 | str() of an integer is its digits, with a leading minus sign when negative, and no leading zero except for 0 itself |
| Strings.ParseInt | src/twitter_stream.py:58 | int() succeeds iff the text is a non-empty run of digits, or a sign followed by one; the value is the digits' value, negated after a minus sign |
| Strings.SplitJoin | src/twitter_user.py:133 | splitting a comma join at commas gives the parts back when there is at least one part and none holds a comma |
| Strings.Join | src/twitter_user.py:133 | joining nothing gives ""; a join starts with the first part, followed by the separator when there are two or more |
| Strings.FormatOneField | src/twitter_user.py:138 | formatting a template with one "{}" and no other brace puts the argument in place of the field |
| Strings.FormatTwoFields | src/twitter_user.py:148 | a template with two automatic fields raises IndexError for a single argument |
| Strings.Format | src/twitter_user.py:138 | a template without braces formats to itself |
| Retry.Run | src/twitter_stream.py:44-64 | the loop makes no more attempts than it is given, and is still retrying iff every attempt retried |
| Retry.RunStopsAtFirstFinal | src/twitter_stream.py:44-64 | the loop makes every attempt up to and including the first that does not retry, ends as that attempt's except clause says, and its trace is the attempts' traces in order with each retry's sleep after it |
| Retry.WaitedIsTotalSleep | src/twitter_stream.py:56-58 | when main() itself never sleeps, the loop sleeps the sum of its retries' sleeps |
| Retry.RetryThenBreak | src/twitter_stream.py:44-53 | a retry followed by a normal return makes two attempts, with the retry's sleep between them, and finishes |
| Retry.ThreadCall | src/twitter_stream.py:19-21 | create_thread raises into log_wrapper iff an exception escaped its loop, and what it raises is that exception |
| TwitterStream.Link | src/twitter_stream.py:95 | the URL is the configured text; a lookup error passes through; a list value raises TypeError |
| TwitterStream.GetRules | src/twitter_stream.py:93-103 | get_rules sends at most one request, a rules GET, and on success exactly that one |
| TwitterStream.GetRulesStatus | src/twitter_stream.py:98-103 | get_rules succeeds iff the reply is a 200 response with a JSON body; another status raises HTTPStatusError with it; on success it returns and logs the body |
| TwitterStream.RuleIds | src/twitter_stream.py:110 | the ids are extracted iff every rule has one, one id per rule in order; otherwise the error is that of the first rule without a readable id |
| TwitterStream.DeleteAllRules | src/twitter_stream.py:106-121 | at most one request is sent, a delete POST; with nothing to delete nothing is sent and the result is None |
| TwitterStream.Contains | src/twitter_stream.py:107 | `"data" in rules` tests a dict's keys and a list's elements, and raises TypeError for a number or a bool |
| TwitterStream.RuleId | src/twitter_stream.py:110 | rule["id"] is the rule's id; a dict without one raises KeyError("id"), anything else TypeError |
| TwitterStream.DataIds | src/twitter_stream.py:110 | a list of rules gives their ids; an empty dict or str gives none; None, a number or a bool raises TypeError |
| TwitterStream.PlanDelete | src/twitter_stream.py:107-111 | no request iff the rules are None or lack "data"; a delete names exactly the ids read from rules["data"]; a number or a bool raises TypeError |
| TwitterStream.DeleteSkipsWithoutData | src/twitter_stream.py:107-108 | for None or a dict, the early return happens iff the value is None or lacks "data", and then no request is sent |
| TwitterStream.DeletePayloadIds | src/twitter_stream.py:110-120 | with a list of rules that all have ids, one POST carries every id in rule order, and it succeeds iff the reply is a 200 response with a JSON body |
| TwitterStream.DeleteOneRule | src/twitter_stream.py:110-111 | one rule with id "1" gives the payload {"delete": {"ids": ["1"]}} |
| TwitterStream.Elements | src/twitter_stream.py:132 | iterating a list visits its items; iterating text visits its one-character strings |
| TwitterStream.AddRules | src/twitter_stream.py:132-133 | one rule object per zip pair: as many as the shorter list, the i-th pairing the i-th rule with the i-th tag |
| TwitterStream.CollectRules | src/twitter_stream.py:125-133 | the append loop builds exactly the zip pairs, in order |
| TwitterStream.PostRules | src/twitter_stream.py:135-145 | the add step sends at most one request, an add POST, and on success exactly that one |
| TwitterStream.SetRulesOutcome | src/twitter_stream.py:124-145 | set_rules sends at most one request, an add POST, and on success exactly that one |
| TwitterStream.SetRules | src/twitter_stream.py:124-145 | the imperative set_rules computes SetRulesOutcome |
| TwitterStream.SetRulesPayload | src/twitter_stream.py:132-144 | for any configured rule and tag values (text or list), the add request pairs their elements by position, as many as the shorter; it succeeds iff the reply is a 201 response with a JSON body, and another status raises HTTPStatusError |
| TwitterStream.AddTwoRules | src/twitter_stream.py:132-133 | two rules with two tags give two rule objects in order |
| TwitterStream.TextRulesPairCharacters | src/twitter_stream.py:132 | text rules and tags are paired character by character, cut to the shorter |
| TwitterStream.Kept | src/twitter_stream.py:157-158 | the filter never adds chunks |
| TwitterStream.KeptMembers | src/twitter_stream.py:158 | a chunk is kept iff it occurs in the stream and is not empty or a bare "\r\n" or "\n" |
| TwitterStream.KeptAppend | src/twitter_stream.py:157-158 | the filter works chunk by chunk: the chunks kept from two runs are those of each, in arrival order, repeats included |
| TwitterStream.KeptOne | src/twitter_stream.py:158 | a single chunk is kept unchanged iff it is not empty, "\r\n" or "\n" |
| TwitterStream.ReadChunksSendsNothing | src/twitter_stream.py:157-160 | reading the stream only logs; it sends no request |
| TwitterStream.Records | src/twitter_stream.py:159-160 | one log line per chunk, the i-th holding the i-th chunk parsed |
| TwitterStream.ReadChunks | src/twitter_stream.py:157-160 | the reader logs at most one line per kept chunk, raises nothing but JSONDecodeError, and raises it only when some kept chunk is not JSON |
| TwitterStream.GetStreamOutcome | src/twitter_stream.py:148-162 | get_stream sends at most one request, the streaming GET, and on success exactly that one |
| TwitterStream.GetStream | src/twitter_stream.py:148-162 | the imperative reader, with its chunk loop, computes GetStreamOutcome |
| TwitterStream.ReadChunksAppend | src/twitter_stream.py:157-160 | after chunks read without error, the rest of the stream is read as if alone and its log lines follow |
| TwitterStream.ReadChunksLogsKept | src/twitter_stream.py:157-160 | when every kept chunk parses, the reader logs exactly the kept chunks, parsed, in arrival order, and returns normally |
| TwitterStream.ReadChunksStopsAtBadChunk | src/twitter_stream.py:157-159 | the first kept chunk that is not JSON raises JSONDecodeError, after exactly the kept chunks before it were logged |
| TwitterStream.StreamRejectedBeforeReading | src/twitter_stream.py:151-155 | a non-200 stream raises HTTPStatusError carrying the status and headers, having only sent the request |
| TwitterStream.TwoRecordsAndKeepAlive | src/twitter_stream.py:157-160 | two records around a keep-alive chunk are logged in order, and nothing else is |
| TwitterStream.CoalescedKeepAliveIsParsed | src/twitter_stream.py:158 | "\r\n\r\n" and " " are handed to json.loads; "\n" and "" are skipped |
| TwitterStream.SyncAndStream | src/twitter_stream.py:79-82 | the imperative main() computes SyncAndStreamOutcome |
| TwitterStream.SyncAndStreamOutcome | src/twitter_stream.py:79-82 | main() begins with get_rules's trace; when get_rules, delete_all_rules or set_rules raises, main() ends there with that error, its trace being the steps run so far; it returns normally only when set_rules and get_stream did |
| TwitterStream.SyncOrder | src/twitter_stream.py:79-82 | main() requests in the order get, delete (when there is something to delete), add, stream; the kinds sent are a prefix of one of the two orders, and a normal return made all requests of one of them |
| TwitterStream.SyncStopsAtFailure | src/twitter_stream.py:79-82 | main() has no handler: a delete, add or stream request is sent only when every step before it returned normally |
| TwitterStream.FailedFetchSendsNothingElse | src/twitter_stream.py:79-80 | when get_rules raises, main() raises the same error and sends nothing after it |
| TwitterStream.RateLimitSleepsUntilReset | src/twitter_stream.py:54-58 | an attempt sleeps iff it met a 429 whose reset header is an integer not yet reached, and it sleeps until exactly that reset time |
| TwitterStream.StreamAction | src/twitter_stream.py:50-64 | the loop breaks iff main() returned; an exception leaves the loop only from the 429 handler, as KeyError or ValueError; the catch-all keeps the error it stops on |
| TwitterStream.StreamRetriesOn | src/twitter_stream.py:44-64 | normal return breaks; the loop retries iff the error is a RequestError or an HTTPStatusError that is not a 429, or a 429 with a readable reset not yet passed; the catch-all stops iff the error is neither kind, keeping it |
| TwitterStream.RateLimitWithHeader | src/twitter_stream.py:56-58 | a 429 carrying str(reset) sleeps reset - now when that is not negative, and otherwise raises ValueError out of the loop |
| TwitterStream.CreateThread | src/twitter_stream.py:29-64 | the imperative create_thread, with its while loop, computes CreateThreadOutcome (log file lookup, then Run over one attempt per run of main()) |
| TwitterStream.CreateThreadOutcome | src/twitter_stream.py:29-64 | at most one attempt per run given; a failed log file lookup raises before any attempt; the loop is still retrying iff the log file is set up and every run retried |
| TwitterStream.CreateThreadEnds | src/twitter_stream.py:44-64 | when some attempt does not retry, the thread ends on the first such attempt, with its ending, the trace of the attempts up to it, and a log_wrapper entry iff an exception escaped |
| TwitterStream.CreateThreadWithoutLogFile | src/twitter_stream.py:29-30 | without the log file option, the thread raises KeyError before any request, and the root logger records it |
| TwitterStream.RateLimitThenStream | src/twitter_stream.py:44-60 | a rate-limited run followed by a normal run sleeps until the reset time between the two and then finishes |
| TwitterStream.RateLimitWithoutHeader | src/twitter_stream.py:56-58 | a 429 without the reset header ends the thread on the first attempt with KeyError, which log_wrapper logs |
| TwitterStream.BadChunkStopsThread | src/twitter_stream.py:62-64 | a run that meets a non-JSON chunk stops the loop via the catch-all clause, and log_wrapper logs nothing |
| TwitterUser.FormatLink | src/twitter_user.py:138 | a link lookup fails with the lookup's error; a list raises AttributeError; text is formatted with the argument |
| TwitterUser.UsersUrlListsNames | src/twitter_user.py:135-138 | the users URL is the link's text around the comma-joined usernames, and that part splits back into the usernames when none holds a comma |
| TwitterUser.CreateUsersUrl | src/twitter_user.py:135-138 | a failed usernames_file lookup passes through, a list path raises TypeError, an unreadable file OSError; otherwise the user link formatted with the comma-joined lines |
| TwitterUser.TrueKeys | src/twitter_user.py:132 | a key is selected iff it is visited and its value is the text "True" |
| TwitterUser.TrueKeysAppend | src/twitter_user.py:132 | the comprehension keeps the order of the keys it visits: the selection from two runs is that of each, in order |
| TwitterUser.TrueKeysOne | src/twitter_user.py:132 | a single key is selected iff its value is the text "True" |
| TwitterUser.EnabledFields | src/twitter_user.py:131-132 | a section's enabled fields are the "True" keys among the keys its iteration visits, in that order; a missing section raises KeyError |
| TwitterUser.EnabledFieldsExact | src/twitter_user.py:131-132 | the enabled fields of a section are, once each, exactly the keys it holds or inherits whose value is "True"; a missing section raises KeyError; the joined parameter splits back into the fields |
| TwitterUser.GetUsersParams | src/twitter_user.py:130-133 | the users parameters exist iff USERFIELDS can be read, and are user.fields = the enabled fields, comma-joined |
| TwitterUser.GetTweetsParams | src/twitter_user.py:142-145 | the tweets parameters exist iff TWEETFIELDS can be read, and are tweet.fields = the enabled fields, comma-joined, and max_results = 5 |
| TwitterUser.TweetsUrlHoldsId | src/twitter_user.py:147-148 | a tweets link with one "{}" holds str(id) exactly there; a link with two raises IndexError for every id |
| TwitterUser.TweetsUrlOfNumericId | src/twitter_user.py:147-148 | a numeric id appears in the URL in decimal |
| TwitterUser.CreateTweetsUrl | src/twitter_user.py:147-148 | the tweets URL exists iff the tweets link is text that formats with str(id); a list link raises AttributeError |
| TwitterUser.ConnectToEndpoint | src/twitter_user.py:113-126 | connect_to_endpoint sends exactly one GET with the given URL and parameters |
| TwitterUser.ConnectStatus | src/twitter_user.py:119-126 | the body is returned iff the reply is a 200 response with a JSON body; another status raises HTTPStatusError with it; transport failure raises RequestError |
| TwitterUser.DataKey | src/twitter_user.py:87 | a found user is keyed by exactly item["id"]; a dict without "id" raises KeyError, an unhashable id or a non-dict TypeError |
| TwitterUser.ErrorKey | src/twitter_user.py:91 | an error is keyed by its resource_id when hashable (TypeError otherwise), by "Unknown" when it has none; a non-dict raises AttributeError |
| TwitterUser.Entries | src/twitter_user.py:86-90 | a non-dict reply raises AttributeError; a missing key visits nothing; a list visits its items; any other value that iterates visits nothing |
| TwitterUser.IndexBy | src/twitter_user.py:85-91 | the dict is built iff every item yields a key, and is then a valid ordered dict |
| TwitterUser.IndexItems | src/twitter_user.py:85-87 | the imperative dict-building loop computes IndexBy |
| TwitterUser.IndexByFailsOnce | src/twitter_user.py:86-87 | the first item whose key cannot be computed decides the error of the whole loop |
| TwitterUser.IndexByKeys | src/twitter_user.py:85-87 | the dict lists each distinct key once, in order of first appearance |
| TwitterUser.IndexByEntries | src/twitter_user.py:85-87 | under each key the dict holds the last item that gave that key |
| TwitterUser.FoundKeysHashable | src/twitter_user.py:87 | every key of the found-users dict is hashable, so it can be formatted into a URL |
| TwitterUser.IndexByEntryKeys | src/twitter_user.py:85-91 | every entry of a built dict is stored under the key its own item gives |
| TwitterUser.Partition | src/twitter_user.py:84-91 | both dicts are valid; main() partitions a reply iff reply.get("data", []) and reply.get("errors", []) iterate and every user gives an id and every error a key; a non-dict raises AttributeError; a dict without data and errors gives two empty dicts |
| TwitterUser.PartitionContents | src/twitter_user.py:84-91 | for any reply that partitions, the found users are keyed by the distinct ids of its data in first-seen order, each holding the last user with that id; the errors are keyed the same way over its errors |
| TwitterUser.PartitionKeys | src/twitter_user.py:84-91 | every found user is stored under its own "id", every error under its "resource_id", or "Unknown" when it has none |
| TwitterUser.PartitionUserAndError | src/twitter_user.py:84-91 | a reply with user "1" and an error for resource "2" gives {"1": user} and {"2": error} |
| TwitterUser.FetchAll | src/twitter_user.py:97-102 | the imperative tweets loop computes FetchPosts |
| TwitterUser.FetchOne | src/twitter_user.py:98-102 | a URL or parameter error raises before any request; a successful pass is the request followed by the logged tweets reply |
| TwitterUser.FetchPosts | src/twitter_user.py:97-102 | the tweets loop returns normally iff every pass does |
| TwitterUser.FetchOneRequest | src/twitter_user.py:98-101 | one pass sends exactly the tweets request for its id, and succeeds iff that request does |
| TwitterUser.FetchPostsSucceeds | src/twitter_user.py:97-102 | the tweets loop returns normally iff every tweets request succeeds |
| TwitterUser.FetchPostsRequests | src/twitter_user.py:97-102 | a tweets loop that returns normally sent exactly one tweets request per id, in order |
| TwitterUser.FetchPostsPrefix | src/twitter_user.py:97-102 | whatever happens, the tweets loop's requests are the first tweets requests for the ids, in order |
| TwitterUser.FetchPostsStopsAtFailure | src/twitter_user.py:97-102 | a tweets loop that raises sent at least one request, and the last one sent is the one that failed |
| TwitterUser.LookupAndFetch | src/twitter_user.py:72-102 | the imperative main() computes LookupAndFetchOutcome |
| TwitterUser.LookupAndFetchOutcome | src/twitter_user.py:72-102 | URL and parameter errors raise before any request; otherwise the users request comes first, and when it fails main() raises its error having sent only it |
| TwitterUser.LookupThenFetch | src/twitter_user.py:80-102 | when the users reply partitions, main() sends the users request and then exactly the tweets loop's requests over the found ids in dict order, ending as that loop ends |
| TwitterUser.PartitionUsers | src/twitter_user.py:84-91 | a reply holding only a list of users partitions into those users indexed by id, in first-seen order, and an empty error dict |
| TwitterUser.OneFetchPerUser | src/twitter_user.py:72-102 | for any users reply that partitions, with or without errors: the users request comes first, then tweets requests for the distinct ids of its data in first-seen order, all of them when main() returns normally |
| TwitterUser.ErrorsOnlyFetchNothing | src/twitter_user.py:89-94 | a reply with one error object without resource_id logs an empty users dict and that error under "Unknown", and fetches nothing |
| TwitterUser.DuplicateIdKeepsLast | src/twitter_user.py:86-87 | two users with the same id leave one entry holding the later user |
| TwitterUser.UserAction | src/twitter_user.py:55-65 | the user loop's handlers never raise and never sleep |
| TwitterUser.UserRetriesOn | src/twitter_user.py:55-65 | normal return breaks; the loop retries iff the error is a RequestError or any HTTPStatusError, 429 included; anything else stops it, keeping the error |
| TwitterUser.CreateThread | src/twitter_user.py:34-65 | the imperative create_thread, with its while loop, computes CreateThreadOutcome (DEFAULT log file lookup, then Run over one attempt per run of main()) |
| TwitterUser.CreateThreadOutcome | src/twitter_user.py:34-65 | at most one attempt per run given; a failed DEFAULT log file lookup raises before any attempt; a loop still retrying made every attempt |
| TwitterUser.UserThreadNeverEscapes | src/twitter_user.py:49-65 | once the log file is set up, no exception leaves the user thread, log_wrapper logs nothing when it ends, and it never sleeps |

## Left out

- The bearer-token authentication hook, the client identifier headers, the 30-second timeouts and `aclose()` are not modelled. They change nothing the core decides.
- The `asyncio` scheduling is not modelled. Each `main()` runs to completion before the loop looks at its outcome, so the runs are sequential values.
- The log text is not modelled. The trace records which value each `logger.info` call of the collectors logged, not the formatted message or the `sort_keys` JSON text.
- The `logger.error` calls of the `except` clauses in both `create_thread` loops (the failure and retry messages) leave no event in the trace. Which clause ran is recorded as the attempt's action instead.
- `json.dumps` raising on a dict whose keys mix types (for example an int id next to `"Unknown"`) is not modelled. Such dicts are logged as values.
- Logger setup is not modelled: `RotatingFileHandler` opening the file, rotation, levels and propagation. The model keeps only the lookup of the log file option and the `TypeError` for a non-text path.
- Python's `True == 1` key equality is not modelled. JSON `true` and `1` are distinct dict keys here.
- JSON floats are not modelled. JSON numbers are integers.
- `int()` accepting surrounding whitespace and digit underscores is not modelled, so `ParseInt` rejects them.
- Format specs and conversions in `str.format` fields (`{0!r}`, `{:>5}`) are not modelled, nor are attribute and index fields. Those templates raise `ValueError` in the model.
- Format: a field numbered other than 0 (`{1}`) and a named field (`{name}`) raise `ValueError` in the model, where Python raises `IndexError` and `KeyError`. Either way the URL is not built and the run ends with an exception the catch-all clause handles.
- `int(reset) - time.time()` is computed exactly. Float rounding of `time.time()` is not modelled.
- HTTP header names are looked up exactly as given, in lower case. httpx's case-insensitive lookup is assumed to have normalised them.
- Opening and reading the usernames file is the `readLines` parameter (lines as `str.splitlines` gives them, or `OSError`).
- The `while True` loops are modelled over a finite sequence of runs. An ending of `Retrying` means the loop would go on after the runs given. Runs that never return (a stream that never closes) are outside the model.
- The `__main__` blocks of both collectors, `main.py`, the command-line tool and the configured duration option are not modelled. They sit outside the collectors' core.
- `TwitterStream.Kept`: its contract states only that the filter never adds chunks. What it keeps, and in which order, is stated by `TwitterStream.KeptMembers`, `TwitterStream.KeptAppend` and `TwitterStream.KeptOne`.
- `TwitterStream.GetRules`, `TwitterStream.PostRules`, `TwitterStream.SetRulesOutcome` and `TwitterStream.GetStreamOutcome`: their own contracts state only how many requests they send and of which kind. Status handling and payloads are stated by `GetRulesStatus`, `SetRulesPayload`, `StreamRejectedBeforeReading` and the chunk-reading lemmas.
