# BSSPlus content platform: a verified model of its core

BSSPlus is a small content and chat-interaction dashboard. Its core has three parts:

- **The in-memory post store** (`BSSPlusAPI`, api.js). An ordered list of posts, newest first, with lookup by id, case-insensitive search, a category filter, create (insert at the front), update (merge and stamp the modification date) and delete (remove by id). Every mutation is mirrored into a persisted snapshot (the browser storage key `bssplus_posts`).
- **The dashboard controller** (`AIChatbotPlatform`, main.js), without its DOM work. It keeps a cache of interactions, refreshed from the server and sorted newest first. It decides which rows the tag filter and text search show, computes the statistics cards and the per-topic counts behind the top-five chart, builds the create/update request a save sends, and formats an interaction's body (one paragraph per line, `**bold**`).
- **The serverless handlers.** Each maps an HTTP request and the answer of its single store call to a response:
  - the posts handler (netlify/functions/posts.js), with validation and defaults;
  - the interactions handler (netlify/functions/interactions.js), with a CORS preflight;
  - a second, unvalidated posts handler (posts.js at the top of the repository);
  - a create-only handler (netlify/functions/create-post.js).

The Dafny modules follow that structure:

- `Options`: the `Option` type.
- `Text`: the JavaScript string operations used. These are `toLowerCase` on ASCII, `includes`, `trim`, `split` on one character, and `split(/\s+/)`. Each comes with the facts the model needs, such as split/join round trips and piece counts.
- `Seqs`: generic sequence operations and their lemmas. They cover order-preserving filtering, a descending sort, first match, first-occurrence deduplication, flat-map, and the occurrence count table that `reduce` builds, with its loop.
- `Api`: api.js. The store is a class whose `posts` and `snapshot` fields are updated by its methods.
- `Platform`: main.js. The controller is a class over the cache, the edit id and the two filter inputs. The filter, search, statistics, chart and formatter are functions with lemmas.
- `Http`: what the handlers share. This is JSON values and JavaScript truthiness, the request and response records, the store call and its reply, and the id-from-path rule.
- `NetlifyPosts`, `NetlifyInteractions`, `PostsHandler`, `CreatePost`: the four handlers. Each is a function from the request, the current time and the store's reply to the store call issued and the response returned.
- `ClientServer`: the link between the dashboard's save request and the interactions handler.

Inputs the program reads from its environment are parameters:

- the clock (`Date.now()`, today's date, the ISO time);
- the result of `parseInt` on a requested id;
- the persisted snapshot found at start;
- the `fetch` response;
- the result of `JSON.parse` on a request body;
- the store's reply.

The handlers are modelled as their code is written:

- Only posts.js adds `count` to the list answer.
- Only the interactions handler answers the `OPTIONS` preflight. The netlify posts handler and posts.js answer it with 405.
- Error and 405 answers carry no `Access-Control-Allow-Origin` header.
- The dashboard repeats the id in the body of its PUT, and the interactions handler passes it through to the store.

## Model

| member | source | states |
|---|---|---|
| Api.SamplePosts | api.js:20-45 | the sample data is two posts, with ids 1 and 2 |
| Api.BSSPlusApi.constructor | api.js:5-8 | a new store holds the persisted list when there is one, otherwise the sample posts |
| Api.BSSPlusApi.LoadData | api.js:10-18 | the list becomes the snapshot when one exists, otherwise the two sample posts |
| Api.BSSPlusApi.LoadSampleData | api.js:20-45 | the list becomes the two sample posts |
| Api.IndexOf | api.js:111 | the index found is that of the first post whose id equals the parsed id; there is none exactly when no post has it (NaN matches nothing) |
| Api.NewPost | api.js:90-97 | the new post keeps the caller's fields; the caller's id overrides the generated one; author defaults to 'API User' when missing or empty; both dates are today; status is 'published' |
| Api.Merge | api.js:113-117 | fields present in the update overwrite, absent ones keep their old value, and the modification date is today |
| Api.AnyTagIncludes | api.js:77 | true exactly when the query occurs in some lowercased tag |
| Api.Matches | api.js:74-78 | the search test throws whenever the title is missing, and only when the title, the content or the tags are missing |
| Api.MatchesMeaning | api.js:74-78 | where the search test does not throw, it accepts exactly the posts whose lowercased title, content or some tag contains the lowercased query |
| Api.Search | api.js:73-78 | the result exists exactly when no scanned post lacks a title, content or tags; it is the order-preserving subsequence of the matching posts, counted by the matching criterion |
| Api.SearchEmptyQuery | api.js:73-87 | an empty query returns every post, in order |
| Api.InCategory | api.js:158 | exactly the posts whose category equals the argument, in order |
| Api.WithoutId | api.js:139 | exactly the posts with another id, in their order |
| Api.BSSPlusApi.GetAllPosts | api.js:48-55 | the whole list, with count equal to its length |
| Api.BSSPlusApi.GetPost | api.js:57-71 | succeeds exactly when some post has the id and then returns the first such post; otherwise 'Post not found' |
| Api.BSSPlusApi.SearchPosts | api.js:73-87 | the matching posts in order, with count equal to their number and the query echoed; no result when the filter throws |
| Api.BSSPlusApi.GetPostsByCategory | api.js:157-166 | the posts of the category in order, with count equal to their number and the category echoed |
| Api.BSSPlusApi.CreatePost | api.js:89-108 | the new post is put in front of the old list, the snapshot equals the new list, and the new post is returned |
| Api.BSSPlusApi.UpdatePost | api.js:110-133 | on a hit, only the first post with the id is replaced by the merge and the snapshot follows; on a miss, list and snapshot are unchanged and 'Post not found' is returned |
| Api.BSSPlusApi.DeletePost | api.js:135-155 | on a hit, returns the first post with the id, keeps exactly the posts with other ids, and the snapshot follows; on a miss, nothing changes and 'Post not found' is returned |
| Api.CreateShifts | api.js:89-99 | after a create, the list is one longer, every old post has moved up one place unchanged, and looking up the new id finds index 0 |
| Api.UpdateTouchesOne | api.js:110-117 | an update keeps the length and every other post, and stamps today on the updated one |
| Api.DeleteRemovesAll | api.js:135-148 | after a delete no post with the id remains, so a second delete misses |
| Api.DeleteShrinks | api.js:136-139 | a delete on a hit makes the list strictly shorter |
| Text.Includes | main.js:264-266 | `includes` is true exactly when the term occurs as a contiguous substring |
| Text.Trim | main.js:255 | the trimmed string starts and ends with a non-space and is a contiguous piece of the original |
| Text.Split | main.js:255 | `split` on a character gives at least one piece, none containing the separator |
| Text.JoinSplit | main.js:255 | joining the pieces of a split gives back the string |
| Text.SplitJoin | main.js:255 | splitting a join of separator-free pieces gives back the pieces |
| Text.SplitSpacesMeaning | main.js:280 | splitting on runs of white space gives one piece more than there are runs, and the pieces hold exactly the non-space characters |
| Seqs.Filter | main.js:149-151 | `filter` keeps, in order, exactly the elements that pass, and as many as pass |
| Seqs.FirstWhere | main.js:60 | `find` gives the first index whose element passes, or none when no element passes |
| Seqs.SortDesc | main.js:43 | the sort orders by non-increasing key and is a permutation |
| Seqs.Dedup | main.js:299 | the object's keys, in first-insertion order, contain no duplicates and are values of the input |
| Seqs.DedupKeepsAll | main.js:299 | every counted value is one of the keys |
| Seqs.FlatMapMembers | main.js:274 | a value occurs in the flat map exactly when some element's piece contains it |
| Seqs.Tally | main.js:295-303 | the count table gives every tag occurrence's true count, keyed in first-occurrence order |
| Seqs.TallyInto | main.js:297-300 | adding one interaction's tags keeps the table the true count of all tags seen |
| Platform.Normalize | main.js:255 | every piece is trimmed and lowercased, in order |
| Platform.TagList | main.js:255 | an empty tag string has no tags; any other has one per comma-separated piece |
| Platform.TagListOfJoin | main.js:255 | the tags of a comma-joined list are its entries trimmed and lowercased |
| Platform.FilterAcceptsEntries | main.js:251-257 | a filter other than '' and 'all' accepts exactly when one of the comma-separated entries, trimmed and lowercased, equals the lowercased filter |
| Platform.SearchResult | main.js:260-269 | the search throws exactly when the term is non-empty and the title or the content is missing; an empty term accepts everything |
| Platform.SearchAcceptsMeaning | main.js:260-269 | the search accepts exactly when the term is empty or, with title and content present, the term occurs ignoring case in the title, the content or the whole tag string |
| Platform.Project | main.js:149-151 | no rows exactly when the search throws on a row the tag filter kept; otherwise the rows shown are the single filter of the cache by both tests: the order-preserving subsequence passing both, with every repetition, as many as pass |
| Platform.ProjectIdempotent | main.js:149-151 | filtering the shown rows again changes nothing |
| Platform.ProjectCleared | main.js:390-394 | with filter 'all' and an empty search, every cached interaction is shown in order |
| Platform.ViewOf | main.js:153-156 | an empty result shows the placeholder, otherwise the rows |
| Platform.SaveRequest | main.js:67-82 | an empty form id gives POST to the collection with title, content and tags; any other id gives PUT to collection/id with the id added to the body |
| Platform.TagSetMembers | main.js:274 | a tag is among the distinct tags exactly when some interaction carries it |
| Platform.WordCountRuns | main.js:280 | a non-empty content counts one word more than it has runs of white space |
| Platform.RoundedRatio | main.js:281 | the average is within half a unit of the true mean, with halves rounded up |
| Platform.RoundedRatioUnique | main.js:281 | only one integer meets those bounds |
| Platform.Stats | main.js:272-281 | the cards show the interaction count, the number of distinct tags, 5 users, and the rounded mean word count (0 for no interactions) |
| Platform.PropertyOrder | main.js:306 | `Object.entries` lists exactly the tag keys, each as often as inserted (once) |
| Platform.Entries | main.js:306 | one entry per key carrying that key's count |
| Platform.TopFive | main.js:306-308 | at most five entries, as many as there are up to five, by non-increasing count, and all taken from the entries |
| Platform.TopFiveCorrect | main.js:305-311 | the chart is as long as there are distinct tags, up to 5, and ordered by non-increasing count; each slice names a distinct tag with its true count; no omitted tag outnumbers the last slice |
| Platform.CloseAt | main.js:402 | the lazy match ends at the first `**` after its start unless a line terminator comes first |
| Platform.ReplaceBold | main.js:402 | text without `**` is left unchanged |
| Platform.ReplaceBoldWrapped | main.js:402 | a single-line, star-free text between `**` pairs becomes a strong element |
| Platform.FormatPlainLine | main.js:397-404 | a one-line, star-free body becomes one paragraph of its trimmed text |
| Platform.FormatStarFree | main.js:397-404 | a non-empty body without stars becomes one paragraph per line, in order, each line trimmed |
| Platform.NewestFirst | main.js:43 | the cache is sorted newest first and is a permutation of the data |
| Platform.AIChatbotPlatform.constructor | main.js:3-5 | the controller starts with an empty cache and nothing being edited |
| Platform.AIChatbotPlatform.LoadInteractions | main.js:29-56 | a successful envelope replaces the cache by its data sorted newest first; a network error, a non-ok status, an unreadable body or `success: false` leaves the cache as it was |
| Platform.AIChatbotPlatform.GetInteractionById | main.js:59-61 | the first cached interaction with the id, or nothing exactly when none has it |
| Platform.AIChatbotPlatform.EditInteraction | main.js:195-198 | the edit id becomes the argument, and the interaction shown is the one the lookup finds |
| Platform.AIChatbotPlatform.CloseModal | main.js:412-418 | the edit id is cleared |
| Platform.AIChatbotPlatform.FinishMutation | main.js:97-103 | on a reported success the edit id is cleared and the cache reloaded; otherwise nothing changes |
| Platform.AIChatbotPlatform.RenderInteractions | main.js:143-156 | the table is left empty exactly when the search throws on a row the tag filter kept; otherwise the placeholder appears exactly when no cached interaction passes, and the rows are the filter of the cache by both tests, in order and with every repetition |
| Platform.AIChatbotPlatform.ClearFilters | main.js:390-394 | the search is emptied, the filter set to 'all', and the whole cache is shown |
| Platform.AIChatbotPlatform.UpdateStats | main.js:272-281 | the cards computed from the current cache |
| Platform.AIChatbotPlatform.UpdateTopicChart | main.js:291-311 | the chart data is a correct top-five of the tag occurrence counts (the `IsTopChart` properties above) |
| Http.Or | netlify/functions/posts.js:53-54 | `x \|\| fallback` is x when truthy, otherwise the fallback |
| Http.Segments | netlify/functions/posts.js:14 | the segments are the order-preserving subsequence of the slash-separated pieces, as many as there are non-empty pieces; none is empty or contains a slash |
| Http.ExtractId | netlify/functions/posts.js:14-15 | there is an id exactly when the path has more than two non-empty segments; it is non-empty and slash-free |
| Http.ExtractIdIsLast | netlify/functions/posts.js:14-15 | the id is the last non-empty piece of the path |
| Http.ExtractIdOfResource | netlify/functions/interactions.js:14-15 | a path /prefix/collection/name yields the id name |
| Http.ExtractIdOfCollection | posts.js:14-15 | a path /prefix/collection yields no id |
| Http.FirstRow | netlify/functions/posts.js:60 | `data[0]` is the first row of an array (undefined when empty) and throws exactly on null |
| Http.Length | posts.js:33 | `data.length` is the array's length and throws exactly on null |
| NetlifyPosts.NewRow | netlify/functions/posts.js:48-56 | the row holds exactly title, content, category (default 'general'), author (default 'Manager') and status 'published', all truthy |
| NetlifyPosts.Changes | netlify/functions/posts.js:68-77 | the update is the body without id and with modified_date set to now |
| NetlifyPosts.Read | netlify/functions/posts.js:24-35 | GET always calls the store; its answer follows the shared answer rules |
| NetlifyPosts.Create | netlify/functions/posts.js:41-62 | POST calls the store exactly for a parsed object with a truthy title and content |
| NetlifyPosts.Update | netlify/functions/posts.js:67-83 | PUT with an id calls the store exactly when the body parses to an object |
| NetlifyPosts.Remove | netlify/functions/posts.js:88-96 | DELETE with an id deletes that record |
| NetlifyPosts.Handle | netlify/functions/posts.js:11-132 | the status is one of 200, 201, 400, 405, 500; a success follows a successful store call and carries the CORS header; nothing else does; a failing store call gives 500 with its message; 405 is exactly the refusal |
| NetlifyPosts.GetReads | netlify/functions/posts.js:24-35 | GET reads one post by id, or all posts by created_date descending, and answers 200 with the data |
| NetlifyPosts.PostValidates | netlify/functions/posts.js:42-45 | a POST without a truthy title or content gets 400 and no store call |
| NetlifyPosts.PostInserts | netlify/functions/posts.js:48-61 | a valid POST inserts exactly the defaulted row and answers 201 with the first row |
| NetlifyPosts.PutStampsAndStrips | netlify/functions/posts.js:67-79 | a PUT with an id updates that record with the body without id, stamped with now |
| NetlifyPosts.RefusedWithoutCall | netlify/functions/posts.js:101-107 | PUT or DELETE without an id, and every other method, get 405 and no store call |
| NetlifyPosts.ReplyUnusedWithoutCall | netlify/functions/posts.js:17-107 | when no store call is made, the store's reply cannot change the response |
| NetlifyPosts.ParseErrorIsServerError | netlify/functions/posts.js:120-130 | a body that does not parse gives 500 with the parser's message and no store call |
| Http.StampedSuccess | netlify/functions/interactions.js:109-117 | a success keeps the branch's fields and adds success and timestamp, with the CORS header (posts.js builds it the same way) |
| NetlifyInteractions.Read | netlify/functions/interactions.js:38-50 | GET always calls the store; its answer follows the shared answer rules |
| NetlifyInteractions.Create | netlify/functions/interactions.js:55-67 | POST with a body calls the store exactly when the body parses |
| NetlifyInteractions.Update | netlify/functions/interactions.js:72-84 | PUT with an id and a body calls the store exactly when the body parses |
| NetlifyInteractions.Remove | netlify/functions/interactions.js:89-97 | DELETE with an id deletes that record |
| NetlifyInteractions.Handle | netlify/functions/interactions.js:11-130 | OPTIONS, and only OPTIONS, gets the 204 preflight; a success follows a successful store call and carries the CORS header; 405 and 500 carry no headers; a failing store call gives 500 with its message |
| NetlifyInteractions.PreflightWithoutCall | netlify/functions/interactions.js:22-32 | the preflight makes no store call |
| NetlifyInteractions.PostInsertsBody | netlify/functions/interactions.js:55-66 | a POST with a body inserts the parsed body unchanged and answers 201 with the first row |
| NetlifyInteractions.PutPassesBody | netlify/functions/interactions.js:72-83 | a PUT with an id and a body updates that record with the parsed body unchanged |
| NetlifyInteractions.MissingDataRefused | netlify/functions/interactions.js:102-107 | POST without a body, PUT without an id or body, DELETE without an id, and unknown methods get 405 and no store call |
| NetlifyInteractions.SuccessStamped | netlify/functions/interactions.js:109-117 | every success carries success: true and the timestamp now |
| NetlifyInteractions.ReplyUnusedWithoutCall | netlify/functions/interactions.js:17-107 | when no store call is made, the store's reply cannot change the response |
| PostsHandler.DatePartOfIso | posts.js:57 | the date stamp of an ISO time is the part before the T |
| PostsHandler.DatePart | posts.js:57 | the stamp is the prefix of the ISO time before its first T (all of it when there is none) and holds no T |
| PostsHandler.Stamp | posts.js:56-57 | setting modified_date adds that field to an object body and throws on null or on a parse error |
| PostsHandler.Read | posts.js:23-35 | GET always calls the store and never answers 201 |
| PostsHandler.Create | posts.js:40-50 | POST answers 201 or 500 |
| PostsHandler.Update | posts.js:55-67 | PUT with an id never answers 201 |
| PostsHandler.Remove | posts.js:72-80 | DELETE with an id deletes that record and never answers 201 |
| PostsHandler.Handle | posts.js:10-112 | the status is 200, 201, 405 or 500; 201 only for POST; a success follows a successful store call and carries the CORS header; 405 and 500 carry no headers; a failing store call gives 500 with its message |
| PostsHandler.ListCounts | posts.js:29-34 | the list answer carries the rows and their number |
| PostsHandler.SuccessStamped | posts.js:92-99 | every success carries success: true and the timestamp now |
| PostsHandler.ListOfNullFails | posts.js:31-34 | a list answered with null fails on `data.length` with 500 |
| PostsHandler.PostInsertsUnvalidated | posts.js:40-49 | POST inserts the parsed object as it is, without validation |
| PostsHandler.PutStampsDate | posts.js:55-66 | a PUT with an id stamps the body with the date part of the ISO time |
| PostsHandler.PutOfNullFails | posts.js:56-57 | a PUT whose body is null answers 500 without a store call |
| PostsHandler.RefusedWithoutCall | posts.js:85-90 | PUT or DELETE without an id, and every other method, get 405 and no store call |
| PostsHandler.ReplyUnusedWithoutCall | posts.js:17-90 | when no store call is made, the store's reply cannot change the response |
| CreatePost.NewRow | netlify/functions/create-post.js:25-36 | the row holds exactly title, content, category (default 'general') and author (default 'Manager') |
| CreatePost.Handle | netlify/functions/create-post.js:9-55 | 405 exactly for a method other than POST; a store call exactly for a POST whose body is an object with a truthy title and content; 201 only after a successful call; every 500 is the fixed 'Failed to create post'; no response has headers |
| CreatePost.PostInserts | netlify/functions/create-post.js:25-47 | a valid POST inserts exactly the defaulted row and answers 201 with the first row |
| CreatePost.PostValidates | netlify/functions/create-post.js:20-22 | a POST without a truthy title or content gets 400 and no store call |
| CreatePost.FailuresLookAlike | netlify/functions/create-post.js:48-54 | the store's error message never reaches the response |
| ClientServer.BodyFields | main.js:72-82 | the save body holds title, content and tags, plus the id on an edit |
| ClientServer.CreateIsInserted | main.js:67-93 | a save from an empty form makes the interactions handler insert the form's fields |
| ClientServer.EditPathId | main.js:79-80 | the URL of an edit yields, at the handler, exactly the form's id |
| ClientServer.EditUpdatesThatRecord | main.js:79-93 | a save of an edited interaction makes the handler update the record with the form's id |

## Left out

- DOM and presentation are not modelled: HTML building, modals, notifications, animations, the ECharts calls and the particle background. The model stops at the data that would be shown.
- `checkAuthentication`, `logout`, the `window` wrappers and the page bootstrap are not modelled. They are storage flag checks, redirects and global glue.
- `viewInteraction` and `confirmDeleteInteraction` are not modelled. They only fill the DOM.
- The Express routes of api.js and the browser global are one-line pass-throughs and are not modelled.
- netlify/functions/get-posts.js is not part of this model. It is a single query behind a method guard.
- The store (Supabase) is an oracle. A handler's reply is a parameter, and nothing is claimed about ordering, generated ids, timestamps or `.single()`.
- `fetch`, `async`/`await`, `JSON.parse` and `JSON.stringify` are not executed:
  - a fetch result is given as a value;
  - a parse result is given as an object, `null` or a syntax error with its message;
  - serialisation is not modelled, including key order, `undefined` members and the omission of `data` when `data[0]` is undefined (which `WithOptional` models only in part).
- Request bodies that parse to an array, a string, a number or a boolean are not modelled. The handlers' property reads on them are not modelled either.
- A missing request body is taken to parse to `null` (`JSON.parse(null)`), not to `undefined`.
- The clock is a parameter: `Date.now()`, today's date and the ISO time.
- `Api.NewPost`: the generated id is the given `now`. Two creates in the same millisecond are not told apart.
- `Text.ToLower` lowercases ASCII letters only. Unicode case mapping is not modelled.
- The loose `==` of `getInteractionById` is modelled on integer ids only.
- `Api.HasId` takes `parseInt(id)` as a given optional integer, so string-to-number conversion is not modelled.
- `Http.Value` has integer numbers only. Floating point is not modelled.
- Property names such as `__proto__` in the tag counts, and numeric keys beyond the array-index rule, are not modelled beyond `Platform.PropertyOrder`.
- `Platform.PropertyOrder` states only that every key appears once. The positions of the array-index keys are what its definition computes.
- The error messages of thrown `TypeError`s are written as V8 phrases them. They are not part of any contract beyond being carried into the 500 answer.
- `Api.Post`: caller fields are assumed to have their JSON types. A string id such as `"7"`, which `createPost` would store and no lookup by `===` could then find, is not modelled.
- `Api.Merge`: a field given as `null` in an update is treated as absent, so the old value is kept. The code overwrites it with `null`, after which `searchPosts` throws on that post.
- `Platform.Interaction`: a title or content holding a non-string value (a number, say) is not modelled. Only a missing or `null` one is, which makes the search throw.
- `Seqs.SortDesc`: the order among equal keys is what its definition computes (earlier elements first, as JavaScript's sort keeps them). No lemma states it.
- `Http.FirstRow`: on a string it gives the first character, where JavaScript gives the first UTF-16 code unit. On an object with the key "0" it gives undefined, where JavaScript reads that key.
- `Platform.NewestFirst`: rows are assumed to carry `created_date`. The interactions table is ordered by `created_at` (netlify/functions/interactions.js:46). For rows without `created_date` the client comparator (main.js:43) yields NaN, so the client sort keeps the server's order. Invalid dates in general are not modelled: creation times are integers.
- Console logging is not modelled.
- api.js's `timestamp` field is left to the caller's clock and is not part of the `Api.Envelope`.
