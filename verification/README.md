# CineMind core, modelled in Dafny

CineMind is a film-production assistant. A React front end talks to an Express server backed by two MySQL tables, `users` and `script_analysis`. This project models the parts of it that carry behaviour:

- **Server handlers.** Login with auto-registration, script analysis with persistence, the per-user history, dashboard counts, footage search and the creative-intent fallback.
  - The tables and their constraints (UNIQUE email, AUTO_INCREMENT ids, the foreign key) are held in memory.
  - Each handler is a step function from the old tables to the new tables plus the reply.
  - `ServerStore.Database` performs the same steps in place, and its methods are proved equal to the step functions.
- **Session state** (`AppContext.jsx`). Login, logout and navigation over the `user` value and `localStorage`, and the restore of the user after a reload.
- **Routing** (`App.jsx`, `Sidebar.jsx`). The total map from `activeTab` to the view shown.
- **Components that change state step by step.**
  - Script upload and the mapping of the server's answer onto the displayed result.
  - The scene-intent quality gate and its answer mapping.
  - The history screen's search filter and counts.
  - The storyboard's append and delete.
  - The sentiment tracker's progress interval, character detection and bounded history.

Where the source works on JavaScript values, the model does too. `Json.Value` is a JSON document. `Option<Value>` is a value that may be `undefined`. `Json.Field` is property access, `Json.Truthy` and `Json.OrElse` are `||`, `Json.TemplateText` is `${…}` conversion, `Json.Serialize` is `JSON.stringify`, and `Json.Parse` is `JSON.parse` for documents whose numbers are integers, with whitespace allowed between tokens. The two are proved to round-trip.

Each component is a `class` with the component's state as fields. Where a handler `await`s a request, it becomes two methods:

- one runs up to the request and returns what is sent;
- the other takes how the request settled (`Resolved`, `Failed`, …) and applies the outcome.

Timers become one step each. The clock (`now`), random draws and the store's failures (`fault`) are parameters.

An empty footage query returns all four clips: the handler filters with `includes('')`, which is true for every clip (`ServerStore.SearchClipsEmptyQuery`).

## Model

| member | source | states |
|---|---|---|
| ServerStore.EmptyTablesValid | server/db.js:32-55 | Freshly created tables satisfy every constraint: unique emails (case-insensitive), increasing AUTO_INCREMENT ids, and analyses that name existing users. |
| ServerStore.FindByEmail | server/index.js:49 | The index found is the first user whose email equals the given one ignoring case; `None` means no user has it. |
| ServerStore.LoginKeepsValid | server/index.js:45-72 | Every login, successful or failing, keeps the table constraints, so emails stay unique. |
| ServerStore.LoginRegistersUnseenEmail | server/index.js:52-58 | An unseen email adds exactly one user: the next id, the text before the first '@' as name, role 'Director'. The reply describes that user with token 'mock-jwt-token'; analyses are untouched. |
| ServerStore.LoginReturnsStoredUser | server/index.js:59-68 | A known email changes nothing and returns the stored id, name, email and role, whatever the password. |
| ServerStore.LoginTwiceSameUser | server/index.js:45-68 | Two logins with the same email, with any passwords, return the same user id; the second adds nothing and the pair adds at most one row. |
| ServerStore.LoginToken | server/index.js:64-70 | The login succeeds exactly when the store does not fail, and every success carries 'mock-jwt-token'. |
| ServerStore.CharactersJson | server/index.js:82-86 | The encoded character list has one document per character, in order. |
| ServerStore.LocationsJson | server/index.js:87-90 | The encoded location list has one document per location, in order. |
| ServerStore.CharacterRoundTrip | server/index.js:83-85 | A character document decodes back, by member name, to the character. |
| ServerStore.LocationRoundTrip | server/index.js:88-89 | A location document decodes back to the location. |
| ServerStore.CharactersRoundTrip | server/index.js:82-86 | A list of character documents decodes back to the list. |
| ServerStore.LocationsRoundTrip | server/index.js:87-90 | A list of location documents decodes back to the list. |
| ServerStore.ResultRoundTrip | server/index.js:81-93 | The analysis result document decodes back to the result. |
| ServerStore.UserIdParam | server/index.js:77 | An absent or empty `userId` field means user 1. |
| ServerStore.AnalyzeKeepsValid | server/index.js:95-111 | Every analysis request keeps the table constraints, the foreign key included. |
| ServerStore.AnalyzeAppendsOneRecord | server/index.js:97-100 | For an existing user, exactly one record is appended and earlier records and all users are unchanged. The record has the caller's user id (1 by default), the uploaded name ('Mock Script' by default), tone 'Neo-Noir' and risk 35. |
| ServerStore.AnalyzeFailureChangesNothing | server/index.js:95-111 | A failed request leaves both tables unchanged. It fails exactly when the store fails, the user id is not an integer, or no user has that id. |
| ServerStore.InsertedTextParses | server/index.js:99 | The stored `JSON.stringify` text parses to the result document, which decodes to the result. |
| ServerStore.ReplySpreadsResult | server/index.js:103-107 | The reply spreads the result between `success: true` and `message`: every other key reads as in the result, `riskScore` included. |
| ServerStore.AnalyzeStoredMatchesReply | server/index.js:97-107 | What is stored is what is replied: the stored document decodes to the reply's result, and the stored risk is the reply's `riskScore`. |
| ServerStore.InsertNewestFirst | server/index.js:139 | Inserting a record keeps newest-first order and adds exactly that record to the multiset of records. |
| ServerStore.HeadStaysNewest | server/index.js:139 | A record no older than the inserted one and than all that follow it stays in front, with newest-first order kept. |
| ServerStore.SearchClipsExact | server/index.js:203-208 | The search keeps exactly the clips whose lowercased description contains the lowercased query at some position, in the original order. |
| ServerStore.SearchClipsEmptyQuery | server/index.js:208 | An empty query keeps every clip. |
| ServerStore.CreativeIntentFallback | server/index.js:152-174 | The client receives either the fixed fallback or the model's parsed document. It receives the document exactly when a client exists and the call and the parse of its content succeed. Without a client it receives the fallback whatever the call would have done. |
| ServerStore.PlaceholderKeyHasNoClient | server/index.js:8-10 | The key 'your_key_here' counts as no key, so the fallback is sent. |
| ServerStore.FallbackHasNoSubtext | server/index.js:169-174 | The fallback has mood 'Noir' and soundscape 'Rhythmic, Industrial', and no `subtext` member. |
| ServerStore.Database.constructor | server/db.js:32-55 | A new store has both tables empty and both counters at 1. |
| ServerStore.Database.FindUser | server/index.js:49 | The scan returns the first user whose email matches ignoring case, as `FindByEmail` specifies. |
| ServerStore.Database.Login | server/index.js:45-72 | The new tables and the reply are those of `LoginStep`, and the table constraints hold afterwards. |
| ServerStore.Database.Analyze | server/index.js:75-112 | The new tables and the reply are those of `AnalyzeStep`, and the table constraints hold afterwards. |
| ServerStore.Database.History | server/index.js:135-146 | The reply lists newest first exactly the records of the requested user (1 by default), as a multiset. A store failure gives 'Database fetch error: ' plus its message. |
| ServerStore.Database.DashboardStats | server/index.js:178-195 | The reply is exactly `StatsFor` of the two table sizes: 'Scripts Analyzed' and 'Active Users' with the counts as `toString()` writes them, which read back as the counts, then the fixed 'Neural Frames' '1,240' and 'Rendering Time' '14.2h', with their fixed trends, colors and icons. A store failure gives 'Stats error: ' plus its message. |
| ServerStore.FindByEmailIsFirst | server/index.js:49 | An index that is the first match, or no index when there is no match, is what `FindByEmail` returns. |
| AppSession.LoginResultOf | src/context/AppContext.jsx:13-26 | Login succeeds exactly when the reply's `success` is truthy. A `null` body fails with the message of the `TypeError` that reading `success` throws. Any other refused reply gives its `message` or 'Login failed'; a thrown error gives its message or 'Server connection failed'. |
| AppSession.Session.constructor | src/context/AppContext.jsx:7-11 | The session starts on 'dashboard' with the stored user parsed from `localStorage`, or `null` when nothing is stored. |
| AppSession.Session.Login | src/context/AppContext.jsx:13-26 | An accepted reply makes its `user` the session user and stores its JSON under 'cineMindUser'. Anything else changes neither the user nor storage. The result is `LoginResultOf`. |
| AppSession.Session.Logout | src/context/AppContext.jsx:28-32 | Logout sets the user to null, removes the stored key, returns to 'dashboard' and signs out. |
| AppSession.Session.NavigateTo | src/context/AppContext.jsx:34-37 | Only the active tab changes. |
| AppSession.LoggedInExactly | src/context/AppContext.jsx:46 | Signed in exactly when the user is truthy: never for null or undefined, always for an object. |
| AppSession.ReloadRestoresUser | src/context/AppContext.jsx:8-11 | After storing a user, a reload restores exactly that user. |
| AppSession.ReloadAfterLogout | src/context/AppContext.jsx:28-32 | After logout, a reload starts signed out. |
| AppSession.MissingUserIsNotRestorable | src/context/AppContext.jsx:17-19 | An accepted reply without `user` stores the text 'undefined', which the next mount cannot parse. |
| AppSession.UserIdTextReachesServer | src/components/ScriptAnalysis.jsx:41 | The `user?.id \|\| 1` text sent by the upload and the history fetch reaches the server as the user's id, or as 1 without a user. |
| AppSession.ServerLoginSignsIn | src/services/apiService.js:9-21 | A server login success is accepted, its user summary becomes the session user, and a reload restores it. A server failure is reported with the server's message. |
| AppRouting.SignedOutShowsAuth | src/App.jsx:19-24 | Signed out, the sign-in screen is shown whatever the tab; signed in, it never is. |
| AppRouting.EachViewHasItsTab | src/App.jsx:26-48 | Every content view is reached from its own tab id. |
| AppRouting.EachTabItsOwnView | src/App.jsx:26-48 | No tab shows the sign-in screen, and a content view is reached from no id but its own, except the dashboard, which is also the default. |
| AppRouting.UnknownTabShowsDashboard | src/App.jsx:47 | A tab id the switch does not name shows the dashboard. |
| AppRouting.SidebarTabsAreCases | src/components/Sidebar.jsx:27-46 | Every id the sidebar and its settings button navigate to is an explicit case of the switch. |
| SceneIntent.GateOf | src/components/SceneIntentEngine.jsx:34-41 | A blank snippet is ignored. Otherwise it is rejected exactly when it is under 50 characters and contains neither 'INT.' nor 'EXT.', and sent in every other case. |
| SceneIntent.HeadingIsSent | src/components/SceneIntentEngine.jsx:37 | A snippet starting with 'INT.' or 'EXT.' is sent, however short. |
| SceneIntent.HeadingAnywhereIsSent | src/components/SceneIntentEngine.jsx:37 | A scene heading anywhere in the snippet lets it through. |
| SceneIntent.LongSnippetIsSent | src/components/SceneIntentEngine.jsx:37 | A non-blank snippet of 50 or more characters is sent. |
| SceneIntent.MapIntent | src/components/SceneIntentEngine.jsx:51-79 | The answer maps exactly when it is not null. The second soundscape entry is always 'Distant Subway Screech'. |
| SceneIntent.MappedFieldsOrDefaults | src/components/SceneIntentEngine.jsx:52-54 | Each of mood, subtext, visualTone and soundscape shows the answer's field when it is truthy, and its fixed default otherwise. |
| SceneIntent.FallbackAnswerDisplay | src/components/SceneIntentEngine.jsx:52-72 | The server's fallback shows as mood 'Noir', tone 'Cyberpunk Aesthetic' and sound 'Rhythmic, Industrial', with the default subtext. |
| SceneIntent.IntentEngine.constructor | src/components/SceneIntentEngine.jsx:28-31 | The engine starts empty: no snippet, not analysing, no intent, no error. |
| SceneIntent.IntentEngine.SetSnippet | src/components/SceneIntentEngine.jsx:28 | Only the snippet changes. |
| SceneIntent.IntentEngine.Submit | src/components/SceneIntentEngine.jsx:33-45 | A request is sent exactly when the gate says so. A rejection shows the fixed error and clears the intent. A send starts analysing and clears both. |
| SceneIntent.IntentEngine.Settle | src/components/SceneIntentEngine.jsx:47-84 | A non-null answer is mapped and shown; a failure or a null answer shows 'Brain Synthesis Failed'. Analysing ends either way. |
| ScriptUpload.MapCast | src/components/ScriptAnalysis.jsx:50-55 | The cast maps, one entry per element in order, exactly when no element is null. |
| ScriptUpload.MapLocations | src/components/ScriptAnalysis.jsx:56 | The locations map, one entry per element in order, exactly when no element is null. |
| ScriptUpload.MapResultShape | src/components/ScriptAnalysis.jsx:46-63 | A mapped result has one cast entry per answer character (its name and casting, 18 scenes, 'Conflicted') and one 'Interior'/'Night' entry per location. The risk detail quotes `riskScore`. |
| ScriptUpload.ServerBodyFields | src/components/ScriptAnalysis.jsx:50-62 | The server's reply carries the characters, locations, riskScore and castingNotes that the mapping reads. |
| ScriptUpload.ServerCast | src/components/ScriptAnalysis.jsx:50-55 | The server's characters map to cast entries with their names and castings, in order. |
| ScriptUpload.ServerLocations | src/components/ScriptAnalysis.jsx:56 | The server's locations map to entries with their names, in order. |
| ScriptUpload.ServerReplyDisplays | src/components/ScriptAnalysis.jsx:43-63 | The server's reply maps without error to the server's cast and locations. The detail reads 'Base Risk: ' + the risk score + '%', and the notes are the server's. |
| ScriptUpload.ScriptPanel.constructor | src/components/ScriptAnalysis.jsx:25-28 | The panel starts idle, with no result, no drag and no file name. |
| ScriptUpload.ScriptPanel.StartAnalysis | src/components/ScriptAnalysis.jsx:31-43 | No file does nothing. A file records its name, starts analysing, clears the result and sends the file with `user?.id \|\| 1`. |
| ScriptUpload.ScriptPanel.FinishAnalysis | src/components/ScriptAnalysis.jsx:43-69 | A mappable answer becomes the result. A failure or a throwing mapping keeps the old one. Analysing ends either way. |
| ScriptUpload.ScriptPanel.OnDragOver | src/components/ScriptAnalysis.jsx:71-74 | Only the dragging flag is set. |
| ScriptUpload.ScriptPanel.OnDragLeave | src/components/ScriptAnalysis.jsx:76-78 | Only the dragging flag is cleared. |
| ScriptUpload.ScriptPanel.OnDrop | src/components/ScriptAnalysis.jsx:80-89 | A PDF, '.txt' or '.fdx' file starts an analysis. Anything else raises the fixed alert and starts nothing. Dragging ends either way. |
| ScriptUpload.ScriptPanel.OnFileSelect | src/components/ScriptAnalysis.jsx:91-94 | Any chosen file starts an analysis, whatever its type. |
| ScriptUpload.DropTestExamples | src/components/ScriptAnalysis.jsx:84 | The drop test is case-sensitive and type-based: 'SCRIPT.TXT' and a Word file are refused, an '.fdx' of any type is accepted. |
| HistoryView.FilterHistoryExact | src/components/ProductionHistory.jsx:40-43 | The shown records are exactly those whose lowercased file name or tone contains the lowercased search text, in fetched order. |
| HistoryView.EmptyFilterKeepsAll | src/components/ProductionHistory.jsx:40-43 | An empty search box shows every record. |
| HistoryView.FilterHistoryIdempotent | src/components/ProductionHistory.jsx:40-43 | Filtering the shown list again with the same text changes nothing. |
| HistoryView.ToneSearchShowsServerRecords | src/components/ProductionHistory.jsx:42 | Records stored by the server have tone 'Neo-Noir', so a search for 'noir' in any case shows all of them. |
| HistoryView.CountDefaults | src/components/ProductionHistory.jsx:89-94 | The count is the array's length when the analysis has one under the key. It is 0 when there is no analysis, the text does not parse, or the key is missing. |
| HistoryView.ServerRecordCounts | src/components/ProductionHistory.jsx:128-131 | A stored analysis record shows as many characters and locations as the result has, whether it arrives as a document or as its text. |
| HistoryView.HistoryPanel.constructor | src/components/ProductionHistory.jsx:20-22 | The panel starts with no records, loading, and an empty search box. |
| HistoryView.HistoryPanel.SetFilter | src/components/ProductionHistory.jsx:22 | Only the search text changes. |
| HistoryView.HistoryPanel.BeginFetch | src/components/ProductionHistory.jsx:28-31 | The fetch starts loading and asks for `user?.id \|\| 1`. |
| HistoryView.HistoryPanel.FinishFetch | src/components/ProductionHistory.jsx:31-38 | The answer's `history` becomes the list, or [] when it has none. An error keeps the list. Loading ends either way. |
| Storyboard.AppendFrameAddsOne | src/components/StoryboardGenerator.jsx:32-38 | Generation adds exactly one frame, at the end, titled 'New Scene Frame' and described by the prompt. The earlier frames are unchanged. |
| Storyboard.DeleteFrameExact | src/components/StoryboardGenerator.jsx:44-46 | Deleting removes every frame with the id and keeps every other frame, in order and with its multiplicity. |
| Storyboard.DeleteAbsentId | src/components/StoryboardGenerator.jsx:45 | Deleting an id no frame has leaves the list unchanged. |
| Storyboard.DeleteDuringGenerationIsUndone | src/components/StoryboardGenerator.jsx:38 | The append uses the frames captured at the click, so a frame deleted during generation is back afterwards. |
| Storyboard.StoryboardPanel.constructor | src/components/StoryboardGenerator.jsx:19-24 | The panel starts with an empty prompt, not generating, and the two initial frames. |
| Storyboard.StoryboardPanel.SetPrompt | src/components/StoryboardGenerator.jsx:19 | Only the prompt changes. |
| Storyboard.StoryboardPanel.Generate | src/components/StoryboardGenerator.jsx:26-28 | A blank prompt does nothing. Otherwise generation starts and the current frames and prompt are captured. |
| Storyboard.StoryboardPanel.Complete | src/components/StoryboardGenerator.jsx:31-41 | The frames become the captured frames plus the new one; the prompt is cleared and generation ends. |
| Storyboard.StoryboardPanel.Delete | src/components/StoryboardGenerator.jsx:44-46 | The frames become those without the id; nothing else changes. |
| Sentiment.ActiveAt | src/components/SentimentAnalysis.jsx:84-88 | At time t, the Protagonist is active iff 2 < t < 8, the Antagonist iff 5 < t < 12 and the Mentor iff 10 < t < 18. The list keeps that order and has at most 3 entries. |
| Sentiment.OverlapsKeepOrder | src/components/SentimentAnalysis.jsx:84-88 | In the overlaps, both characters are listed in the fixed order; before 2 s and from 18 s on, nobody is. |
| Sentiment.Detect | src/components/SentimentAnalysis.jsx:84-88 | The pushed list is the active characters in order, the k-th with the emotion of the k-th draw. |
| Sentiment.NextHistory | src/components/SentimentAnalysis.jsx:93-97 | A tick's new history has at most 16 readings and ends with the new reading. |
| Sentiment.HistoryIsLastSixteen | src/components/SentimentAnalysis.jsx:93 | After any non-empty series of readings, the history is the last 16 of the old history followed by the readings. |
| Sentiment.ProgressBounded | src/components/SentimentAnalysis.jsx:57-65 | Progress stays between its start and 100, is below 100 until its last value, and either uses every draw or ends at 100. |
| Sentiment.ProgressMonotone | src/components/SentimentAnalysis.jsx:59 | Progress never decreases. |
| Sentiment.ProgressStopsAtHundred | src/components/SentimentAnalysis.jsx:60-64 | Progress reaches 100 exactly when the interval stops, at its last value. |
| Sentiment.SentimentPanel.constructor | src/components/SentimentAnalysis.jsx:26-44 | The panel starts with no video, idle, progress 0, not playing, and no characters or history. |
| Sentiment.SentimentPanel.UploadVideo | src/components/SentimentAnalysis.jsx:46-53 | A chosen file sets the video and starts the interval from 0 with analysing on; no file changes nothing. |
| Sentiment.SentimentPanel.AdvanceProgress | src/components/SentimentAnalysis.jsx:57-65 | A running interval moves progress up by the draw, capped at 100, and never down. At 100 it stops and analysing ends; a stopped interval does nothing. |
| Sentiment.SentimentPanel.PlaybackTick | src/components/SentimentAnalysis.jsx:76-98 | Nothing happens unless playing with a video element. A tick sets the time and shows the active characters. It adds a reading with the first active name only when someone is active. |
| Sentiment.SentimentPanel.TogglePlay | src/components/SentimentAnalysis.jsx:105-111 | Play flips only when the video element exists. |
| Sentiment.SentimentPanel.VideoEnded | src/components/SentimentAnalysis.jsx:196 | The end of the video stops playing. |
| Json.RoundTrip | src/context/AppContext.jsx:10-19 | `JSON.parse(JSON.stringify(v))` is `v` for every document. |
| Json.ParseSkipsSurroundingSpace | src/components/ProductionHistory.jsx:91 | Whitespace before and after a document does not change what `JSON.parse` reads. |
| Json.SpacedMemberParses | src/components/ProductionHistory.jsx:91 | A one-member object with whitespace after the brace, around the colon and before the closing brace, as a pretty-printer writes it, reads like its compact form. |
| Json.SerializeInjective | server/index.js:99 | Different documents serialise to different texts. |
| Json.OrElse | src/context/AppContext.jsx:22 | `a \|\| b` is `a` when `a` is truthy and `b` otherwise. |
| Json.LastWithConcat | server/index.js:103-107 | In an object spread, a key is read from the later part when it has the key, else from the earlier part. |
| Text.BeforeFirst | server/index.js:56 | `split('@')[0]` is a prefix of the email with no '@' in it, followed in the email by '@' or by nothing. |
| Text.IncludesIffOccurs | server/index.js:208 | `includes` holds exactly when the needle occurs at some position. |
| Text.ToLowerIdempotent | src/components/ProductionHistory.jsx:41-42 | Lowercasing twice is lowercasing once. |
| Text.DecimalRoundTrip | server/index.js:186-187 | `count.toString()` reads back as the count. |
| Text.DecimalInjective | server/index.js:186-187 | Different counts give different texts. |

## Left out

- MySQL connection handling, `initializeDb`, Express, multer's disk storage, CORS and `app.listen`. These are I/O; the tables are modelled in memory, and a store failure is the parameter `fault`.
- The OpenAI call and `JSON.parse` of the free text it returns. How the two settle is the parameter `call` (`ServerStore.ModelCall`: the call threw, the content is not JSON, or the parsed document). The key is the parameter `apiKey`.
- `fetch` and the HTTP transport of `apiService.js`. Calls settle as a parameter (`Resolved`/`Answered`/`Threw`/`Failed`). `AppSession.ClientCall` models only the non-2xx handling of `handleResponse` for the login reply.
- The `/api/video/generate` and `/api/health` endpoints. They are a timed constant reply and a status message.
- Timers (`setTimeout`/`setInterval` delays), modelled as one step each.
- Randomness: progress increments, emotion picks and sentiment values are parameters.
- Rendering, animation and CSS, and the static components: Dashboard, Continuity, TakeSelection, VisualPlanning, Feasibility, Auth and mockData.
- VideoPreviz, whose logic is a random progress animation.
- The request wrapper in FootageSearch.jsx, which skips empty queries at line 15. The server's handling of an empty query is modelled.
- Concurrency: overlapping requests, or a second upload while the progress interval runs. `Sentiment.SentimentPanel.UploadVideo` restarts the single modelled interval, where the source would run two.
- JSON: numbers are integers, so `Json.Parse` refuses a fraction or an exponent that `JSON.parse` reads, and `\u` escapes of surrogates are not parsed. Serialisation writes no whitespace, as `JSON.stringify` without an indent does.
  - The analysis values in the source are integers (risk 35, complexity 8 and 5), so nothing of theirs is lost.
  - MySQL's reordering of keys in a JSON column is not modelled; results are decoded by member name, which does not depend on order.
- Email comparison ignores case via `ToLower`. Accent-insensitive collation and VARCHAR length limits are not modelled.
- Text.LowerChar: folds the capitals of ASCII, Latin-1, basic Greek and basic Cyrillic. `toLowerCase` also folds other scripts' capitals (Latin Extended-A such as 'Ā', Armenian, Georgian and others) and turns 'İ' into two code units, where the model keeps those characters as they are. It also lowers a word-final 'Σ' to 'ς', where the model always gives 'σ'.
- ServerStore.SearchClipsExact: the lowercasing is `Text.LowerChar`'s, so a query or description with capitals it does not fold matches as if case mattered for them.
- HistoryView.FilterHistoryExact: the lowercasing is `Text.LowerChar`'s, so a file name, tone or search text with capitals it does not fold matches as if case mattered for them.
- HistoryView.CountDefaults: an analysis text with a fractional or exponent number counts 0 here, where `JSON.parse` reads it. The server's stored analyses hold integers only.
- ServerStore.LoginStep: the request's `email` and `password` are taken to be present strings, as the sign-in form always sends them. A missing `email`, which fails in `email.split`, and a missing `password` for a new email, which the NOT NULL column refuses, both end in a 500 reply that is not modelled.
- ServerStore.SearchClips: the request's `query` is taken to be a present string. A missing one throws outside any `try`, and no reply is sent; that path is not modelled.
- AppSession.LoginResultOf: the `TypeError` message for a `null` body is V8's wording; other engines word it differently.
- ServerStore.AnalyzeStep: a rejected INSERT replies 'Database save error: ' plus the leading words of MySQL's message ('Incorrect integer value for column 'user_id'' or 'Cannot add or update a child row: a foreign key constraint fails'). The full message also names the offending value, the database and the generated constraint name, and for text such as '12abc' MySQL reports 'Data truncated' instead; those parts are not modelled.
- ServerStore.UserIdParam: any text other than a non-empty run of digits counts as not an integer. This covers signs, spaces and prefixes such as '12abc', which MySQL would convert. For the history query such a field matches no record.
- AppSession.Session.constructor: requires the stored user text to parse. The source throws from `JSON.parse` on corrupt storage; `AppSession.MissingUserIsNotRestorable` shows such storage arising.
- `window.scrollTo` in `navigateTo`; the export and success timers of the sentiment screen; `duration` and `onLoadedMetadata`.
- Sentiment.SentimentPanel.PlaybackTick: a reading keeps the time as a number, not as `toFixed(1)` text, and the playback `<video>` element is not modelled beyond whether it is rendered.
- SceneIntent.MapIntent: the fixed `emotionalBeats`, `planningSignals` and `spatialMap` display data are not part of the modelled intent.
- ScriptUpload.MapResult: a non-object answer is treated as having no fields. A `TypeError` from reading a field of `null` or `undefined` is the `None` outcome.
- HistoryView.CountOf: assumes history items are well-formed records, which the search filter needs anyway because it reads `file_name` and `tone`.
