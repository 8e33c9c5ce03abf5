# mathix learning hub, modelled in Dafny

This project models the logic of the mathix student learning hub that can be stated precisely.

- **Two authentication back ends.**
  - The inline Express routes in `BACKEND/index.js`: signup, login, profile and dashboard over a user collection whose email is unique.
  - The validated router in `BACKEND/routes/auth.js` over the Mongoose schema of `BACKEND/models/Student.js`.
  - Both stores are classes whose `Save` methods append to a `seq` of records.
  - Signup is a method that changes the store. Login, profile and dashboard are functions that only read it and answer a status code and a body.
- **The per-user visit counter** of `APIs/api.py`. It is a class whose `map` field is updated in place by `/visit` and read by `/recommendation`.
- **The client-side state machines** of the React pages:
  - quiz answering, scoring, navigation and timer (`Game.tsx`);
  - sequential topic unlocking (`Roadmap.tsx`);
  - bookmark and completion toggles, and case-insensitive search filters (`Notes.tsx`, `Offline.tsx`);
  - clamped "load more / load less" counters (`Journey.tsx`, `Motivation.tsx`);
  - the greeting and the unread badge (`Home.tsx`);
  - the append-only chat logs (`Chatbot.tsx`, `AI.tsx`).

  Each page whose handlers update state is a class. The state hooks are its fields and each handler is a method with a `modifies` clause. The pure parts of the pages (filters, slices, the greeting, the fold that scores the quiz) are functions with lemmas about them.

Shared modules:
- `Wrappers`: `Option`.
- `Seqs`: filter, map, first index and prefix over sequences, with their lemmas.
- `Text`: the JavaScript string primitives the pages use. These are `toLowerCase` (ASCII letters), `includes`, `trim` over the JavaScript white-space set, decimal `toString`, `padStart(2, '0')` and `parseInt(s, 10)`.
- `Credentials`: bcrypt and JSON Web Tokens, modelled symbolically:
  - a hash is a record of the password, the salt and the cost;
  - a token is a record of its claims, its issue time, its expiry (issue + 3600 s) and its secret;
  - verification accepts a token only under the same secret and before expiry.
- `AuthVariants`: lemmas that compare the two back ends.

JavaScript semantics kept on purpose:
- `findOne({ email: undefined })` matches any document.
- The `in` operator also finds the keys inherited from `Object.prototype`.
- An empty array is truthy.
- Optional chaining and `||` fall back as the code does.

## Model

| member | source | states |
|---|---|---|
| UserAuth.FindOne | BACKEND/index.js:73 | a lookup with an email finds that email's record; a request without an email matches the first stored record whenever the store is non-empty |
| UserAuth.AppendFreshEmail | BACKEND/index.js:59 | appending a record whose email is not stored keeps emails unique |
| UserAuth.UserCollection.Save | BACKEND/index.js:57-63 | a save succeeds iff username and email are present and the email is fresh; then exactly the new record is appended with the next id, and otherwise the store is unchanged |
| UserAuth.Signup | BACKEND/index.js:68-88 | 409 "Email already exists" iff the email is already stored; 201 iff the record is admissible, and then exactly one user holding the hash of the password is appended; the store is unchanged on every other status |
| UserAuth.Login | BACKEND/index.js:91-120 | only 200, 401 or 500 are answered, and a 200 carries a session |
| UserAuth.FindByStoredEmail | BACKEND/index.js:95 | with unique emails, looking up a stored user's email finds that very user |
| UserAuth.FindByStoredId | BACKEND/index.js:129 | with fresh ids, looking up a stored user's id finds that very user |
| UserAuth.LoginUnknownEmail | BACKEND/index.js:95-98 | an email no user has answers 401 "Invalid email" |
| UserAuth.LoginStoredUser | BACKEND/index.js:100-115 | for a stored email: a wrong password answers 401 "Invalid password"; the right one answers 200 with a token signed over the user's id, email and username that expires an hour after issue and echoes username and email |
| UserAuth.GetProfile | BACKEND/index.js:123-137 | 401 iff the second header field is missing or empty; 500 iff it is present but fails verification; 404 "User not found" iff it verifies but its id claim is missing or names no user; a 200 returns, without the password, the user whose id the token claims |
| UserAuth.Dashboard | BACKEND/index.js:140-152 | a missing header answers 401 "Unauthorized"; 200 iff the token verifies; otherwise 401 |
| UserAuth.LoginThenProfileAndDashboard | BACKEND/index.js:105-109 | the token of a successful login, presented within the hour, opens the profile of the same user and a dashboard that greets the username |
| UserAuth.RejectedTokenStatuses | BACKEND/index.js:128-135 | a token that fails verification makes profile answer 500 "Error fetching profile" but dashboard answer 401 "Invalid token" |
| UserAuth.SignupLoginScenario | BACKEND/index.js:68-137 | a signup, a duplicate signup, logins and profile reads answer 201, 409, 200, 401, 200, 401, and the profile leaves out the password |
| Credentials.CompareHash | BACKEND/index.js:100 | comparing a candidate with a hash succeeds iff the candidate is the hashed password; hashes use 10 rounds |
| Credentials.SignThenVerify | BACKEND/index.js:105-109 | for `Sign` (jwt.sign) and `Verify` (jwt.verify): a signed token verifies iff the verifier's secret is the signer's and the time is less than an hour after issue, and then yields exactly the signed claims |
| Credentials.BearerFieldRoundTrip | BACKEND/index.js:124 | `SecondField` of a "Bearer <token>" header is that token, which is truthy, so the route hands `jwt.verify` exactly the token the client holds |
| Credentials.VerifyField | BACKEND/index.js:128 | a header field is accepted iff it is a token that verifies |
| StudentSchema.Validate | BACKEND/models/Student.js:3-10 | a record is built iff name, email, password, institution and class are all present; createdAt defaults to the creation time |
| StudentAuth.SignupErrors | BACKEND/routes/auth.js:13-22 | no errors iff the request passes all five validators; each failing validator contributes its field |
| StudentAuth.StudentCollection.Save | BACKEND/routes/auth.js:31-32 | a save succeeds iff the schema accepts the draft and the email is fresh; exactly that record is appended, and otherwise the store is unchanged |
| StudentAuth.Signup | BACKEND/routes/auth.js:11-40 | 400 with the validation errors on invalid input; 400 "Email already exists" on a stored email, with the store unchanged; otherwise one student is appended, and 200 with a token whose only claim is the new id exactly when a secret is configured |
| StudentAuth.Login | BACKEND/routes/auth.js:48-71 | the intended login answers only 200, 400 or 500; a bad email or empty password answers 400 "Invalid email or missing password"; a valid request for an unknown email answers 400 "Email not found"; a 200 carries a session |
| StudentAuth.FindByStoredEmail | BACKEND/routes/auth.js:54 | with unique emails, a stored student's email finds that student |
| StudentAuth.LoginStoredStudent | BACKEND/routes/auth.js:53-71 | for a stored student: 200 iff the password matches, and otherwise 400 "Invalid password"; the 200 carries a token over the id alone, with username = name and the email |
| StudentAuth.LoginAsWrittenAlwaysFails | BACKEND/routes/auth.js:47 | for `LoginAsWritten` (the route as written): where the intended login answers 200, the code as written answers 500 |
| StudentAuth.Profile | BACKEND/routes/auth.js:80-87 | answers 200 with the caller's record without its password, or null when no student has the caller's id |
| StudentAuth.SignupScenario | BACKEND/routes/auth.js:11-40 | a valid signup, a duplicate, an invalid request and a signup without a secret answer 200, 400, 400, 500 |
| AuthVariants.DuplicateSignupStatuses | BACKEND/routes/auth.js:27-28 | a duplicate email is 409 on the inline back end and 400 on the router |
| AuthVariants.SessionClaimsDiffer | BACKEND/routes/auth.js:65 | the inline token carries id, email and username; the router's carries only the id |
| AuthVariants.DashboardOnRouterToken | BACKEND/index.js:147-148 | provided both back ends are configured with the same secret (JWT_SECRET equal to SECRET_KEY), a router token opens the inline dashboard, which greets an undefined username |
| Visits.OccurrencesAppend | APIs/api.py:37 | one more visit by a user adds one to that user's count and nothing to anyone else's |
| Visits.OccurrencesGrow | APIs/api.py:37 | counts never decrease as visits are logged |
| Visits.VisitCounter.RecordVisit | APIs/api.py:34-38 | the count rises by exactly one and is returned (1 on a first visit); every other user's count is unchanged |
| Visits.VisitCounter.GetRecommendation | APIs/api.py:40-64 | reads the count (0 for unseen users) without changing it; the LLM's suggestion is returned with that count, and a failure becomes an HTTP 500 |
| Visits.VisitScenario | APIs/api.py:34-64 | three visits return 1, 2, 1 and the recommendation reports 2 visits |
| Quiz.Grade | FRONTEND/app/src/pages/Game.tsx:86-91 | one result per question id, true iff its recorded answer equals the correct one (unanswered ones are false) |
| Quiz.ScoreOfGrade | FRONTEND/app/src/pages/Game.tsx:361 | `Score` of the graded results, the number of true results, is the number of correctly answered questions and never exceeds the number of questions |
| Quiz.TimerDisplayReadsBack | FRONTEND/app/src/pages/Game.tsx:192 | `TimerDisplay` reads back as the minutes, a colon and the seconds padded to two digits |
| Quiz.ClockAfterOneSecond | FRONTEND/app/src/pages/Game.tsx:192 | one second into the quiz the clock shows "4:59" |
| Quiz.QuizSession.SelectAnswer | FRONTEND/app/src/pages/Game.tsx:82-84 | records the answer for the current question's id only |
| Quiz.QuizSession.Submit | FRONTEND/app/src/pages/Game.tsx:86-93 | results become the grade of the answers and the result modal opens |
| Quiz.QuizSession.Next | FRONTEND/app/src/pages/Game.tsx:95-99 | the index advances but never past the last question |
| Quiz.QuizSession.Previous | FRONTEND/app/src/pages/Game.tsx:101-105 | the index goes back but never below 0 |
| Quiz.QuizSession.PressMainButton | FRONTEND/app/src/pages/Game.tsx:314 | submits on the last question and moves to the next question otherwise |
| Quiz.QuizSession.Jump | FRONTEND/app/src/pages/Game.tsx:175 | the index becomes the clicked question |
| Quiz.QuizSession.Tick | FRONTEND/app/src/pages/Game.tsx:66-73 | while the modal is closed, the timer decreases by one but not below 0, and the modal opens when it reaches 0 |
| Quiz.QuizSession.CloseModal | FRONTEND/app/src/pages/Game.tsx:343 | closing the modal while time remains closes it; at 0 the timer effect reopens it |
| Quiz.QuizSession.ToggleShowAnswers | FRONTEND/app/src/pages/Game.tsx:107 | flips whether the answers are shown |
| Quiz.QuizSession.Retry | FRONTEND/app/src/pages/Game.tsx:365-371 | answers and results are emptied, the index becomes 0, the timer 300 and the modal closes |
| Quiz.QuizScenario | FRONTEND/app/src/pages/Game.tsx:82-105 | answering one of three questions correctly and submitting scores 1 after a tick |
| Roadmap.AfterCompleteKeepsDistinct | FRONTEND/app/src/pages/Roadmap.tsx:54-59 | `AfterComplete` keeps the list free of duplicates, is idempotent, and adds exactly one name when the name is new |
| Roadmap.UnlockedIffWithinPrefix | FRONTEND/app/src/pages/Roadmap.tsx:61-63 | while completions form an ordered prefix, `Unlocked` holds for topic i iff i is at most the number completed |
| Roadmap.PercentBounds | FRONTEND/app/src/pages/Roadmap.tsx:57 | `Percent` is 0 iff nothing is completed, 100 iff everything is, stays within [0, 100] and rises with every completion |
| Roadmap.CompleteUnlockedKeepsOrder | FRONTEND/app/src/pages/Roadmap.tsx:218-219 | completing an unlocked topic keeps the completions an ordered prefix of the topics |
| Roadmap.RoadmapPage.CompleteTopic | FRONTEND/app/src/pages/Roadmap.tsx:54-59 | a new topic is appended and progress becomes 100 × completed / topics; a repeated one changes neither |
| Roadmap.RoadmapPage.Press | FRONTEND/app/src/pages/Roadmap.tsx:218-219 | pressing an unlocked topic keeps the completions in order and grows them only at the frontier |
| Roadmap.RoadmapScenario | FRONTEND/app/src/pages/Roadmap.tsx:54-63 | two completions and a repeat give progress 25, 50, 50, and the third topic unlocks |
| Notes.Toggle | FRONTEND/app/src/pages/Notes.tsx:90-94 | the toggled topic's membership flips; an absent topic is appended at the end; no other topic's membership changes |
| Notes.ToggleTwice | FRONTEND/app/src/pages/Notes.tsx:92 | toggling an absent topic twice restores the list |
| Notes.FilteredSubjects | FRONTEND/app/src/pages/Notes.tsx:102-104 | keeps, in their original order, exactly the subjects whose lower-cased name contains the lower-cased query |
| Notes.EmptyQueryKeepsAll | FRONTEND/app/src/pages/Notes.tsx:102-104 | an empty query keeps every subject, in order |
| Notes.Restored | FRONTEND/app/src/pages/Notes.tsx:106-112 | a stored topic is restored iff it is a key of the notes object or of Object.prototype |
| Notes.RestoredOwnKeys | FRONTEND/app/src/pages/Notes.tsx:109 | apart from the inherited keys, a stored topic is restored iff the notes have it |
| Notes.NotesPage.ToggleBookmark | FRONTEND/app/src/pages/Notes.tsx:90-94 | the bookmarks are toggled and nothing else changes |
| Notes.NotesPage.MarkComplete | FRONTEND/app/src/pages/Notes.tsx:96-100 | the completions are toggled and nothing else changes |
| Notes.NotesPage.OpenTopic | FRONTEND/app/src/pages/Notes.tsx:114-116 | the chapter becomes active and is stored as the last opened topic unless it is empty |
| Notes.NotesPage.Search | FRONTEND/app/src/pages/Notes.tsx:153 | only the query changes |
| Notes.ReopenScenario | FRONTEND/app/src/pages/Notes.tsx:106-116 | a stored chapter with notes is restored, one without is not, and "toString" is restored |
| Notes.ToggleScenario | FRONTEND/app/src/pages/Notes.tsx:90-100 | toggling bookmarks and completions gives the expected lists |
| Offline.NarrowSpec | FRONTEND/app/src/pages/Offline.tsx:67-71 | `Narrow`: a subject keeps, in order, exactly the topics whose lower-cased title contains the lower-cased query |
| Offline.FilteredSubjectsSpec | FRONTEND/app/src/pages/Offline.tsx:65-72 | `FilteredSubjects`: the narrowed subjects that keep at least one topic are listed, in their original order |
| Offline.EmptyQueryListsAll | FRONTEND/app/src/pages/Offline.tsx:132 | when every subject has at least one topic, as the page's three subjects do, an empty query makes `Listed` and `FilteredSubjects` give every subject unchanged |
| Offline.CurrentSubject | FRONTEND/app/src/pages/Offline.tsx:74 | the first subject with the selected name, or none iff no subject has it |
| Offline.CurrentSubjectByName | FRONTEND/app/src/pages/Offline.tsx:74 | with distinct names, selecting a subject's name finds that subject |
| Offline.TopicCount | FRONTEND/app/src/pages/Offline.tsx:241 | the current subject's number of topics, falling back to 1 when there is no current subject or it has no topics |
| Offline.CurrentVideoByName | FRONTEND/app/src/pages/Offline.tsx:74-75 | with distinct names, `CurrentVideo` for a subject's name and an index is that subject's topic at the index, and nothing past its last topic |
| Offline.ListedFromSubject | FRONTEND/app/src/pages/Offline.tsx:132 | every subject in `Listed` comes from a stored subject of the same name and lists only its topics |
| Offline.ClickAsWrittenWithoutQuery | FRONTEND/app/src/pages/Offline.tsx:154-157 | without a query, `ClickedAsWritten` (the click as written) shows the clicked topic |
| Offline.AlgebraNarrowed | FRONTEND/app/src/pages/Offline.tsx:65-72 | the query "quadratic" narrows Algebra to its "Quadratic Equations" topic alone |
| Offline.ClickAsWrittenShowsOtherTopic | FRONTEND/app/src/pages/Offline.tsx:154-157 | as written, clicking the only listed Algebra topic under "quadratic" shows "Introduction to Algebra" |
| Offline.ClickShowsClickedTopic | FRONTEND/app/src/pages/Offline.tsx:154-157 | selecting by the clicked topic's position in its full subject shows exactly the clicked topic |
| Offline.OfflinePage.ValidShowsVideo | FRONTEND/app/src/pages/Offline.tsx:75 | in every reachable state a current video exists |
| Offline.OfflinePage.Search | FRONTEND/app/src/pages/Offline.tsx:124 | only the query changes, and the selection stays valid |
| Offline.OfflinePage.Expand | FRONTEND/app/src/pages/Offline.tsx:136 | the expanded subject becomes selected, the index is kept, and a video is still shown |
| Offline.OfflinePage.ClickTopic | FRONTEND/app/src/pages/Offline.tsx:154-157 | the clicked subject is selected and the current video is the clicked topic |
| Offline.OfflinePage.Previous | FRONTEND/app/src/pages/Offline.tsx:225-226 | enabled only above index 0; the index goes down by one and stays in range |
| Offline.OfflinePage.Next | FRONTEND/app/src/pages/Offline.tsx:241-242 | enabled only below the last topic; the index goes up by one and stays in range |
| Home.Greeting | FRONTEND/app/src/pages/Home.tsx:67-79 | Morning iff hour < 12, Afternoon iff 12 ≤ hour < 18, Evening iff 18 ≤ hour < 21, Night iff hour ≥ 21 |
| Home.GreetingsInOrder | FRONTEND/app/src/pages/Home.tsx:70-78 | once an hour is greeted "Good Night" every later hour is too, and an hour greeted "Good Morning" has only morning hours before it |
| Home.UnreadCount | FRONTEND/app/src/pages/Home.tsx:358 | the badge never exceeds the number of notifications |
| Home.UnreadCountExtremes | FRONTEND/app/src/pages/Home.tsx:358 | the badge is 0 iff no notification `IsUnread` (its `read` field is not true, so a missing field counts as unread), and it is the full length when everything is unread |
| Home.UnreadCountAppend | FRONTEND/app/src/pages/Home.tsx:358 | the badge count adds up over concatenated lists |
| Home.LoadNotifications | FRONTEND/app/src/pages/Home.tsx:48-62 | without a token nothing is fetched; a failed fetch empties the list; a missing body becomes the empty list |
| Paging.LoadMore | FRONTEND/app/src/pages/Journey.tsx:227 | adds 2 but never exceeds the total |
| Paging.LoadLess | FRONTEND/app/src/pages/Motivation.tsx:77 | removes 2 but never goes below the floor |
| Paging.LoadMoreTimesValue | FRONTEND/app/src/pages/Journey.tsx:227 | k clicks of Load More show min(visible + 2k, total) |
| Paging.StaysInRange | FRONTEND/app/src/pages/Motivation.tsx:73-77 | both buttons keep the count between the floor and the total |
| Paging.LessUndoesMore | FRONTEND/app/src/pages/Motivation.tsx:73-77 | Load Less undoes a Load More that was not clamped |
| Journey.JourneyPage.Shown | FRONTEND/app/src/pages/Journey.tsx:67 | the shown milestones are exactly the first `visible` ones, in order |
| Journey.JourneyPage.LoadMoreMilestones | FRONTEND/app/src/pages/Journey.tsx:216-227 | offered only below the total; the count grows by at most 2, up to the total, and the congratulation is raised |
| Journey.JourneyPage.CongratsTimeout | FRONTEND/app/src/pages/Journey.tsx:55 | the congratulation is dismissed and nothing else changes |
| Journey.JourneyScenario | FRONTEND/app/src/pages/Journey.tsx:43-227 | the counts go 5, 7, 8, after which Load More is no longer offered |
| Motivation.InitialStreak | FRONTEND/app/src/pages/Motivation.tsx:80-89 | with no stored streak the streak is 1 and "1" is stored; otherwise the stored text is parsed |
| Motivation.StoredStreakReadsBack | FRONTEND/app/src/pages/Motivation.tsx:84 | a stored decimal streak n is read back as n |
| Motivation.FirstStreakReadsBack | FRONTEND/app/src/pages/Motivation.tsx:82-88 | the streak stored on the first visit reads back as 1 on the next |
| Motivation.MotivationPage.Shown | FRONTEND/app/src/pages/Motivation.tsx:197 | the shown stories are exactly the first `visible` ones |
| Motivation.MotivationPage.LoadMoreStories | FRONTEND/app/src/pages/Motivation.tsx:72-74 | the count becomes min(prev + 2, number of stories) and grows |
| Motivation.MotivationPage.LoadLessStories | FRONTEND/app/src/pages/Motivation.tsx:76-78 | the count becomes max(prev − 2, 2) and shrinks |
| Motivation.StoriesScenario | FRONTEND/app/src/pages/Motivation.tsx:72-89 | the counts go 2, 4, 2, and two visits both see streak 1 |
| Text.TrimEmptyIffBlank | FRONTEND/app/src/pages/Chatbot.tsx:124 | `Trim` of an input is empty iff the input is all white space |
| Text.ToLowerLowers | FRONTEND/app/src/pages/Notes.tsx:103 | `ToLower` leaves no upper-case ASCII letter, lowers each one by the ASCII offset, keeps every other character and is idempotent |
| Text.PadStart2Pads | FRONTEND/app/src/pages/Game.tsx:192 | `PadStart2`'s result has length max(2, \|s\|), ends with `s` and is `'0'` before it |
| Text.ParseIntOfNatToString | FRONTEND/app/src/pages/Motivation.tsx:84 | `ParseInt`, parsing the decimal form of n, followed by a non-digit or nothing, gives n |
| Chatbot.ReplyText | FRONTEND/app/src/pages/Chatbot.tsx:112-120 | a failed request gives the error text; otherwise a truthy content is shown, and the rephrasing fallback replaces a missing one; never empty |
| Chatbot.MissingContentFallsBack | FRONTEND/app/src/pages/Chatbot.tsx:115 | any missing link in the chain gives the rephrasing fallback |
| Chatbot.ChatbotPage.AppendMessage | FRONTEND/app/src/pages/Chatbot.tsx:74-77 | exactly one message is appended at the end; earlier messages are unchanged |
| Chatbot.ChatbotPage.Type | FRONTEND/app/src/pages/Chatbot.tsx:297 | only the input changes |
| Chatbot.ChatbotPage.Send | FRONTEND/app/src/pages/Chatbot.tsx:123-131 | blank input appends the AI prompt and sends nothing; otherwise the user message is appended, the input is cleared and the text is sent |
| Chatbot.ChatbotPage.ReceiveReply | FRONTEND/app/src/pages/Chatbot.tsx:112-120 | exactly one AI message holding the reply text is appended |
| Chatbot.ChatbotPage.StartVoice | FRONTEND/app/src/pages/Chatbot.tsx:133-139 | without speech support an AI message explains it; otherwise listening starts |
| Chatbot.ChatbotPage.VoiceResult | FRONTEND/app/src/pages/Chatbot.tsx:57-64 | the transcript becomes the input, is appended as a user message and is sent |
| Chatbot.ChatbotPage.VoiceFailed | FRONTEND/app/src/pages/Chatbot.tsx:66-69 | one AI error message is appended |
| Chatbot.ChatbotPage.VoiceEnded | FRONTEND/app/src/pages/Chatbot.tsx:71 | listening stops and nothing else changes |
| Chatbot.ChatbotPage.ChangeLanguage | FRONTEND/app/src/pages/Chatbot.tsx:141-145 | only the recognition language changes |
| Chatbot.ChatScenario | FRONTEND/app/src/pages/Chatbot.tsx:123-131 | a blank send and a real send give the expected log and a single request |
| AiChat.AiReply | FRONTEND/app/src/pages/AI.tsx:47-53 | failures give the error text; a missing choices field, or a first message whose content is missing or empty, gives "couldn't find an answer"; an empty list or a missing message throws and gives the error text; truthy content is shown |
| AiChat.PagesCompared | FRONTEND/app/src/pages/AI.tsx:49-50 | both pages agree on failures and on real content, but an empty choices list is an error here and a rephrase prompt on the chatbot page |
| AiChat.AiPage.Type | FRONTEND/app/src/pages/AI.tsx:133 | only the input changes |
| AiChat.AiPage.Send | FRONTEND/app/src/pages/AI.tsx:57-64 | blank input changes nothing; otherwise the user message and then exactly one AI reply are appended and the input is cleared |
| AiChat.AskTwice | FRONTEND/app/src/pages/AI.tsx:57-64 | after two sends the log alternates user and AI messages, two per non-blank send |

## Left out

- Hashing and tokens: bcrypt and jsonwebtoken are foreign libraries. They are modelled as symbolic records (see `Credentials`), not bit for bit, so two different passwords never collide in the model.
- MongoDB I/O, the Express wiring, CORS and configuration: only single sequential requests are modelled. The database's unique index under concurrent signups is a concurrency concern and is left out; the store's `Save` enforces uniqueness itself.
- `authMiddleware` (used by `BACKEND/routes/auth.js:80`) is not part of this model. `StudentAuth.Profile` takes the caller's id as a parameter.
- StudentAuth.IsEmail: a simplified address check (a non-empty local part, one `@`, a domain holding a dot that is neither its first nor its last character, no white space), not express-validator's full `isEmail` grammar.
- Text.ToLower: lowers ASCII letters only; JavaScript's full Unicode case mapping is not modelled.
- Calls to the LLM and to other HTTP services are parameters of the methods (an outcome value or a function from prompt to outcome). The system prompts, the model names and the API key are not modelled.
- Timers and intervals: a single tick (`Quiz.QuizSession.Tick`) or a single timeout (`Journey.JourneyPage.CongratsTimeout`) stands for each scheduled callback. The clock in `Home.tsx` is an hour parameter.
- Message timestamps (`toLocaleTimeString`) are a string parameter.
- Floating point: the quiz progress bar (`Game.tsx:109`) is left out. Roadmap progress is an exact `real`, not an IEEE double.
- `getCurrentClass` in `Online.tsx` is not part of this model. It works on clock time with floating point, and because `Number("00 AM")` is NaN it always reports no class.
- The random quote on `Motivation.tsx` is left out (randomness).
- Logout handlers, username display, dark mode, full screen, section switching, the quiz difficulty selector and the rendering of note content are left out: they are UI glue with no state worth a contract.
- AiChat.AiPage.Send: the user message and the reply are appended in one step. The interleaving of a second send while the first request is pending is not modelled.
- Request-body fields in `BACKEND/index.js` and `BACKEND/routes/auth.js` are modelled as a string or absent. A JSON `null`, a number or an object is not modelled. Mongoose treats these differently from an absent field: `findOne({ email: null })` finds nothing, an object such as `{"$ne": null}` is read as a query operator, and on the signup route of `BACKEND/index.js` bcrypt rejects a non-string password, which answers 500.
- Response bodies whose `choices` is not an array (a string or a number, say) are not modelled; `choices` is either missing or a list.
- Offline.OfflinePage.ClickTopic: uses the corrected topic index described under Findings, not the index as written. The as-written behaviour is `Offline.ClickedAsWritten`.

## Findings

| source | as written | input that shows it | evidently intended | confidence | as-written member | corrected member |
|---|---|---|---|---|---|---|
| BACKEND/routes/auth.js:47 | the stray identifier `zzz` throws a ReferenceError inside `try`, so every login answers 500 "Server error during login" | a stored student with a valid email who gives the right password | the checks at lines 48-71 run, so the right password answers 200 with a token, the name and the email | not executed | StudentAuth.LoginAsWrittenAlwaysFails | StudentAuth.LoginStoredStudent |
| FRONTEND/app/src/pages/Offline.tsx:154-157 | a click stores the topic's index in the filtered topic list, but line 75 looks the video up in the unfiltered subject | query "quadratic", then a click on Algebra's only listed topic "Quadratic Equations" | the clicked topic is shown | not executed | Offline.ClickAsWrittenShowsOtherTopic | Offline.ClickShowsClickedTopic |
