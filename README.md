# ResumeLens core, modelled in Dafny

ResumeLens is a resume-analysis service: a React client (`frontend/src/App.js`)
where users sign in, upload a PDF or DOCX resume and browse earlier analyses,
and a Flask backend (`backend/app.py`) that scores the resume text. This
project models two parts of it.

- **The client's root component** (`session.dfy`, module `Session`). Class `App`
  holds the component's nine state slots: `user`, `token`, `currentView`,
  `analyses`, `selectedAnalysis`, `loading`, `error`, `success` and
  `isInitialized`. Its methods are the component's handlers: start-up
  restore, history fetch and its effect, login/register, logout, upload,
  view toggles, history selection, back, and the two message slots with
  their timers. `Screen()` is the render gating. The environment is explicit.
  The `localStorage` token is the field `storage`, and the requests issued are
  recorded in `sent`. A network call's outcome (ok with a body, non-ok with a
  message, or thrown) is a method parameter. Timers are deadlines on the
  clock `now`, fired by `Tick`.
- **The backend's deterministic scoring and request checks**
  (`resume_analyzer.dfy`, `number_pattern.dfy`, `routes.dfy`). In
  `ResumeAnalyzer`, `ExtractSkills` and `CheckMissingSections` use loops
  proved against `Present` and `Missing`. `AnalyzeExperience` loops over the
  action words, proved against `Present`, and takes its numbers from
  `NumberMatches`, the model of `re.findall`, which has no loop. The score is
  proved against `OverallScore`.
  The checks of `token_required`, `register`, `login` and `upload_resume` are
  modelled as functions. Database rows are a parameter. So are JWT decoding
  and encoding and the password check, and only their results are kept.

`api.dfy` holds what the two sides share over HTTP: the
`Authorization: Bearer <token>` header, the `user` object, the auth
response body, and the truthiness of an optional string. `text.dfy` holds
the string operations: substring, prefix, suffix, ASCII lower-casing and
join. `wrappers.dfy` holds `Option` and `Result`.

Four behaviours of the client code are modelled as written:
- The code applies late responses as they arrive. Neither the upload nor
  the history fetch checks that the session is still the one that sent the
  request (`LateUploadAfterLogout`).
- A session restored from `localStorage` has a token but no user.
- After a late upload response the view can be `analysis` with no session.
- Setting a message slot to the value it already holds does not restart
  that slot's timer, because React skips an update that does not change
  the value.

## Model

| member | source | states |
|---|---|---|
| `Session.App.constructor` | frontend/src/App.js:26-34 | Every slot starts at its initial value: no user or token, view "login", empty history, nothing selected, not loading, both messages empty, not initialised. |
| `Session.App.Screen` | frontend/src/App.js:697-855 | Shows "Loading" exactly until initialised. Without a truthy token it shows the login form when the view is "login" and the register form otherwise. Home shows exactly when there is a token and the view is "dashboard". The detail view shows exactly when there is a token, the view is "analysis" and something is selected. In every state reachable through the handlers, one of these panels shows. |
| `Session.DetailOf` | frontend/src/App.js:459-465 | The detail view renders a report only for a selected payload that has an experience analysis. A whole history record always gives "Analysis data not available." |
| `Session.ScoreTier` | frontend/src/App.js:746-757 | The badge is "Excellent" iff score >= 80, "Good" iff 60 <= score < 80, and "Needs Work" iff score < 60. |
| `Session.TierLabel` | frontend/src/App.js:753-757 | Each badge has its own text: "Excellent" exactly for the top tier, "Good" exactly for the middle tier, and "Needs Work" exactly for the bottom tier. |
| `Session.ScoreTierMonotone` | frontend/src/App.js:746-757 | A higher score never gets a lower badge. |
| `Session.App.SetError` | frontend/src/App.js:47-52 | The error slot takes the new value. A changed non-empty value gets a fresh 4000 ms deadline. An unchanged value keeps its running timer. The success slot is outside its frame. |
| `Session.App.SetSuccess` | frontend/src/App.js:54-59 | The same behaviour for the success slot, leaving the error slot alone. |
| `Session.App.Tick` | frontend/src/App.js:47-59 | Each slot whose deadline has passed is cleared, and the other slot is untouched. Once 4000 ms have passed, both slots are empty. |
| `Session.App.DismissError` | frontend/src/App.js:802 | Clears the error slot and cancels its timer at once. |
| `Session.App.DismissSuccess` | frontend/src/App.js:819 | Clears the success slot and cancels its timer at once. |
| `Session.App.Initialize` | frontend/src/App.js:37-44 | A truthy stored token becomes `token`, the view becomes "dashboard", and one history request carries that token. With no stored token, `token` stays null, the view stays "login" and nothing is sent. Both cases end initialised. |
| `Session.App.FetchUserAnalyses` | frontend/src/App.js:61-68 | Sends one `GET /api/analyses` with `Bearer <token>` when the closure's token is truthy. Otherwise it does nothing. |
| `Session.App.HistoryEffect` | frontend/src/App.js:78-82 | After a render that changed the token or the initialisation flag, one history request goes out with the current token if it is truthy and initialisation is done. Otherwise nothing is sent. |
| `Session.App.ReceiveAnalyses` | frontend/src/App.js:69-75 | An ok response replaces `analyses` with the response. A non-ok or thrown response keeps the old list. |
| `Session.App.Authenticate` | frontend/src/App.js:84-112 | Clears `error` first and always ends with `loading` false. On success, `token`, `user`, the stored token and `success` take the server's values, the view becomes "dashboard", and exactly one history request (from the effect) carries the new token, if that token is non-empty. A non-ok response sets `error` to the server message and a thrown one sets "Network error occurred". In both failure cases `token`, `user`, the stored token and the view are unchanged. A non-empty error message gets a fresh 4000 ms deadline. On success, a changed non-empty success message gets a fresh 4000 ms deadline, and an unchanged one keeps its timer. |
| `Session.App.ApplyAuthOutcome` | frontend/src/App.js:98-110 | The response branch of `handleAuth`. On success its direct `fetchUserAnalyses` call uses the captured token. The message slot it sets gets a fresh 4000 ms deadline when its value changes to a non-empty text, and keeps its timer when the value is unchanged. |
| `Session.App.Logout` | frontend/src/App.js:114-121 | From any state: token, user and stored token become null, the view becomes "login", the history is emptied and the selection cleared. Nothing is sent. The new state does not depend on the old one, so logging out twice changes nothing more. |
| `Session.App.BeginUpload` | frontend/src/App.js:123-137 | Sets `loading` and clears `error`. Sends the upload with `Bearer <token>` and returns the token the handler's closure holds. |
| `Session.App.CompleteUpload` | frontend/src/App.js:138-152 | On ok: `success` is "Resume analyzed successfully!", the selection is the inner payload, the view is "analysis", and a history request goes out with the captured token. On non-ok: `error` is the server message, and the view, selection and success slot are unchanged. On thrown: `error` is "Failed to upload resume". `loading` ends false in every case. The message slot it sets gets a fresh 4000 ms deadline when its value changes to a non-empty text, and keeps its timer when the value is unchanged. |
| `Session.App.ToggleAuthView` | frontend/src/App.js:268 | The login form switches to the register form, and the register form switches to the login form. |
| `Session.App.SelectHistory` | frontend/src/App.js:727-730 | Stores the whole history record and shows the detail view, which then reads "Analysis data not available." |
| `Session.App.SelectHistoryPayload` | frontend/src/App.js:727-730 | Corrected selection that stores the record's payload. The detail view then shows that record's report. |
| `Session.App.Back` | frontend/src/App.js:775 | Returns to the dashboard home with the current history. |
| `Session.LateUploadAfterLogout` | frontend/src/App.js:138-144 | Case: an upload's ok response arrives after logout. It is still applied: the view becomes "analysis" with no token, the register form is shown, and a history request goes out with the old token. |
| `Session.FailedLoginMessageLifetime` | frontend/src/App.js:47-52 | Case: after a failed login, the error message is still shown 1 ms before 4000 ms have passed, and it is gone at 4000 ms. |
| `NumberPattern.DigitRun` | backend/app.py:227 | Returns the longest run of digits at a position: all digits, ended by the text's end or a non-digit. |
| `NumberPattern.MatchLength` | backend/app.py:227 | A match of `\d+(?:\.\d+)?%?` starts at a position exactly when a digit stands there, and it stays inside the text. |
| `NumberPattern.MatchIsLongest` | backend/app.py:227 | No longer text starting at a match's position is a word of `\d+(?:\.\d+)?%?`, so the match is the greedy one that `re.findall` reports. |
| `NumberPattern.MatchesFrom` | backend/app.py:227 | The left-to-right, non-overlapping scan of `re.findall` from a position. It finds at most one match per remaining character, and every match starts with a digit. |
| `NumberPattern.NumberMatches` | backend/app.py:227 | `re.findall` over the whole text. It finds at most one match per character, and every match starts with a digit. |
| `NumberPattern.MatchIsNumberToken` | backend/app.py:227 | The text matched at a position is digits, then an optional dot followed by digits, then an optional percent sign. |
| `NumberPattern.NumberMatchesAreNumberTokens` | backend/app.py:227 | Every string found by `re.findall` with this pattern is a number token. |
| `NumberPattern.NoMatchesIffNoDigits` | backend/app.py:227 | `re.findall` finds nothing exactly when the text holds no digit. |
| `ResumeAnalyzer.PresentMembers` | backend/app.py:193-196 | A word is in the found list iff it is declared and occurs in the text. The list is never longer than the declared list. |
| `ResumeAnalyzer.AnyOccurs` | backend/app.py:214 | True iff some pattern occurs as a substring of the text. |
| `ResumeAnalyzer.MissingMembers` | backend/app.py:213-216 | A section name is listed iff the section is in the table and none of its patterns occurs. The list is never longer than the table. |
| `ResumeAnalyzer.ExtractSkills` | backend/app.py:187-200 | Each of the five categories, in declared order, lists exactly its declared skills that occur in the text, in declared order. `total_count` is the sum of the list lengths. |
| `ResumeAnalyzer.CheckMissingSections` | backend/app.py:202-218 | Returns the section names in table order (summary, objective, experience, education, skills, projects). A section is listed iff none of its patterns occurs. At most six names. |
| `ResumeAnalyzer.AnalyzeExperience` | backend/app.py:220-234 | `action_words` are exactly the declared action words found, in declared order, and `action_words_count` is their number. `quantifiable_achievements` counts the regex matches and is 0 iff the text has no digit. `numbers_found` is the first min(10, n) matches, each a number token. |
| `ResumeAnalyzer.SkillsPoints` | backend/app.py:251 | The skills part is at most 30 and equals two points per skill below the cap. |
| `ResumeAnalyzer.SectionPoints` | backend/app.py:255 | The sections part is at most 25 and a multiple of 5. It is 25 − 5·missing while positive, and 0 iff five or more sections are missing. |
| `ResumeAnalyzer.ExperiencePoints` | backend/app.py:259 | The experience part is at most 25 and equals 2·action words + numbers below the cap. |
| `ResumeAnalyzer.ReadabilityPoints` | backend/app.py:262-268 | The readability part is 20 iff readability >= 60, 10 iff it is below 30, and 15 otherwise. |
| `ResumeAnalyzer.CalculateOverallScore` | backend/app.py:247-271 | The score is the sum of the four parts, and it always lies in [10, 100]. So the final `min(score, 100)` never cuts anything. |
| `ResumeAnalyzer.OverallScoreMonotone` | backend/app.py:247-271 | More skills, fewer missing sections, more action words or numbers, or higher readability never lowers the score. |
| `ResumeAnalyzer.TipsDistinct` | backend/app.py:277-286 | The missing-sections recommendation differs from the three fixed ones. |
| `ResumeAnalyzer.GenerateRecommendations` | backend/app.py:273-288 | At most four items, in fixed order. Each is present exactly when its condition holds: fewer than 10 skills, any missing section, fewer than 5 action words, fewer than 3 numbers. The list is empty exactly when every threshold is met. |
| `ResumeAnalyzer.AnalyzeResume` | backend/app.py:152-185 | The analysis of the lower-cased text. Each of the five skill categories lists exactly its declared skills found in the text, and `total_count` is their sum. The missing sections and action words are those the text lacks or holds. `quantifiable_achievements` is the number of regex matches, and `numbers_found` is the first min(10, n) of them. `readability_score` is the given readability. The overall score is the four parts' sum and lies in [10, 100]. Each of the four recommendations is given exactly when its threshold is missed, and there are none exactly when every threshold is met. |
| `Routes.StripBearer` | backend/app.py:81-82 | A header starting with "Bearer " loses exactly its first 7 characters. Any other header is kept whole. |
| `Routes.BearerRoundTrip` | backend/app.py:81-82 | Stripping the header the client builds (`Bearer ${token}`) gives back the client's token. |
| `Routes.TokenRequired` | backend/app.py:76-86 | A missing or empty header gives 401 "Token is missing". Otherwise the request is accepted iff the stripped token decodes, with the decoded user id. Any decode failure gives 401 "Token is invalid". |
| `Routes.ClientHeaderAccepted` | backend/app.py:76-86 | A request carrying the client's header is authenticated exactly when the client's token decodes. |
| `Routes.Register` | backend/app.py:295-331 | Gives 400 "All fields are required" unless username, email and password are all non-empty. Succeeds iff they are and no row has that username or email. Every failure is a 400. Success returns "User created successfully", the token and the new user. |
| `Routes.FindUser` | backend/app.py:345-347 | Returns a row whose username or email is the given name, and none iff no such row exists. |
| `Routes.Login` | backend/app.py:334-362 | Gives 400 unless username and password are non-empty. An unknown user or a wrong password gives 401 "Invalid credentials". Succeeds iff the row found passes the password check, returning "Login successful", the token and that row's user. |
| `Routes.ValidateUpload` | backend/app.py:367-375 | Checks in this order: no `resume` part gives 400 "No file uploaded", then an empty file name gives 400 "No file selected", then a lower-cased name ending in neither ".pdf" nor ".docx" gives 400 "Only PDF and DOCX files are allowed". The file is accepted iff all three checks pass. |
| `Routes.UpperCaseExtensionAccepted` | backend/app.py:374 | Names ending in ".PDF" or ".DocX" pass, because the name is lower-cased before the suffix test. |

## Findings

| source | as written | input that shows it | evidently intended | confidence | as-written member | corrected member |
|---|---|---|---|---|---|---|
| frontend/src/App.js:727-730 | The history button stores the whole record `{id, filename, analysis, created_at}`. The detail view (459-465) looks for `experience_analysis` at the top level, so it shows "Analysis data not available." | Any entry of the history list. | Store `analysis.analysis`, as the upload stores `result.analysis` (line 143), so that the report is shown. | high; not executed | `Session.App.SelectHistory` | `Session.App.SelectHistoryPayload` |

## Left out

- Session.App.Authenticate: the request and its response are one step. A toggle or a timer that fires while a login is in flight is not interleaved. Upload is split into two steps so that a logout can come between them.
- Session.App.ReceiveAnalyses: a response is not paired with a request. Any response may arrive at any time, which over-approximates the code.
- Session.App.Screen: only the panel choice is modelled. The JSX markup, CSS keyframes, recharts and lucide components, and the `SkillsChart` labels are presentation.
- React scheduling: the state updates a handler makes between two awaits form one render, as React 18 batches them. Effects run after that render.
- `fetch`, `localStorage` and `setTimeout` are the environment: outcomes are parameters, the stored token is a field, and timers are deadlines fired by `Tick`.
- Drag-and-drop and the file input only feed a file to the upload. Their drag-highlight state is presentation.
- The per-form input buffers of the auth form are not modelled. The request body is not recorded, only the endpoint.
- `toLocaleDateString`, `toFixed` and `flesch_reading_ease` are locale, floating-point and library code. Readability is a `real` parameter, and NaN is not modelled.
- `get_word_frequency` depends on the NLTK tokenizer and stopword list, so the analysis has no `word_frequency`.
- ResumeAnalyzer.AnalyzeResume: takes the text already lower-cased. Python's Unicode `str.lower()` is not modelled.
- NumberPattern.DigitRun: `\d` is modelled as the ASCII digits. Python's `re` on `str` also matches other Unicode decimal digits.
- Routes.ValidateUpload: lower-cases ASCII letters only. Characters whose Unicode lower case differs in length are not modelled.
- Routes.Register: JSON fields are modelled as absent or strings. Numbers or booleans in the body, and a request with no JSON body, are not modelled.
- Routes.FindUser: `fetchone()` is modelled as the first matching row in table order. SQLite does not promise an order.
- PDF/DOCX text extraction, `secure_filename`, saving and removing the file, and the "Could not extract text from file" check on the extracted text are library and file I/O.
- Storing the analysis and the `GET /api/analyses` and `GET /api/analysis/<id>` routes are database access. The client model takes their responses as parameters.
- `jwt.encode`, `jwt.decode`, `generate_password_hash`, `check_password_hash` and the Flask/CORS setup are cryptography and framework. Decoding and the password check are function parameters, and issued tokens are string parameters.
- `frontend/tailwind.config.js` is build configuration with no logic.
