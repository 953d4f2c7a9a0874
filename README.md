# Video feed client: a verified model of its logic

The client is a React/TypeScript front end for an AI-video site. It has a
feed of generated videos with search and likes, a form to request a new
video, a research chat panel and a demo sign-in form. This project models
the parts of it that compute something, with each stateful component as a
class and each pure computation as a function. These are:

- the video service (`videoService.ts`):
  - the keyword style classifier;
  - the record-to-view-model mapper;
  - the array coercion of the list endpoint;
  - the list-then-details loader.
- the index page (`Index.tsx`):
  - the `videos` state;
  - the like toggle;
  - the simulated generation that prepends a new video;
  - the profile filter.
- the feed search (`VideoFeed.tsx`): a case-insensitive substring filter.
- the video card (`VideoCard.tsx`):
  - the 100-character prompt cut;
  - the show-more condition;
  - the two click-toggled flags.
- the chat panel (`ChatInterface.tsx`):
  - the `sendMessage` state machine;
  - the agent display names;
  - the routing badge condition.
- the demo sign-in (`DemoAuth.tsx`):
  - per-mode validation;
  - the user record it builds;
  - the mode toggle.
- the prompt form (`PromptForm.tsx`):
  - the initial record;
  - per-field updates;
  - the submit guard.

Modules:

- `Wrappers` defines `Option`.
- `Text` holds the JavaScript string built-ins the client uses, over `seq<char>`:
  - `toLowerCase` on ASCII letters;
  - `includes`;
  - `trim`, with the exact ECMAScript whitespace and line-terminator set;
  - `split(c)[0]`;
  - `replace` with a one-character pattern;
  - `slice(-n)`;
  - the truthiness of an optional string.
- `Seqs` holds `Array.prototype.filter` and the order-preserving subsequence relation.
- The remaining modules follow the source files: `VideoService`, `VideoCard`, `VideoFeed`, `PromptForm`, `IndexPage`, `ChatInterface` and `DemoAuth`.

Environment inputs are parameters:

- **HTTP responses** are input datatypes (`ListResponse`, `DetailResponse`, `ChatOutcome`).
- **The two `Math.random()` draws of `transformVideoData`** are subset types that admit exactly the integers `Math.floor(Math.random() * n)` can produce.
- **`Date.now()` ids** are string parameters.

The React handlers become methods on the component classes. An `async` handler is split at its `await` or timer:

- `BeginSend` and `Settle` for the chat;
- `HandleCreateVideo` and `GenerationFinished` for video generation. A queue of pending forms stands for the timer callbacks and the `formData` each one captured.

Notes on the source:

- **The show-more button and the prompt cut do not always agree.** The button appears exactly when the prompt is longer than 100 characters. That is not quite "exactly when truncation changes the text": a 103-character prompt ending in `"..."` is left unchanged by the cut, yet it gets the button. `ButtonIffTruncationChanged` proves the equivalence for every other prompt, and `ButtonWithoutVisibleCut` exhibits the exception. The only effect is a button that reveals nothing new, so this is not recorded as a defect.
- **The profile view cannot be reached.** `setCurrentView` is never called in `Index.tsx`, so `currentView` stays `'feed'`. The profile filter is modelled anyway, as `ProfileVideos` and `Index.ProfileList`.
- **New videos carry the form's lower-case style value.** `'cinematic'` is not the capitalised label the classifier returns.
- **The prompt form's `handleSubmit` does not check `isLoading`.** Only the button's `disabled` attribute does. `PromptForm.Form.HandleSubmit` follows the handler, and `PromptForm.EnabledButtonSubmits` relates the two.
- **The loader distinguishes three detail outcomes.** `loadAllVideos` removes `null` details and maps the rest. A detail body that is valid JSON but lacks a string `generation_prompt` or `user_id` (a number, say) makes `transformVideoData` throw, at `toLowerCase` or `slice`, and the outer `catch` then returns `[]` for the whole list. Partial objects that have both fields do not throw; see "## Left out". The loader therefore gets each detail as `Fetched`, `Missing` (the `null` case) or `Malformed`, rather than as a plain optional record.

## Model

| member | source | states |
|---|---|---|
| Text.Lower | src/services/videoService.ts:118 | lower-casing keeps the length, maps each character, and leaves no upper-case letter |
| Text.LowerIdempotent | src/components/VideoFeed.tsx:33-34 | lower-casing twice equals lower-casing once |
| Text.LowerOfLowerCase | src/services/videoService.ts:118 | a string without upper-case letters is unchanged by lower-casing |
| Text.ContainsEmpty | src/components/VideoFeed.tsx:33-34 | every string includes the empty string |
| Text.NotContainsMissingChar | src/services/videoService.ts:120-125 | a string lacking some character of `sub` does not include `sub` |
| Text.Contains | src/components/VideoFeed.tsx:33-34 | `includes` holds only when the pattern is no longer than the string, and holds whenever the string starts with the pattern |
| Text.TrimStart | src/components/PromptForm.tsx:33 | the result is a suffix; everything removed is whitespace; it does not start with whitespace |
| Text.TrimEnd | src/components/PromptForm.tsx:33 | the result is a prefix; everything removed is whitespace; it does not end with whitespace |
| Text.Trim | src/components/PromptForm.tsx:33 | the trimmed string is a contiguous part of the input; everything removed on either side is whitespace; it neither starts nor ends with whitespace |
| Text.TrimStartBlank | src/components/PromptForm.tsx:33 | an all-whitespace string trims to nothing at the start |
| Text.TrimEmptyIffBlank | src/components/PromptForm.tsx:33 | `trim()` is empty if and only if every character is whitespace |
| Text.BeforeFirst | src/components/DemoAuth.tsx:26 | `split('@')[0]` is a prefix without '@', followed in the input by '@' when shorter |
| Text.IndexOf | src/components/ChatInterface.tsx:149 | the index holds `c` and no earlier position does |
| Text.ReplaceFirst | src/components/ChatInterface.tsx:149 | `replace` keeps the length, is the identity without a match, and otherwise changes only the first occurrence |
| Text.SliceLast | src/services/videoService.ts:95 | `slice(-n)` is the suffix of length `min(n, length)` |
| Seqs.Filter | src/components/VideoFeed.tsx:32-35 | the result is no longer than the input; every element of it passes the predicate and comes from the input; every passing input element appears in it |
| Seqs.FilterAppend | src/components/VideoFeed.tsx:32-35 | filtering a concatenation is concatenating the filtered parts |
| Seqs.FilterSingleton | src/components/VideoFeed.tsx:32-35 | one element is kept exactly when it passes |
| Seqs.FilterMultiplicity | src/components/VideoFeed.tsx:32-35 | a passing value occurs in the result as often as in the input, and a failing one not at all |
| Seqs.FilterMultiplicities | src/components/VideoFeed.tsx:32-35 | the same count law for every value at once |
| Seqs.FilterIsSubsequence | src/components/VideoFeed.tsx:32-35 | filtering yields an order-preserving subsequence |
| Seqs.FilterAllPass | src/components/VideoFeed.tsx:32-35 | when every element passes, the filter is the identity |
| Seqs.FilterIdempotent | src/components/VideoFeed.tsx:32-35 | filtering twice with one predicate equals filtering once |
| Seqs.FilterCongruent | src/components/VideoFeed.tsx:32-35 | predicates that agree on the elements filter alike |
| VideoService.ExtractStyleFromPrompt | src/services/videoService.ts:117-128 | the style is always one of the seven labels |
| VideoService.ClassifyFirstMatch | src/services/videoService.ts:120-125 | in an ordered rule list, the first matching rule decides |
| VideoService.ClassifyNoMatch | src/services/videoService.ts:127 | with no matching rule the default "Creative" is returned |
| VideoService.ExtractStyleIsClassify | src/services/videoService.ts:117-128 | the if-chain equals the ordered classifier over the six keyword groups |
| VideoService.ExtractStyleRule | src/services/videoService.ts:120-125 | group k's style is returned if and only if group k matches and no earlier group does |
| VideoService.ExtractStyleDefault | src/services/videoService.ts:127 | "Creative" is returned if and only if no keyword of any group occurs |
| VideoService.ExtractStyleIgnoresCase | src/services/videoService.ts:118 | the style does not depend on letter case |
| VideoService.CinematicBeatsRetro | src/services/videoService.ts:120-125 | "Retro cinematic" is Cinematic: the earlier group wins |
| VideoService.SurrealIsDocumentary | src/services/videoService.ts:123 | plain substring matching: "surreal" contains "real" and is Documentary |
| VideoService.NoKeywordIsCreative | src/services/videoService.ts:127 | a prompt with no keyword gets "Creative" |
| VideoService.NoKeywordInFirstGroups | src/services/videoService.ts:120-122 | the example prompt contains none of the first three groups' keywords |
| VideoService.NoKeywordInLastGroups | src/services/videoService.ts:123-125 | the example prompt contains none of the last three groups' keywords |
| VideoService.MockUsername | src/services/videoService.ts:95 | `"user_"` followed by the last six characters of the user id, or the whole id when it is shorter |
| VideoService.TransformVideoData | src/services/videoService.ts:86-115 | it copies id, url, prompt, status, hashtags, caption and createdAt; the video url is the thumbnail, with a placeholder when it is empty; it builds the mock creator and uses the classified style; likes are 50 + draw in [50, 549] and comments 10 + draw in [10, 109]; duration is 30; not liked |
| VideoService.ViewDeterminedUpToCounters | src/services/videoService.ts:99-114 | two views of one record differ only in the random counters |
| VideoService.FetchVideos | src/services/videoService.ts:55-69 | a non-empty result only comes from an ok response with an array body, and such a body is returned as is; every other case gives `[]` |
| VideoService.FetchVideoDetails | src/services/videoService.ts:71-84 | a record if and only if the response is ok with a record body; a non-record body is passed through as malformed; every failure gives `null` |
| VideoService.Present | src/services/videoService.ts:144-145 | the records of the fetched details are no more than the details |
| VideoService.PresentSingleton | src/services/videoService.ts:145 | one detail contributes its record if it was fetched, and nothing otherwise |
| VideoService.PresentAppend | src/services/videoService.ts:144-145 | the survivors of a concatenation are the concatenated survivors, so `Present` keeps list order and multiplicity |
| VideoService.PresentCount | src/services/videoService.ts:144-145 | the surviving records plus the failures account for every detail |
| VideoService.PresentMembers | src/services/videoService.ts:144-145 | a record survives the filter if and only if some detail request returned it |
| VideoService.TransformAll | src/services/videoService.ts:146 | the map keeps the length, and element k is a view of record k |
| VideoService.LoadAllVideos | src/services/videoService.ts:130-153 | an empty list gives `[]`; a malformed detail gives `[]`; otherwise the length is the list length minus the failures; element k is a view of the k-th surviving record, in list order |
| VideoService.LoadedIdsComeFromDetails | src/services/videoService.ts:140-146 | every loaded id is the id of a record a detail request returned |
| VideoCard.TruncatedPrompt | src/components/VideoCard.tsx:32-34 | a prompt of at most 100 characters is shown unchanged; a longer one is its first 100 characters plus "...", 103 in all; the shown text always starts with a prefix of the prompt |
| VideoCard.ShowMoreButton | src/components/VideoCard.tsx:92 | when the button is shown the cut text is the first 100 characters plus "...", 103 in all; when it is not, the prompt is shown unchanged |
| VideoCard.TruncationImpliesButton | src/components/VideoCard.tsx:32-34 | whenever the cut changes the text, the show-more button is shown |
| VideoCard.ButtonIffTruncationChanged | src/components/VideoCard.tsx:92 | apart from 103-character prompts ending in "...", the button is shown if and only if the cut changes the text |
| VideoCard.ButtonWithoutVisibleCut | src/components/VideoCard.tsx:32-34 | there is a prompt with the button shown and the cut changing nothing |
| VideoCard.Card.constructor | src/components/VideoCard.tsx:29-30 | both flags start false |
| VideoCard.Card.DisplayedPrompt | src/components/VideoCard.tsx:90 | the full prompt when `showFullPrompt` is set, otherwise the truncated prompt |
| VideoCard.Card.ClickVideo | src/components/VideoCard.tsx:45 | `isPlaying` flips; `showFullPrompt` is kept |
| VideoCard.Card.ClickShowMore | src/components/VideoCard.tsx:92-94 | only for long prompts: `showFullPrompt` flips; `isPlaying` is kept |
| VideoFeed.MatchesQuery | src/components/VideoFeed.tsx:32-35 | the empty query matches every video; a match needs the query to be no longer than the prompt or the username |
| VideoFeed.FilteredVideos | src/components/VideoFeed.tsx:32-35 | an order-preserving subsequence; a video is kept if and only if its lower-cased prompt or username includes the lower-cased query; each matching video is kept as often as it occurs |
| VideoFeed.EmptyQueryKeepsAll | src/components/VideoFeed.tsx:32-35 | the empty query keeps every video |
| VideoFeed.QueryCaseInsensitive | src/components/VideoFeed.tsx:33-34 | queries equal up to letter case give the same result |
| VideoFeed.SearchIdempotent | src/components/VideoFeed.tsx:32-35 | searching the result again with the same query changes nothing |
| PromptForm.Submission | src/components/PromptForm.tsx:31-36 | the form is submitted, unchanged, if and only if the prompt has a non-whitespace character |
| PromptForm.SubmitDisabled | src/components/PromptForm.tsx:156 | the button is disabled if and only if the prompt is all whitespace or a request is loading |
| PromptForm.EnabledButtonSubmits | src/components/PromptForm.tsx:156 | the button is enabled if and only if nothing is loading and a submit would go through |
| PromptForm.Form.constructor | src/components/PromptForm.tsx:24-29 | prompt "", style "cinematic", duration 30, music "upbeat" |
| PromptForm.Form.SetPrompt | src/components/PromptForm.tsx:80 | only the prompt changes |
| PromptForm.Form.SetStyle | src/components/PromptForm.tsx:92 | only the style changes |
| PromptForm.Form.SetDuration | src/components/PromptForm.tsx:117 | only the duration changes, to the first slider value |
| PromptForm.Form.SetMusic | src/components/PromptForm.tsx:135 | only the music changes |
| PromptForm.Form.HandleSubmit | src/components/PromptForm.tsx:31-36 | returns the current form if and only if its prompt has a non-whitespace character |
| IndexPage.Toggled | src/pages/Index.tsx:76-80 | `isLiked` flips; `likes` goes down by one if the video was liked, else up by one; nothing else changes |
| IndexPage.ToggledTwice | src/pages/Index.tsx:76-80 | toggling twice restores a video |
| IndexPage.ToggleLike | src/pages/Index.tsx:74-82 | same length and order; exactly the videos with the id are toggled, all others are unchanged |
| IndexPage.LikeTwiceRestores | src/pages/Index.tsx:74-82 | liking the same id twice restores the list |
| IndexPage.LikeUnknownIdUnchanged | src/pages/Index.tsx:74-82 | liking an id not in the list leaves it unchanged |
| IndexPage.LikeCommutesWithFilter | src/pages/Index.tsx:74-82 | a like commutes with any filter whose verdict a like cannot change |
| IndexPage.LikeCommutesWithSearch | src/components/VideoFeed.tsx:32-35 | searching and liking can be done in either order |
| IndexPage.NewVideo | src/pages/Index.tsx:104-115 | the new video takes prompt, style and duration from the form; it has 0 likes, 0 comments, is not liked, and the current user is its creator |
| IndexPage.ProfileVideos | src/pages/Index.tsx:172 | the profile list is the order-preserving subsequence of the videos whose creator is the user, each kept as often as it occurs |
| IndexPage.NewVideoHeadsProfile | src/pages/Index.tsx:117 | a generated video comes first in its creator's profile list, before the old list |
| IndexPage.LikeCommutesWithProfile | src/pages/Index.tsx:172 | liking and listing a profile can be done in either order |
| IndexPage.Index.constructor | src/pages/Index.tsx:12-56 | the mock videos, the feed view, both flags false, no generation pending |
| IndexPage.Index.HandleVideoAction | src/pages/Index.tsx:71-97 | 'like' replaces the list by its toggled version; every other action leaves all state unchanged |
| IndexPage.Index.SetShowCreateDialog | src/pages/Index.tsx:132 | only the dialog flag changes |
| IndexPage.Index.HandleCreateVideo | src/pages/Index.tsx:99-103 | generation is marked in progress and the submitted form joins the pending timers; nothing else changes |
| IndexPage.Index.GenerationFinished | src/pages/Index.tsx:103-119 | only with a pending timer: the video built from the oldest pending form is prepended to the old list, that form leaves the queue, and generation and the dialog are cleared |
| IndexPage.Index.CreateVideo | src/pages/Index.tsx:99-119 | one generation from submit to timer: the video with the submitted prompt, style and duration heads the list, the rest is the old list |
| IndexPage.Index.ProfileList | src/pages/Index.tsx:172 | a subsequence of the videos, all by the current user; every video of the current user is listed, as often as it occurs |
| ChatInterface.BotMessage | src/components/ChatInterface.tsx:77-115 | a bot message with the given id; on success it carries the reply's text, agent and reason; otherwise it carries the fixed error text, agent 'error' and no reason |
| ChatInterface.NextSessionId | src/components/ChatInterface.tsx:90-92 | the session id changes only to the non-empty id of a successful reply, and always does then |
| ChatInterface.CanSend | src/components/ChatInterface.tsx:47 | a send goes ahead if and only if the input has a non-whitespace character and nothing is loading |
| ChatInterface.CountAppend | src/components/ChatInterface.tsx:56 | appending a message adds one to its sender's count and nothing to the other's |
| ChatInterface.AgentDisplayName | src/components/ChatInterface.tsx:138-150 | never empty; "AI Assistant" for an absent or empty name; the table label for a known key; otherwise the key with its first '_' replaced, with the same length |
| ChatInterface.UnknownAgentNameReplacesFirstUnderscore | src/components/ChatInterface.tsx:149 | for an unknown key only the first underscore becomes a space |
| ChatInterface.AgentNameExample | src/components/ChatInterface.tsx:139-149 | "a_b_c" is shown as "a b_c"; "fomc_research_agent" is shown as "FOMC Research"; an absent or empty name is shown as "AI Assistant" |
| ChatInterface.ShowsRoutingBadge | src/components/ChatInterface.tsx:183 | a badge needs a reason and an agent other than the router's |
| ChatInterface.BadgeText | src/components/ChatInterface.tsx:183-189 | the badge shows the message's routing reason, which is then non-empty, and there is no badge text exactly when the badge is not shown |
| ChatInterface.NoBadgeOnWelcomeOrError | src/components/ChatInterface.tsx:183 | neither the welcome message nor an error message shows the routing badge |
| ChatInterface.Chat.constructor | src/components/ChatInterface.tsx:23-35 | only the welcome message; empty input; not loading; no session |
| ChatInterface.Chat.SetInput | src/components/ChatInterface.tsx:33 | only the input changes |
| ChatInterface.Chat.BeginSend | src/components/ChatInterface.tsx:46-58 | sends exactly when the guard passes; otherwise nothing changes; on send the user message is appended after the unchanged history, the input is cleared and loading is set |
| ChatInterface.Chat.Settle | src/components/ChatInterface.tsx:77-124 | exactly one bot message is appended; the session id is updated; loading is cleared; the invariant is kept (bot messages are one ahead of user messages when idle) |
| ChatInterface.Chat.SendMessage | src/components/ChatInterface.tsx:46-125 | a no-op when the guard fails; otherwise the user message and exactly one bot message are appended, the input is cleared, loading ends false and the session id is updated |
| DemoAuth.LoginName | src/components/DemoAuth.tsx:26 | never empty; either "Demo User" or a prefix of the email without '@' |
| DemoAuth.LoginNameSpec | src/components/DemoAuth.tsx:26 | "Demo User" when the email is empty or starts with '@'; otherwise the non-empty text before the first '@' |
| DemoAuth.Submit | src/components/DemoAuth.tsx:19-61 | login succeeds if and only if email and password are non-empty; signup if and only if all three fields are; a success uses the entered email, the fixed picture and a non-empty name (the derived login name, or the given signup name verbatim) |
| DemoAuth.LoginIgnoresName | src/components/DemoAuth.tsx:22-29 | in login mode the name field plays no part |
| DemoAuth.SignupImpliesLogin | src/components/DemoAuth.tsx:22-46 | credentials that signup accepts are accepted by login too |
| DemoAuth.AuthForm.constructor | src/components/DemoAuth.tsx:13-16 | login mode with empty fields |
| DemoAuth.AuthForm.ToggleMode | src/components/DemoAuth.tsx:125 | the mode flips; the fields are kept |
| DemoAuth.AuthForm.SetEmail | src/components/DemoAuth.tsx:100 | only the email changes |
| DemoAuth.AuthForm.SetPassword | src/components/DemoAuth.tsx:112 | only the password changes |
| DemoAuth.AuthForm.SetName | src/components/DemoAuth.tsx:87 | only the name changes |
| DemoAuth.AuthForm.HandleSubmit | src/components/DemoAuth.tsx:19-61 | returns the user record `onLogin` receives, or none when the failure toast is shown; changes no field |

## Left out

- `fetchWithTimeout`, `fetch`, `AbortController` and the 5-second timeout are network I/O. Their settled results are the inputs `ListResponse`, `DetailResponse` and `ChatOutcome`.
- The concurrency of `Promise.all`. The loader takes the settled details in list order, which is the order `Promise.all` keeps.
- `Math.random()`. The two draws are inputs bounded to the integers `Math.floor(Math.random() * n)` can produce.
- VideoService.LoadAllVideos: detail bodies of the wrong shape that do not throw are not modelled. These are partial objects with a string `generation_prompt` and `user_id` but other fields missing. In the source they become views whose missing fields are `undefined`. The model's `Detail` is either a complete record, `null`, or a body that makes the mapper throw.
- List items that are not video objects (`video.id` read from a non-object). `FetchVideos` treats an array body as a list of records.
- Toasts and `console.error` are user-facing notifications with no state of their own.
- `Date.now()` ids, `new Date()` timestamps and `toLocaleTimeString` are clocks. Ids are parameters, and timestamps are not part of `ChatMessage`.
- The `setTimeout` delay of the simulated generation is not modelled. Only its two ends are (`HandleCreateVideo`, `GenerationFinished`). Timers of equal delay are taken to fire in the order they were set.
- Lower-casing covers ASCII letters only; full Unicode `toLowerCase` is not modelled. Strings are sequences of characters, not UTF-16 code units, so `substring(0, 100)` counts characters.
- `ChatInterface.AgentDisplayName`: the JavaScript lookup `agentNames[agentUsed]` also finds inherited `Object.prototype` properties (such as "constructor"). The model looks up the five own keys only.
- ChatInterface.Chat.Settle: replies are taken to have the declared field types. A truthy `agent_used` that is not a string makes the toast's `replace` call throw after the bot message is queued, and the `catch` then queues the error message too. That case appends two bot messages, and `Valid()` does not cover it.
- `handleKeyPress` and the send button both call `sendMessage`, so they are covered by `ChatInterface.Chat.SendMessage`. The Enter/Shift key test is not modelled.
- Auto-scrolling of the chat panel is a DOM effect.
- `sortBy` in `VideoFeed.tsx` is stored but never applied to the list, so it has no effect to model.
- The "load more" and `hasMore` props are not modelled.
- `setCurrentView` is never called, so the view stays the feed. `View` has all three values, but no method changes it.
- The slider's `min`/`max` bounds (10 to 60) are enforced by the slider widget, not by the handler. `PromptForm.Form.SetDuration` accepts any first value.
- The browser's `required` attribute on the sign-in inputs can block submission before `handleSubmit` runs. The model follows the handler's own checks.
- JSX rendering, styling and the other components are presentation or wrappers with no logic of their own: `Header`, `UserProfile`, `LoginDialog`, `GlowButton`, `BlobCursor`, `FallingText`, `FloatingStars`, `DecryptedText` and the Auth0 hooks.
