# Link: candidate cursor, matches and messages, and the screens around them

A Dafny model of the state logic of Link, a dating and networking app.

**Candidate cursor.** The application store keeps a fixed list of candidate profiles and a cursor into it.
- Moving on (`nextUser`, `passUser`, and `likeUser` after a like) scans the list circularly from the place after the cursor for the first candidate who meets the preferences of the current mode.
- Dating mode checks gender, an inclusive age range and a maximum distance. Networking mode checks gender, the maximum distance and the candidate's professional verification.
- Age and distance are tested the way JavaScript tests numbers, so an absent or zero value fails.
- The scan tests at most one full round. When nobody qualifies, the cursor stays one place on.
- `refreshProfiles` runs the same scan from position 0. Changing the mode or either preference set runs it too.
- Restoring the daily like quota does not rescan.

**Likes, matches and messages.**
- A like spends one of ten daily likes and appends a pending match.
- Sending a message appends an unread message to a known match and stamps the match's last-message time. Marking a message read sets its flag.
- Every failure is a silent no-op: no likes left, or an unknown match or message id.

**Around the store:**
- the authentication store: demo login and signup, logout, and a shallow user merge;
- the profile card's photo cursor;
- the matches-list row: time since the last message, avatar and preview;
- the verification screen's ladder of buttons;
- the subscription screen's plan selection and 30-day premium record;
- the message composer's trim-then-send.

**Modelling conventions.**
- Ids and clock readings are parameters. Timestamps are integer epoch milliseconds.
- Store actions and screen handlers are methods of classes whose fields are the state they change.
- Each method's postcondition ties the new state to pure functions. Separate lemmas prove what those functions promise.
- The two scans are one loop, `Matching.FindNext`, proved against the recursive specification `Matching.Scan`. `Matching.ScanFromSpec` then characterises `Scan` as "first qualifier in circular order, or the start when nobody qualifies".

Modules:
- `Types`: records and enumerations;
- `Text`: JavaScript whitespace, `trim`, and decimal rendering and parsing;
- `Utf16`: string length in UTF-16 code units and the cut of a length-limited field;
- `Matching`: the preference predicate and the scan;
- `Mocks`: the five fixture candidates, three matches and six messages;
- `AppStore`, `AuthStore`, `ProfileCard`, `MatchCard`, `Verification`, `Subscription` and `MessageInput`: one per source file.

## Model

| member | source | states |
|---|---|---|
| Matching.MeetsPreferences | link-app/store/app-store.ts:179-191 | a qualifying candidate has an accepted gender and a non-zero distance within the limit; in dating mode also a non-zero age inside the range, in networking mode a verified professional profile |
| Matching.FalsyFieldsFail | link-app/store/app-store.ts:179-191 | a candidate without a non-zero distance never qualifies; in dating mode neither does one without a non-zero age |
| Matching.ModeIndependence | link-app/store/app-store.ts:179-191 | networking mode ignores age and the age range; dating mode ignores the professional-verification flag |
| Matching.RelaxingKeepsCandidates | link-app/store/app-store.ts:179-191 | widening the gender, age range or distance never excludes a candidate who qualified |
| Matching.Scan | link-app/store/app-store.ts:175-200 | the loop's stopping point always indexes the candidate list |
| Matching.ScanFromSpec | link-app/store/app-store.ts:170-206 | the scan stops on the first qualifying candidate in circular order from the start, skipping only failing ones; if none qualifies it ends on the start |
| Matching.ScanFindsQualifier | link-app/store/app-store.ts:193-195 | if anyone qualifies, the scan lands on someone who qualifies |
| Matching.FailingCandidateOnlyAsFallback | link-app/store/app-store.ts:175-200 | a failing candidate is the result only when the scan started on it and nobody qualifies |
| Matching.FindNext | link-app/store/app-store.ts:170-200 | the loop returns the scan's result after at most one test per candidate; all tests before the stop failed; it stops early only on a qualifier, and after a full round it is back at the start with nobody qualifying |
| AppStore.MergePreferences | link-app/store/app-store.ts:101-105 | each supplied key replaces the stored value; every absent key keeps it |
| AppStore.MergeLaws | link-app/store/app-store.ts:100-121 | merging an empty patch keeps the preferences; merging a patch twice equals merging it once; two merges equal one merge of the combined patch |
| AppStore.FindMatchIndex | link-app/store/app-store.ts:259-260 | finds the first match with the id, and finds none exactly when no match has it |
| AppStore.StampLastMessage | link-app/store/app-store.ts:276-280 | same length; only matches with the id get the new last-message time; every other field and match is unchanged |
| AppStore.StampTwice | link-app/store/app-store.ts:276-280 | stamping twice is stamping once with the later time |
| AppStore.MarkRead | link-app/store/app-store.ts:290-297 | same length and order; exactly the messages with the id become read; nothing else changes |
| AppStore.MarkReadIdempotent | link-app/store/app-store.ts:290-297 | marking twice equals marking once; an unknown id changes nothing |
| AppStore.NewMatch | link-app/store/app-store.ts:138-146 | a new match is pending, from the session user, to the liked candidate, in the current mode |
| AppStore.NewMessage | link-app/store/app-store.ts:263-273 | a new message is unread, from the session user to the match's candidate, with the given content |
| AppStore.Store.ActivePreferences | link-app/store/app-store.ts:167 | the dating set in dating mode, the networking set in networking mode |
| AppStore.Store.constructor | link-app/store/app-store.ts:58-125 | initial state: dating mode, dark theme, the five candidates with the cursor at 0, ten likes, most compatible "3", the default preference sets, the fixture matches and messages |
| AppStore.Store.SetTheme | link-app/store/app-store.ts:73 | sets the theme and nothing else |
| AppStore.Store.NextUser | link-app/store/app-store.ts:164-208 | the cursor moves to the scan from the place after it; it stays in range and lands on a qualifier, or one place on when nobody qualifies; nothing else changes |
| AppStore.Store.PassUser | link-app/store/app-store.ts:159-162 | exactly NextUser; the candidate id plays no part |
| AppStore.Store.RefreshProfiles | link-app/store/app-store.ts:210-253 | the cursor lands on the first qualifier from position 0, or on 0 when nobody qualifies |
| AppStore.Store.LikeUser | link-app/store/app-store.ts:128-157 | with no likes left nothing changes; otherwise exactly one pending match is appended, earlier matches are kept, the quota drops by one and the cursor moves as NextUser |
| AppStore.Store.SendMessage | link-app/store/app-store.ts:255-288 | an unknown match id changes nothing; otherwise one message created at the first clock reading is appended to the match's candidate, and only that match's last-message time changes, to the second reading |
| AppStore.Store.MarkMessageAsRead | link-app/store/app-store.ts:290-300 | the messages become MarkRead of the old ones |
| AppStore.Store.ResetLikes | link-app/store/app-store.ts:302-305 | the quota is ten again; the cursor is not rescanned |
| AppStore.Store.UpdateDatingPreferences | link-app/store/app-store.ts:100-110 | merges the supplied keys into the dating set, then rescans from 0 under the current mode's set |
| AppStore.Store.UpdateNetworkingPreferences | link-app/store/app-store.ts:111-121 | merges the supplied keys into the networking set, then rescans from 0 under the current mode's set |
| AppStore.Store.SetAppMode | link-app/store/app-store.ts:60-69 | sets the mode and rescans from 0 under the new mode's set |
| AppStore.DefaultDatingScan | link-app/store/app-store.ts:82-89 | with the default dating set a refresh lands on Emma, and moving on from Emma skips James and lands on Sophia |
| AppStore.OliviaNeverQualifiesForNetworking | link-app/store/app-store.ts:186-191 | Olivia fails every networking set; the scan stops on her only as the fallback of a scan that started on her |
| AppStore.DefaultNetworkingSkipsOlivia | link-app/store/app-store.ts:90-99 | with the default networking set, moving on from Michael skips Olivia and wraps round to Emma |
| AuthStore.MergeUser | link-app/store/auth-store.ts:132 | each of the fourteen fields takes the patch's value when supplied and keeps the user's otherwise |
| AuthStore.MergeUserLaws | link-app/store/auth-store.ts:130-134 | an empty patch keeps the user; a full patch replaces it; merging is idempotent; a one-field patch changes only that field |
| AuthStore.Store.constructor | link-app/store/auth-store.ts:85-88 | the demo user, authenticated, not loading, no error |
| AuthStore.Store.BeginLogin | link-app/store/auth-store.ts:89-90 | loading set and error cleared before the delay |
| AuthStore.Store.CompleteLogin | link-app/store/auth-store.ts:94-98 | the demo user, authenticated, loading cleared, whatever the credentials |
| AuthStore.Store.BeginSignup | link-app/store/auth-store.ts:106-107 | loading set and error cleared before the delay |
| AuthStore.Store.CompleteSignup | link-app/store/auth-store.ts:111-116 | the demo user with the supplied fields laid over it, authenticated, loading cleared |
| AuthStore.Store.Logout | link-app/store/auth-store.ts:124-129 | no user and not authenticated; loading and error untouched |
| AuthStore.Store.UpdateUser | link-app/store/auth-store.ts:130-134 | no user stays no user; a present user gets the shallow merge |
| ProfileCard.NextIndex | link-app/components/profile/ProfileCard.tsx:71-75 | moves on one photo exactly when not on the last; stays in range |
| ProfileCard.PrevIndex | link-app/components/profile/ProfileCard.tsx:77-81 | moves back one photo exactly when not on the first |
| ProfileCard.NextPrevInverse | link-app/components/profile/ProfileCard.tsx:71-81 | a move forward undone by a move back returns to the same photo, and the other way round |
| ProfileCard.NextTimesStopsAtLast | link-app/components/profile/ProfileCard.tsx:71-75 | k presses of next advance k photos but stop on the last |
| ProfileCard.PhotoTarget | link-app/components/profile/ProfileCard.tsx:268 | a photo comment names the displayed photo's id |
| ProfileCard.PromptTarget | link-app/components/profile/ProfileCard.tsx:197 | a prompt comment names the prompt's index in decimal |
| ProfileCard.TargetsIdentify | link-app/components/profile/ProfileCard.tsx:193-198 | the prompt index reads back from its target; different prompts give different targets; prompt and photo targets never coincide |
| ProfileCard.Card.constructor | link-app/components/profile/ProfileCard.tsx:45-46 | first photo, details closed |
| ProfileCard.Card.NextPhoto | link-app/components/profile/ProfileCard.tsx:71-75 | the cursor becomes NextIndex of the old one and stays on a photo |
| ProfileCard.Card.PrevPhoto | link-app/components/profile/ProfileCard.tsx:77-81 | the cursor becomes PrevIndex of the old one and stays on a photo |
| ProfileCard.Card.PressIndicator | link-app/components/profile/ProfileCard.tsx:83-85 | the cursor moves to the tapped dot's photo |
| ProfileCard.Card.ToggleDetails | link-app/components/profile/ProfileCard.tsx:87-94 | flips the details panel and asks to scroll to 300 on opening, 0 on closing |
| ProfileCard.Card.CommentOnPhoto | link-app/components/profile/ProfileCard.tsx:268 | the comment names the photo under the cursor |
| ProfileCard.Card.ReceiveUserAsWritten | link-app/components/profile/ProfileCard.tsx:45 | a new candidate keeps the previous cursor and details state |
| ProfileCard.StaleCursorAfterPass | link-app/components/profile/ProfileCard.tsx:114-119 | passing on Sophia at her third photo lands on Olivia, who has only two photos |
| ProfileCard.Card.ReceiveUser | link-app/components/profile/ProfileCard.tsx:45-46 | a new candidate starts at the first photo with details closed, so the cursor is on a photo |
| MatchCard.FloorsCompose | link-app/components/matches/MatchCard.tsx:33-35 | flooring to minutes, then hours, then days equals flooring by an hour or a day directly |
| MatchCard.Bucket | link-app/components/matches/MatchCard.tsx:32-43 | minutes exactly below an hour (future times included), hours from one hour to below a day, days from then on; each count is the elapsed time floored to its unit |
| MatchCard.Render | link-app/components/matches/MatchCard.tsx:37-43 | the count in decimal followed by the unit letter, which is m, h or d exactly for minutes, hours or days |
| MatchCard.RenderInjective | link-app/components/matches/MatchCard.tsx:37-43 | different buckets never render alike |
| MatchCard.FormatLastActive | link-app/components/matches/MatchCard.tsx:27-44 | empty exactly when there is no last message; otherwise the rendered bucket of now minus the last-message time |
| MatchCard.FormatExamples | link-app/components/matches/MatchCard.tsx:37-40 | ninety minutes ago reads "1h"; one millisecond in the future reads "-1m" |
| MatchCard.FirstProfile | link-app/components/matches/MatchCard.tsx:25 | the position of the first photo flagged as the profile photo, and none exactly when no photo is flagged |
| MatchCard.ProfilePhoto | link-app/components/matches/MatchCard.tsx:25 | a flagged photo when one exists, else the first photo; nothing only without photos |
| MatchCard.PreviewText | link-app/components/matches/MatchCard.tsx:80-96 | a non-empty opening comment when there is one, else the line for the match's mode; never empty |
| MatchCard.UncommentedPreview | link-app/components/matches/MatchCard.tsx:80-96 | a match opened without a comment previews as the mode line, whatever item it was opened on |
| MatchCard.ShowsVerificationBadge | link-app/components/matches/MatchCard.tsx:62 | the badge shows exactly on the rungs above unverified |
| Verification.IdentityButtonDisabled | link-app/app/verification.tsx:163 | disabled exactly from the Verified rung up |
| Verification.ProfessionalButtonDisabled | link-app/app/verification.tsx:208 | enabled exactly on the Verified rung; disabled without a user |
| Verification.IdentityComplete | link-app/app/verification.tsx:166 | the identity marker shows exactly from the Verified rung up |
| Verification.ProfessionalComplete | link-app/app/verification.tsx:211 | the professional marker shows exactly on the top rung |
| Verification.Headline | link-app/app/verification.tsx:48-99 | never empty; a fully-verified headline exactly on the top two rungs |
| Verification.Requestable | link-app/app/verification.tsx:157-209 | while loading no status can be requested |
| Verification.LadderSteps | link-app/app/verification.tsx:163-208 | professional verification can be requested exactly from Verified; identity verification exactly below it; never both; nothing at the top |
| Verification.MarkersMatchButtons | link-app/app/verification.tsx:163-211 | the identity marker shows exactly when its button is disabled; the professional marker only with the identity marker |
| Verification.HeadlinesDistinct | link-app/app/verification.tsx:48-99 | each of the four statuses has its own headline |
| Verification.StuckWithoutUser | link-app/app/verification.tsx:31-42 | a press with no session user leaves the screen loading after the timer, writes nothing, and no button can be pressed again whatever the status becomes |
| Verification.Screen.constructor | link-app/app/verification.tsx:29 | not loading, no request pending |
| Verification.Screen.HandleVerify | link-app/app/verification.tsx:31-35 | loading is set and the request is pending; the user present at the press is remembered |
| Verification.Screen.TimerFires | link-app/app/verification.tsx:35-42 | with a user at the press: the status is written into the current user and loading clears; without one: nothing changes and loading stays set |
| Subscription.InitialTier | link-app/app/subscription.tsx:20-22 | the user's tier, or free without a user |
| Subscription.PlanTitle | link-app/app/subscription.tsx:63-67 | never empty; the paid plans, and only they, carry the "Link" brand |
| Subscription.Cards | link-app/app/subscription.tsx:60-74 | one card per plan in order, titled Free / Link+ / Link Pro; a card is selected exactly when its plan is selected; only the dating plan is popular |
| Subscription.CardsWellFormed | link-app/app/subscription.tsx:60-74 | exactly one card is selected, at most one is popular, and titles are distinct |
| Subscription.ButtonLabel | link-app/app/subscription.tsx:77-79 | "Continue with Current Plan" exactly when a user's tier equals the selection, "Subscribe Now" otherwise |
| Subscription.LabelOnOpen | link-app/app/subscription.tsx:20-22 | on opening, the label is "Continue with Current Plan" exactly when there is a user |
| Subscription.SubscribedPremium | link-app/app/subscription.tsx:28-32 | active, the selected tier, expiring exactly thirty days of milliseconds after now |
| Subscription.SubscribeThenLabel | link-app/app/subscription.tsx:24-37 | after subscribing, the same plan reads "Continue…" and every other plan "Subscribe Now"; subscribing again only moves the expiry |
| Subscription.Screen.constructor | link-app/app/subscription.tsx:20-22 | the initial selection is InitialTier of the user |
| Subscription.Screen.Select | link-app/app/subscription.tsx:71 | selects the pressed plan |
| Subscription.Screen.HandleSubscribe | link-app/app/subscription.tsx:24-37 | with a user, writes the subscribed premium record, keeps every other field and navigates back; without one, nothing changes |
| MessageInput.ShowsSendButton | link-app/components/messaging/MessageInput.tsx:76 | the send button shows exactly when the text is non-empty, so whenever a send would hand text on |
| MessageInput.Kept | link-app/components/messaging/MessageInput.tsx:73 | of text inserted at the cursor, the field keeps a prefix: all of it when it fits beside the surrounding text, otherwise as much as fits, and one more character would cross the 500-unit limit |
| MessageInput.FullFieldRefusesInsertion | link-app/components/messaging/MessageInput.tsx:73 | an insertion anywhere in a full field keeps nothing of the inserted text |
| MessageInput.AstralInputKeepsHalf | link-app/components/messaging/MessageInput.tsx:73 | typing 250 or more characters, all outside the Basic Multilingual Plane (300 emoji, say), into the empty field keeps exactly the first 250 |
| MessageInput.Outgoing | link-app/components/messaging/MessageInput.tsx:33-38 | something is sent exactly when the text is not all whitespace; what is sent is a non-empty piece of the text with only whitespace around it and none at its ends |
| MessageInput.OutgoingStable | link-app/components/messaging/MessageInput.tsx:35 | sending the sent text again sends the same text |
| MessageInput.BlankTextSendsNothing | link-app/components/messaging/MessageInput.tsx:76-93 | whitespace-only text shows the send button yet sends nothing |
| MessageInput.Composer.constructor | link-app/components/messaging/MessageInput.tsx:30-31 | empty text, extras closed |
| MessageInput.Composer.ChangeText | link-app/components/messaging/MessageInput.tsx:70-73 | an edit replacing the selection at the cursor keeps the text before and after it, inserts what Kept allows, and keeps the field within 500 UTF-16 code units |
| MessageInput.Composer.HandleSend | link-app/components/messaging/MessageInput.tsx:33-38 | hands on Outgoing of the text; clears the field exactly when something was sent, otherwise keeps it |
| MessageInput.Composer.ToggleExtras | link-app/components/messaging/MessageInput.tsx:40-42 | flips the extras drawer |
| Text.TrimIsCore | link-app/components/messaging/MessageInput.tsx:34-35 | trim keeps a contiguous piece with only whitespace around it and none at its ends |
| Text.TrimEmptyIff | link-app/components/messaging/MessageInput.tsx:34 | trim is empty exactly when the text is all whitespace |
| Text.TrimIdempotent | link-app/components/messaging/MessageInput.tsx:35 | trimming twice equals trimming once |
| Utf16.Utf16Length | link-app/components/messaging/MessageInput.tsx:73 | a string's JavaScript length is between its character count and twice that, and zero only when empty |
| Utf16.Utf16Concat | link-app/components/messaging/MessageInput.tsx:73 | the code units of a concatenation add up |
| Utf16.Utf16PrefixMonotone | link-app/components/messaging/MessageInput.tsx:73 | a prefix never takes more code units than the whole |
| Utf16.AstralLength | link-app/components/messaging/MessageInput.tsx:73 | a text made only of characters outside the Basic Multilingual Plane has twice as many code units as characters |
| Utf16.CutToLimit | link-app/components/messaging/MessageInput.tsx:73 | the cut is a prefix of the input within the limit, the whole input when it fits, and one more character would cross the limit |
| Utf16.CutIsLongest | link-app/components/messaging/MessageInput.tsx:73 | no longer prefix of the input fits |
| Text.IntRoundTrip | link-app/components/profile/ProfileCard.tsx:197 | a decimal rendering reads back to the number |
| Text.IntToStringInjective | link-app/components/matches/MatchCard.tsx:37-43 | different numbers render differently |

## Left out

- Persistence is not modelled. Both stores are saved to device storage, and the application store saves only mode, theme, matches, messages, the like quota and the preference sets. The candidate list and the cursor are not saved.
- Clock and id generation are parameters. The application builds ids from `Date.now()`, so two likes in the same millisecond would share an id; the model takes any id. ISO date strings are integer milliseconds here.
- Date-string parsing in the matches row is not modelled. An invalid string would give NaN; an empty string counts as absent, which the model expresses as `None`.
- The login and signup delays become start and completion transitions. Their `catch` branches cannot be reached with the demo code and are not modelled.
- An empty candidate list is excluded by `AppStore.Store.Valid`. There JavaScript's modulo by zero yields NaN. The fixture has five candidates and no action changes the list.
- NaN and non-numeric ages or distances are not modelled. Neither are keys passed explicitly as `undefined` in a partial update, which would overwrite a value in JavaScript. A patch field here is either supplied or absent.
- The multi-select preference lists (languages, education, industries, job titles, goals, levels) are stored and merged but never consulted by the scan, and the model keeps them the same way.
- `mostCompatibleUserId` appears only in the initial state; no action reads or writes it.
- Floating point is not modelled: the height display, the plan prices and avatar sizing.
- Locale-formatted message times are not modelled.
- Rendering, styling, animation and icons are not modelled. Navigation appears only as the returned `navigatedBack` flag; the scroll after toggling details only as the returned offset.
- The composer's image, GIF and voice callbacks belong to the caller and are not part of this model.
- Free text in the fixture (bios, prompts, photo URLs, job details, message bodies) is left empty; only the fields the model reads are kept.
- AuthStore.DemoUser keeps only the fields the model reads or merges. It leaves out the demo user's interests, bio, prompts, skills, professional summary, contact preferences and photo URLs. The `Types.User` record also drops the `drinking` and `smoking` habits, the professional `services` list and the location `coordinates`; no modelled code reads them.
- MessageInput.Composer.ChangeText takes the edit as the platform reports it: the text before the cursor, the replaced selection, the inserted text and the text after. The 500-unit limit is counted in UTF-16 code units and cuts only the inserted text. The model keeps whole characters, so a cut never splits a surrogate pair; it does not model grapheme clusters, so it may split a sequence such as a letter and its combining mark, or an emoji and its modifier, which a platform counting composed sequences would keep together or drop whole. A platform that splits a surrogate pair would instead leave a broken last character.
- ProfileCard.Card.CommentOnPhoto requires a non-empty photo list. The application would fail reading the id of a missing photo for a candidate without photos.
- ProfileCard.Card.PressIndicator requires a tapped position below the photo count. Dots are drawn one per photo.
- Verification.Screen.HandleVerify requires the screen not to be loading. Its buttons cannot be pressed while loading, so overlapping timers are not modelled.
- With no session user the verification screen shows no headline. The model's headline mapping covers only the four statuses.

## Findings

| source | as written | input that shows it | evidently intended | confidence | as-written member | corrected member |
|---|---|---|---|---|---|---|
| link-app/components/profile/ProfileCard.tsx:45 | the photo cursor is component state; the discover screen hands the card each new candidate without remounting it, so the cursor carries over | default dating preferences, Sophia shown at her third photo (index 2), pass: the store moves to Olivia, who has two photos, and the card reads `photos[2]`, which does not exist | each candidate's card starts at the first photo | medium, not executed | ProfileCard.Card.ReceiveUserAsWritten, with ProfileCard.StaleCursorAfterPass | ProfileCard.Card.ReceiveUser |
