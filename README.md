# youtube-summary-frontend, modelled in Dafny

This project models the deterministic core of a React client for summarising
YouTube videos, and of the Supabase edge function that writes those
summaries. It covers:

- **The `youtube-summary` edge function.** A stateless handler from a request to a response. It covers the CORS preflight, the watch-URL check (400), the summary template built from the Open Graph title and description, and the catch-all 500.
- **Formatting helpers.**
  - `formatDuration`, proved to round-trip through a parser of its own output.
  - `formatNumber`. Its thousands-separator regular expression is proved equal to a grouping reference. Removing its commas gives back the digits.
  - `getInitials`, proved equal to a scan for word starts.
  - The conversion of the channel-search reply into `VideoInfo` records, and `searchCreator`.
- **The token store of `apiClient.ts`.** `localStorage` is a class holding a `map<string, string>`. Around it sit the `Authorization` header, the header merge and reply handling of `authFetch`, and the order in which `auth.login` stores the token before it asks for the current user.
- **Component and page state.**
  - The authentication state (`user`, `loading`, `error`).
  - The favourite toggle of a video card.
  - The register and login forms.
  - The profile page's handlers and favourites filter.
  - The error page's status and title.

State that the source updates in place becomes a Dafny `class`. Each handler
is a `method` whose `ensures` gives the whole new state: what it sets, and
every other field unchanged. Pure helpers are
functions, and lemmas relate them to reference definitions.

Network replies, parsed HTML and the current time are all parameters. Each
asynchronous call that can fail is a `Settled` value: resolved with a result,
or rejected with the error's message.

In the source, `AuthContext.tsx` imports its calls from `src/api/authApi.ts`,
not from `apiClient.ts`. The model follows that code:

- `logout` in the context removes only `auth_token`.
- The check on mount gets no user when no token is stored.
- `getCurrentUser` never throws, so the context's `Failed to get user` branch cannot be reached.

## Model

| member | source | states |
|---|---|---|
| SummaryFunction.IsWatchUrl | supabase/functions/youtube-summary/index.ts:18 | a URL passes exactly when it is present and contains `youtube.com/watch?v=` (the emptiness test is implied); a passing URL is at least as long as the marker |
| SummaryFunction.SummaryText | supabase/functions/youtube-summary/index.ts:38 | the summary begins with `Title: ` and the title, and contains both the title and the description |
| SummaryFunction.SummaryTemplate | supabase/functions/youtube-summary/index.ts:38 | the summary is exactly `Title: T\n\nDescription: D\n\nThis video discusses T. D` |
| SummaryFunction.Handle | supabase/functions/youtube-summary/index.ts:10-54 | every response has status 200, 400 or 500 and carries both CORS headers; every response with a JSON body also carries `Content-Type: application/json` |
| SummaryFunction.OptionsPreflight | supabase/functions/youtube-summary/index.ts:11-13 | an `OPTIONS` request gets 200, the CORS headers and no body, whatever its body and the page |
| SummaryFunction.InvalidUrlRejected | supabase/functions/youtube-summary/index.ts:18-26 | a missing, empty or non-watch URL gives 400 `Invalid YouTube URL`, and the page does not matter (no fetch) |
| SummaryFunction.BadRequestExactly | supabase/functions/youtube-summary/index.ts:18-26 | status 400 occurs if and only if a parsed body's URL fails the check |
| SummaryFunction.FailuresCollapseTo500 | supabase/functions/youtube-summary/index.ts:46-53 | an unparsable body, or a page that cannot be fetched, gives 500 `Failed to generate summary` |
| SummaryFunction.FetchedPageSucceeds | supabase/functions/youtube-summary/index.ts:34-45 | a fetched page gives 200 with `{summary}`; an absent `og:title` or `og:description` becomes the empty string |
| YoutubeApi.DurationFields | src/api/youtubeApi.ts:114-116 | minutes and seconds are below 60, and hours·3600 + minutes·60 + seconds is the input; hours are positive exactly from 3600 on; below an hour the minutes are the whole minutes |
| YoutubeApi.FormatDuration | src/api/youtubeApi.ts:111-123 | the text is empty exactly for 0; from one hour on it has three `:`-separated fields: the unpadded whole hours, then two two-digit fields that read back as the minutes within the hour and the seconds within the minute; below an hour, two fields: the unpadded whole minutes, then two digits that read back as the seconds within the minute |
| YoutubeApi.FormatDurationRoundTrip | src/api/youtubeApi.ts:111-123 | reading the fields of `formatDuration(n)` back gives `n`, for every positive `n` |
| YoutubeApi.ThumbnailRoundTrip | src/api/youtubeApi.ts:102 | the video id can be read back from the thumbnail URL |
| YoutubeApi.ToVideoInfo | src/api/youtubeApi.ts:96-107 | id, title, description, url and view count are copied; channel and channel id are the channel name; the thumbnail names the video id; the duration is `formatDuration` of the seconds, empty exactly for 0, and parses back to them; a missing upload date falls back to the current time |
| YoutubeApi.ToVideoInfos | src/api/youtubeApi.ts:96-107 | one record per video, position by position |
| YoutubeApi.CreatorVideos | src/api/youtubeApi.ts:89-107 | a reply that is not ok rejects with `Failed to get creator videos`; an ok reply resolves to the converted records, one per video in order |
| YoutubeApi.SearchCreator | src/api/youtubeApi.ts:67-74 | exactly one creator, with id and name equal to the query and a channel URL naming the query |
| NumberFormat.Mark | src/components/VideoCard.tsx:34 | the replacement inserts a single comma or nothing before a digit |
| NumberFormat.SeparatorsKeepDigits | src/components/VideoCard.tsx:34 | the regular expression, applied from any position, only inserts commas: deleting them gives back the input from that position |
| NumberFormat.InsertSeparators | src/components/VideoCard.tsx:34 | the replacement on a digit string equals grouping it in threes from the right, and deleting its commas gives back the input |
| NumberFormat.RegexMatchesGrouping | src/components/VideoCard.tsx:34 | the separator regular expression, applied position by position, equals grouping the digits in threes from the right |
| NumberFormat.GroupedRemoveCommas | src/components/VideoCard.tsx:34 | removing the commas from the grouped digits gives the digits back |
| NumberFormat.GroupedGroups | src/components/VideoCard.tsx:34 | split at the commas, the first group has one to three digits and every later group three |
| NumberFormat.GroupedComma | src/components/VideoCard.tsx:34 | a comma appears if and only if there are more than three digits |
| NumberFormat.WithSeparators | src/components/VideoCard.tsx:34 | for a positive number: comma removal gives its decimal digits, which parse back to it; the groups are well formed; below 1000 the digits are unchanged and have no comma |
| VideoCard.FormatNumber | src/components/VideoCard.tsx:32-35 | `N/A` exactly for a missing or zero count; otherwise the separator properties above |
| VideoCard.Card.constructor | src/components/VideoCard.tsx:21-22 | the favourite flag starts from the prop, and loading starts false |
| VideoCard.Card.ToggleFavorite | src/components/VideoCard.tsx:46-70 | signed out: no call, redirect to `/auth`, state unchanged; signed in: remove is called if and only if the video was a favourite (add otherwise), the flag flips exactly when the call succeeds, and loading ends false |
| CreatorCard.FormatNumber | src/components/CreatorCard.tsx:11-14 | `N/A` exactly for a missing or zero count; comma removal gives the digits; groups are well formed; below 1000 the text is the digits |
| CreatorCard.SameAsVideoCard | src/components/CreatorCard.tsx:11-14 | the two components' `formatNumber` agree on every input |
| CreatorCard.ProfileImage | src/components/CreatorCard.tsx:16-23 | the creator's picture when non-empty, the placeholder URL otherwise |
| ApiClient.StoredToken | src/api/apiClient.ts:19-21 | the stored `auth_token`, or none when the key is absent |
| ApiClient.StoredTokenType | src/api/apiClient.ts:24-26 | the stored `token_type` when non-empty; `bearer` when the key is absent or its value is empty; never empty |
| ApiClient.AuthHeader | src/api/apiClient.ts:44-55 | no header if and only if the token is absent or empty; otherwise only `Authorization: <type> <token>` |
| ApiClient.SetThenGet | src/api/apiClient.ts:29-35 | after storing, the token reads back, the type reads back (or `bearer` if omitted or empty), the header carries both, and no other key changes |
| ApiClient.ClearThenGet | src/api/apiClient.ts:38-41 | after clearing, both keys are gone, the header is empty, the type reads `bearer`, and no other key changes |
| ApiClient.GetToken | src/api/apiClient.ts:19-21 | returns the stored token if and only if one is stored |
| ApiClient.GetTokenType | src/api/apiClient.ts:24-26 | returns the stored type, or `bearer` when nothing is stored |
| ApiClient.SetAuthTokens | src/api/apiClient.ts:29-35 | the storage gains the token and the type (`bearer` when omitted) and is otherwise unchanged |
| ApiClient.ClearAuthTokens | src/api/apiClient.ts:38-41 | the storage loses exactly the two keys |
| ApiClient.GetAuthHeader | src/api/apiClient.ts:44-55 | returns the header built from what is stored; no header when no token is stored |
| ApiClient.MergeHeaders | src/api/apiClient.ts:62-66 | the caller's headers override the auth header, which overrides the JSON content type |
| ApiClient.ApiErrorMessage | src/api/apiClient.ts:73-76 | the reply's non-empty `detail`, else `API Error: <status>` |
| ApiClient.AuthFetchResult | src/api/apiClient.ts:73-83 | a non-2xx reply rejects with that message; 204 resolves to an empty reply; other 2xx replies resolve if and only if the body parses, to the parsed body, and otherwise reject with the parse failure's message |
| ApiClient.Login | src/api/apiClient.ts:89-119 | a refusal rejects with `detail` or `Login failed` and stores nothing; a grant stores the token first, and the follow-up user request carries the header built from it |
| ApiClient.LoginAuthorisesUserRequest | src/api/apiClient.ts:109-113 | after a grant with a non-empty token, the user request's `Authorization` is the received type and token |
| ApiClient.Logout | src/api/apiClient.ts:121-124 | both token keys are removed |
| AuthContext.Guarded | src/api/authApi.ts:84-88 | a call that needs the token rejects with `Not authenticated` when none is stored, and otherwise settles as the server answers |
| AuthContext.CurrentUser | src/api/authApi.ts:52-75 | no user without a stored token; otherwise the fetched user (none on any failure) |
| AuthContext.AuthProvider.constructor | src/context/AuthContext.tsx:31-33 | no user, loading, no error |
| AuthContext.AuthProvider.IsAuthenticated | src/context/AuthContext.tsx:122 | true exactly when there is a user |
| AuthContext.AuthProvider.CheckAuthentication | src/context/AuthContext.tsx:37-48 | the user becomes the current user, which is none without a token; loading ends false |
| AuthContext.AuthProvider.SignIn | src/context/AuthContext.tsx:53-79 | success stores the token, sets the user and clears the error; failure sets the error to the message, keeps the user and rethrows; loading ends false |
| AuthContext.AuthProvider.Login | src/context/AuthContext.tsx:53-65 | as for `SignIn`; after success the provider is authenticated |
| AuthContext.AuthProvider.Register | src/context/AuthContext.tsx:67-79 | as for `SignIn`; after success the provider is authenticated |
| AuthContext.AuthProvider.Logout | src/context/AuthContext.tsx:81-84 | the user is gone and exactly `auth_token` is removed; loading and error are unchanged |
| AuthContext.AuthProvider.UpdateProfile | src/context/AuthContext.tsx:86-98 | success replaces the user; failure (including no token) keeps the user, sets the error and rethrows; loading ends false |
| AuthContext.AuthProvider.ResetPassword | src/context/AuthContext.tsx:100-111 | the user never changes; failure sets the error and rethrows; loading ends false |
| RegisterForm.WithField | src/components/RegisterForm.tsx:21-24 | the named field takes the value and every other field is unchanged |
| RegisterForm.ValidateForm | src/components/RegisterForm.tsx:26-34 | a mismatch is reported first, then a password under 8 characters; valid if and only if the passwords agree and are at least 8 long |
| RegisterForm.ValidationIgnoresIdentity | src/components/RegisterForm.tsx:26-34 | editing the username or email never changes the verdict |
| RegisterForm.MatchingLongPasswordValidates | src/components/RegisterForm.tsx:26-34 | the same password of 8 or more characters in both fields makes the form valid |
| RegisterForm.Form.constructor | src/components/RegisterForm.tsx:13-19 | all four fields empty, no error |
| RegisterForm.Form.HandleChange | src/components/RegisterForm.tsx:21-24 | only the named field changes |
| RegisterForm.Form.HandleSubmit | src/components/RegisterForm.tsx:36-54 | an invalid form shows the problem and `register` is not called; otherwise `register` gets the credentials, success calls `onSuccess` when given, and failure shows the message or `Failed to register` |
| ProfilePage.Initials | src/pages/ProfilePage.tsx:147-153 | `getInitials` equals the upper-cased first characters of the words, scanned left to right |
| ProfilePage.First | src/pages/ProfilePage.tsx:150 | the first character of a piece, or nothing for an empty piece |
| ProfilePage.FirstsAreWordStarts | src/pages/ProfilePage.tsx:147-153 | split-then-first-characters equals the scan for word starts |
| ProfilePage.FirstsLength | src/pages/ProfilePage.tsx:149-151 | one character per non-empty piece |
| ProfilePage.WordStartsHaveNoSpace | src/pages/ProfilePage.tsx:147-153 | the scan never keeps a space |
| ProfilePage.InitialsSpec | src/pages/ProfilePage.tsx:147-153 | `getInitials` is the upper-cased word starts in order; its length is the number of non-empty pieces; it has no space |
| ProfilePage.FilterFavorites | src/pages/ProfilePage.tsx:65 | an order-keeping subsequence of the videos, holding a video if and only if its id is a favourite, and each kept video as often as in the input |
| ProfilePage.NoIdsNoFavorites | src/pages/ProfilePage.tsx:54-57 | with no favourite ids nothing is kept |
| ProfilePage.WithProfileField | src/pages/ProfilePage.tsx:79-82 | only the named profile field changes |
| ProfilePage.WithPasswordField | src/pages/ProfilePage.tsx:84-87 | only the named password field changes |
| ProfilePage.Page.constructor | src/pages/ProfilePage.tsx:12-26 | empty list, empty forms, nothing shown |
| ProfilePage.Page.InitProfile | src/pages/ProfilePage.tsx:30-37 | a user's name and email fill the profile form; no user leaves it; every other field is unchanged |
| ProfilePage.Page.FetchFavorites | src/pages/ProfilePage.tsx:39-77 | signed out: redirect to `/auth` and no call; no ids: empty list and no video fetch; otherwise the fetched videos filtered by the ids; any failure sets `Failed to load favorite videos` and keeps the list; loading ends false; the forms, the success message and both panels are unchanged |
| ProfilePage.Page.HandleProfileChange | src/pages/ProfilePage.tsx:79-82 | only the named profile field changes; every other field of the page is unchanged |
| ProfilePage.Page.HandlePasswordChange | src/pages/ProfilePage.tsx:84-87 | only the named password field changes; every other field of the page is unchanged |
| ProfilePage.Page.HandleProfileUpdate | src/pages/ProfilePage.tsx:89-104 | the profile form is sent; success shows `Profile updated successfully` and closes the editor; failure shows the message; loading ends false; the forms, the list and the password panel are unchanged |
| ProfilePage.Page.HandlePasswordReset | src/pages/ProfilePage.tsx:106-130 | differing new and confirmed passwords give `New passwords do not match` and no call; otherwise the form is sent, and success clears all three fields, closes the panel and shows `Password reset successfully`; failure shows the message; the profile form, the list and the profile editor are unchanged |
| LoginForm.FailureMessage | src/pages/LoginForm.tsx:27-28 | the thrown message, or `Failed to login. Please try again.` when it is empty |
| LoginForm.Form.constructor | src/pages/LoginForm.tsx:6-9 | empty fields, no error, not loading |
| LoginForm.Form.SetUsername | src/pages/LoginForm.tsx:50 | only the username changes |
| LoginForm.Form.SetPassword | src/pages/LoginForm.tsx:65 | only the password changes |
| LoginForm.Form.HandleSubmit | src/pages/LoginForm.tsx:13-32 | an empty field gives `Please enter both username and password` and no call; otherwise `login` gets exactly the typed credentials, success navigates to `/` with no error, and failure shows the message; loading ends false |
| ErrorPage.ViewOf | src/pages/ErrorPage.tsx:8-18 | a thrown error gives 500 `Server Error`; a route error keeps its status; the title is `Page Not Found` if and only if the status is 404 |
| ErrorPage.ViewDeterminedByStatus | src/pages/ErrorPage.tsx:12-18 | two errors showing the same status show the same page |

## Left out

- Network calls. The page fetch in the edge function, every `fetch` in `apiClient.ts`, `authApi.ts` and `youtubeApi.ts`, and `users.getCurrentUser` are not modelled. Their outcomes are parameters.
- HTML parsing with cheerio. The edge function sees only whether the `og:title` and `og:description` contents are present.
- Non-string JSON values. A request whose `url` is not a string is not modelled. Neither is a `detail` field that is an array or an object.
- Numeric inputs are naturals. Fractional, negative and non-finite JavaScript numbers are not modelled.
- Large numbers are not modelled. JavaScript writes numbers of 1e21 and above in exponent form, and loses precision above 2^53; `formatNumber` and `formatDuration` on such inputs are outside the model.
- Upper-casing is ASCII only. `toUpperCase` on other characters, and string lengths counted in UTF-16 code units, are not modelled.
- Dates and locales. `formatDate` and the current time are not modelled; the time is a parameter.
- Timers, page reloads, navigation side effects, rendering, CSS and routing are not modelled.
- `ApiClient.Login`: stops at the headers of the user request. The user reply and the returned object are not modelled.
- `ApiClient.SetAuthTokens`: a `null` token type is not modelled. In the source, `null` bypasses the default parameter and stores the text `null`.
- `ApiClient.MergeHeaders`: caller headers are a plain map. A `Headers` object or an array of pairs, which spread differently, is not modelled.
- `AuthContext.AuthProvider.CheckAuthentication`: the `Failed to get user` error is not modelled, because `getCurrentUser` catches every failure and returns null, so that branch cannot be reached.
- Input names outside each form's declared fields are not modelled. `[name]: value` would add a new property for them.
- `VideoCard.Card.ToggleFavorite`: the redirect is a returned route, not a change of `window.location`.
