# Forces Unite: identity guard, user entity, post form and Social page URL state

This project is a Dafny model of the decision logic in the "find a group to
play with" platform. The logic sits on both tiers:

- **`UsersController`** (API). A profile request names its user by a route
  token. The token is either the alias `current`, which resolves to the
  identity slot that the authentication middleware attached, or an `int` in
  text. The two failures stay distinct: a bad identity slot gives 401 and a
  bad token gives 404. The self-scoped profile update overwrites the
  client's `Id` with the caller's id. It then checks an optional avatar URL:
  the URL must parse and must already be in managed storage, or the answer
  is 422. The connected-posts listing pins the query to the caller and marks
  every post as joined. The groups listing has paging defaults.
- **`ApplicationUser`** (API entity). Its `Username` setter keeps
  `NormalizedUsername` in step with the name.
- **`CreatePost`** (front end). This covers the "add a new value" suggestion
  of the game and tag pickers, the tag picker's option list, the game
  picker's error flag, the submit handler (tag ids in order, then the game
  guard), and the submit button's `disabled` rule.
- **`Social`** (front end). This covers the tab, relation, search text and
  page read from the URL, how they are written back, the page reset on a
  selector change, and the request sent for each tab.

On the API tier and in the post form, services become function-typed
parameters: user lookup and update, search, the storage probe, and the tag
and game find-or-create calls. So do the .NET `Uri` constructor and dayjs's
`toISOString`. MUI's option filter is not a parameter: `FilterOptions`
takes the list the filter returned. On the Social page the services
(`UserService`, `RelationService`) are left out, and what the page would
send them is returned as a `ContentRequest` or `SearchRequest` value. Four
library behaviours are written out as concrete definitions, because the
properties rest on them: .NET's `int.TryParse`/`ToString`, JavaScript's
`parseInt`/`String` and JavaScript's `.length`, which counts UTF-16 code
units (all in `numbers.dfy`), and .NET's `string.ToUpper`, restricted to
ASCII letters (`Models.ToUpper`). In the profile update, where it matters
whether the storage probe and the update are called, the calls are returned
as a call log, so that "is never called" and "comes before" can be stated.

Modules: `Common` (Option), `Numbers`, `Controllers`
(users_controller.dfy), `Models` (application_user.dfy), `CreatePost`,
`Social`.

Negative ids are not rejected anywhere: `int.TryParse` accepts a leading
`-`, and the controller applies no further check. The model keeps that
behaviour, although an identity rule might be expected to refuse them.
`ResolveExplicitUser` and `ResolveCurrentUser` hold for every `int`,
negative ones included.

## Model

| member | source | states |
|---|---|---|
| `Numbers.FormatInt` | FU.API/FU.API/Controllers/UsersController.cs:124 | `n.ToString()` (and `String(n)`, as in `params.set('page', page)` at FU.SPA/src/components/pages/Social.jsx:82): a `-` exactly for a negative `n`, then digits with no leading zero whose value is the magnitude of `n`. |
| `Numbers.TryParseInt32` | FU.API/FU.API/Controllers/UsersController.cs:38 | `int.TryParse`, also used at lines 46 and 69: `null` never parses, and a string that parses holds at least one digit. |
| `Numbers.JsParseInt` | FU.SPA/src/components/pages/Social.jsx:36 | `parseInt(s, 10)`: `NaN` for `null` (the text `"null"`), and a number only for a string holding at least one digit. |
| `Numbers.JsLength` | FU.SPA/src/components/CreatePost.jsx:61 | JavaScript's `.length`, as also at lines 184 and 223: at least the number of characters and at most twice it, and equal to it when no character lies above U+FFFF. |
| `Numbers.JsLengthOfAstral` | FU.SPA/src/components/CreatePost.jsx:61 | Two characters above U+FFFF have `.length` 4. |
| `Numbers.NatDigits` | FU.API/FU.API/Controllers/UsersController.cs:124 | The decimal text of a count has only digits, reads back as that count, and has no leading zero unless the count is 0. |
| `Numbers.TryParseFormatted` | FU.API/FU.API/Controllers/UsersController.cs:46 | `int.TryParse` accepts every `int` written in decimal: a negative one, or one padded on either side with .NET white space. |
| `Numbers.TryParseFormatInt` | FU.API/FU.API/Controllers/UsersController.cs:38 | `int.TryParse(n.ToString())` gives back `n` for every `int`. |
| `Numbers.TryParseRejectsOutOfRange` | FU.API/FU.API/Controllers/UsersController.cs:46 | A decimal integer outside the Int32 range does not parse. |
| `Numbers.JsParseIntFormatted` | FU.SPA/src/components/pages/Social.jsx:36 | `parseInt(String(n) + rest, 10)` is `n` for every integer, when `rest` does not continue the digits. |
| `Numbers.JsParseIntNull` | FU.SPA/src/components/pages/Social.jsx:36 | `parseInt(null, 10)` is `NaN`. |
| `Controllers.ResolveProfileUserId` | FU.API/FU.API/Controllers/UsersController.cs:35-51 | The answer is an id, 401 or 404, never 422. 401 only happens for the `current` alias, and 404 only for other tokens. An alias that resolves needs an identity slot. |
| `Controllers.ResolveCurrentUser` | FU.API/FU.API/Controllers/UsersController.cs:36-43 | The alias with an identity slot holding any `int`, with or without .NET white space around it, resolves to exactly that `int`. |
| `Controllers.ResolveCurrentUserUnauthenticated` | FU.API/FU.API/Controllers/UsersController.cs:38-42 | The alias with a missing or unparseable identity slot is 401. |
| `Controllers.ResolveExplicitIgnoresIdentity` | FU.API/FU.API/Controllers/UsersController.cs:44-51 | For any token other than the alias, the result does not depend on the identity slot. |
| `Controllers.ResolveExplicitUser` | FU.API/FU.API/Controllers/UsersController.cs:44-51 | A token holding any `int` (negative or white-space padded ones included) resolves to that `int`, whatever the identity slot holds. |
| `Controllers.ResolveMalformedRoute` | FU.API/FU.API/Controllers/UsersController.cs:46-50 | A token that is neither the alias nor an `int` is 404. |
| `Controllers.ResolveOutOfRangeRoute` | FU.API/FU.API/Controllers/UsersController.cs:46-50 | A decimal id outside the Int32 range is 404. |
| `Controllers.GetUserProfile` | FU.API/FU.API/Controllers/UsersController.cs:53-60 | 401 exactly when resolution gives 401. 200 exactly when an id resolved and the user service has a profile for it, and the body is that profile. Otherwise 404. |
| `Controllers.GetCurrentUserProfile` | FU.API/FU.API/Controllers/UsersController.cs:32-60 | `GET current` with identity `n` answers the service's profile of `n`, or 404 when there is none. |
| `Controllers.UpdateProfileSpec` | FU.API/FU.API/Controllers/UsersController.cs:66-103 | 401 exactly when the identity slot does not parse, and then no call is made. Every payload sent to the update has the caller's id and every other field as sent. There are at most two calls, and the update comes last. The storage probe is only asked about the avatar URL, and only after that URL parsed. 422 exactly when an avatar URL is present and is malformed or not in storage, and then no update is made. The message is "Invalid avatar url format." exactly for a malformed URL, and the storage message exactly for a well-formed URL outside storage. 200 exactly when the update was called, and the body is its result. |
| `Controllers.UserProfile.constructor` | FU.API/FU.API/Controllers/UsersController.cs:66 | The bound request body holds exactly the id, avatar URL and other fields sent. |
| `Controllers.UpdateWithoutAvatar` | FU.API/FU.API/Controllers/UsersController.cs:77-100 | With no avatar URL, the only call is the update with the caller's id, and the answer is its result. |
| `Controllers.UpdateAvatarAcceptedIffStored` | FU.API/FU.API/Controllers/UsersController.cs:94-97 | A well-formed avatar URL is accepted if and only if storage holds it. |
| `Controllers.UpdateProfile` | FU.API/FU.API/Controllers/UsersController.cs:66-103 | The method writes only the payload's `Id`, and its answer and calls are those of `UpdateProfileSpec`. `Id` becomes the caller's id as soon as the identity parses, even when the request then fails with 422. `Id` is unchanged on 401. |
| `Controllers.GetUsersAssociatedPosts` | FU.API/FU.API/Controllers/UsersController.cs:107-127 | No authorized user gives 401 with no search. Otherwise the search runs with the request's query and `UserId` set to the caller. There is one DTO per post found, in order, each with `hasJoined` true. The `X-total-count` value is the decimal text of the total and parses back to it. |
| `Controllers.GetUsersGroups` | FU.API/FU.API/Controllers/UsersController.cs:131-140 | 401 exactly when there is no authorized user. Otherwise the answer is the caller's groups. Each of `limit` and `offset` is the given value, or the default (10 and 0) when the query omits that one. |
| `Models.ToUpper` | FU.API/FU.API/Models/ApplicationUser.cs:78 | The normalised name has the same length, and each character is the upper case of the one in its place. |
| `Models.ToUpperIdempotent` | FU.API/FU.API/Models/ApplicationUser.cs:78 | Normalising twice gives the same as once, and the result has no lower-case ASCII letter. |
| `Models.ToUpperCaseInsensitive` | FU.API/FU.API/Models/ApplicationUser.cs:78 | Two names normalise alike if and only if they agree up to ASCII letter case. |
| `Models.ApplicationUser.constructor` | FU.API/FU.API/Models/ApplicationUser.cs:16-95 | A new user has the default avatar URL, empty name, normalised name, password hash and e-mail, empty relation collections, and the normalisation invariant. |
| `Models.ApplicationUser.SetUsername` | FU.API/FU.API/Models/ApplicationUser.cs:72-80 | After `Username := v`, `Username == v` and `NormalizedUsername == ToUpper(v)`, so the invariant holds. Only those two fields are written. |
| `Models.ApplicationUser.SetNormalizedUsername` | FU.API/FU.API/Models/ApplicationUser.cs:85 | The public setter writes only `NormalizedUsername`. The invariant holds afterwards if and only if the value is the normalised current name. |
| `Models.NormalizedUsernameWriteBreaksInvariant` | FU.API/FU.API/Models/ApplicationUser.cs:85 | A direct `NormalizedUsername` write can break the invariant: a new user given `"X"`. |
| `CreatePost.AnyNamed` | FU.SPA/src/components/CreatePost.jsx:241 | `options.some(o => o.name === name)` holds if and only if some option has that name. |
| `CreatePost.FilterOptions` | FU.SPA/src/components/CreatePost.jsx:236-251 | The filtered list is kept as a prefix, and at most one entry is added. The entry `{id: null, name: inputValue}` is appended if and only if the input is non-empty and no entry of all the options (not only the filtered ones) has that name. The tag picker's copy at lines 304-319 is identical. |
| `CreatePost.FilterOptionsIgnoresWhatFilterKept` | FU.SPA/src/components/CreatePost.jsx:237-242 | Whether a suggestion is added does not depend on what the filter kept. |
| `CreatePost.GameNameTooShort` | FU.SPA/src/components/CreatePost.jsx:223 | The error condition holds exactly for a game object with a name whose `.length` is 1 or 2. |
| `CreatePost.GameSelector.constructor` | FU.SPA/src/components/CreatePost.jsx:204-206 | The picker starts with no options, the value `''` and no error. |
| `CreatePost.GameSelector.OptionsLoaded` | FU.SPA/src/components/CreatePost.jsx:208-218 | The fetched games become the options. |
| `CreatePost.GameSelector.OnInputChange` | FU.SPA/src/components/CreatePost.jsx:220-234 | The handler stores the value. The error flag is set if and only if the value has a truthy name whose `.length` is under 3. The value is forwarded to the form twice. |
| `CreatePost.LastNewTag` | FU.SPA/src/components/CreatePost.jsx:290-298 | The result is absent if and only if no value is a suggestion (`id: null`) with an unknown name. Otherwise it is such a value with no such value after it. |
| `CreatePost.TagsSelector.constructor` | FU.SPA/src/components/CreatePost.jsx:282-283 | The picker starts with no options and an empty selection. |
| `CreatePost.TagsSelector.OptionsLoaded` | FU.SPA/src/components/CreatePost.jsx:285-287 | The fetched tags become the options. |
| `CreatePost.TagsSelector.OnInputChange` | FU.SPA/src/components/CreatePost.jsx:289-302 | The selection becomes, and is forwarded as, exactly the new values. The options become the old options followed by the last new tag, if there is one. |
| `CreatePost.TagOptionsGrowth` | FU.SPA/src/components/CreatePost.jsx:290-298 | At most one option is added per change, and an added option has a null id and an unknown name. Values with an id or a known name add nothing. |
| `CreatePost.TwoNewTagsKeepTheLast` | FU.SPA/src/components/CreatePost.jsx:294-295 | When two new tags come in one change, only the last one is added. |
| `CreatePost.SubmitGuardRejects` | FU.SPA/src/components/CreatePost.jsx:56-64 | The five-clause guard lets the submission go on if and only if the game is an object with a name whose `.length` is at least 3. |
| `CreatePost.CreateGuardRejects` | FU.SPA/src/components/CreatePost.jsx:78 | The second check rejects exactly the values that are not game objects, since an object has no `length`. |
| `CreatePost.SubmitGuardMeaning` | FU.SPA/src/components/CreatePost.jsx:56-64 | A game the picker flags as too short (line 223) is always rejected. A game object the picker does not flag is rejected if and only if its name is `null` or empty. |
| `CreatePost.HandleSubmit` | FU.SPA/src/components/CreatePost.jsx:46-87 | `tagIds` has one id per tag, in order, each being the i-th tag's find-or-create id, including when the game guard then stops the submission. No post is built exactly when the guard rejects. Otherwise the post carries those tag ids, the game's find-or-create id, the title and the description. Its times are null exactly when the form's are, and are otherwise their ISO strings. The check at line 78 never fires. |
| `CreatePost.SubmitDisabled` | FU.SPA/src/components/CreatePost.jsx:180-189 | The eight-clause expression, with JavaScript's `undefined` comparisons, is true if and only if there is no game object, no title, or a title whose `.length` is under 3. |
| `CreatePost.AstralNamesAccepted` | FU.SPA/src/components/CreatePost.jsx:56-64 | A name of two characters above U+FFFF (`.length` 4) passes the guard and is not flagged. As a title, it enables the button (lines 180-189). |
| `CreatePost.EnabledButRejected` | FU.SPA/src/components/CreatePost.jsx:180-189 | The button can be enabled for a game that the submit guard rejects: a 2-letter game name. |
| `Social.InitialTab` | FU.SPA/src/components/pages/Social.jsx:32 | A missing or empty `o` gives `Posts`. Any other value is taken as it is. |
| `Social.InitialRelation` | FU.SPA/src/components/pages/Social.jsx:33-34 | A missing or empty `r` gives `Friends`. Any other value is taken as it is. |
| `Social.InitialSearchText` | FU.SPA/src/components/pages/Social.jsx:35 | The search text is the `q` value as it is, and empty when there is no `q`. |
| `Social.InitialPage` | FU.SPA/src/components/pages/Social.jsx:36 | The initial page is never 0. |
| `Social.InitialPageOf` | FU.SPA/src/components/pages/Social.jsx:36 | No `page`, or a `page` value with no digit (`NaN`), gives 1. A value that is the decimal text of `n` followed by text that does not continue the digits gives `n` for any non-zero integer, negative ones included, and 1 for `0`. |
| `Social.InitialPageExamples` | FU.SPA/src/components/pages/Social.jsx:36 | `page=abc` and `page=` give 1, and `page=2abc` gives 2. |
| `Social.UpdatedSearchParams` | FU.SPA/src/components/pages/Social.jsx:76-92 | Afterwards `o` is the tab and `page` is the page's decimal text. `r` is absent on the Posts tab and is the relation otherwise. `q` is the search text when that is non-empty, and otherwise stays as it was. Every other key is unchanged. |
| `Social.SearchParamsRoundTrip` | FU.SPA/src/components/pages/Social.jsx:32-92 | Reading the written URL back restores the tab, the page and a non-empty search text. It also restores the relation on any tab other than Posts, and gives `Friends` on Posts. |
| `Social.SocialPage.constructor` | FU.SPA/src/components/pages/Social.jsx:31-45 | The page's state starts as the defaults read from the URL. |
| `Social.SocialPage.UpdateSearchParams` | FU.SPA/src/components/pages/Social.jsx:76-92 | The in-place `set`/`delete` sequence leaves exactly `UpdatedSearchParams` of the old parameters. |
| `Social.SocialPage.OnTabChange` | FU.SPA/src/components/pages/Social.jsx:148-151 | The tab becomes the chosen one and the page becomes 1. |
| `Social.SocialPage.OnRelationChange` | FU.SPA/src/components/pages/Social.jsx:167-170 | The relation becomes the chosen one and the page becomes 1. |
| `Social.SocialPage.OnSearchSubmit` | FU.SPA/src/components/pages/Social.jsx:198-201 | The search text becomes the submitted text. |
| `Social.SocialPage.OnPageChange` | FU.SPA/src/components/pages/Social.jsx:212-217 | The page becomes the one the pager chose. |
| `Social.SocialPage.RunEffects` | FU.SPA/src/components/pages/Social.jsx:49-129 | The effects after a render send the paged request for the state, write the URL as `UpdatedSearchParams` of the old parameters, and send the keyword search for the state. |
| `Social.SocialPage.ChooseTab` | FU.SPA/src/components/pages/Social.jsx:148-151 | After a tab is chosen and the page renders, the tab is the chosen one and the page is 1. The request asks for page 1, and for connected posts if and only if the tab is Posts. The URL reads back as page 1 and, for a non-empty value, as that tab. Off the Posts tab, a non-empty relation reads back as itself. The search is for the new tab. |
| `Social.SocialPage.ChooseRelation` | FU.SPA/src/components/pages/Social.jsx:167-170 | After a relation filter is chosen and the page renders, the relation is the chosen one and the page is 1. The request asks for page 1 with that filter, and the URL reads back as page 1. Off the Posts tab, a non-empty filter reads back as itself. The search uses the new filter. |
| `Social.LoadContentRequest` | FU.SPA/src/components/pages/Social.jsx:50-69 | Each request has limit 10 and the current page. The Posts tab asks for connected posts. Every other tab, including an unknown one from the URL, asks for the user's relations with the relation filter. |
| `Social.SearchResultsRequest` | FU.SPA/src/components/pages/Social.jsx:95-121 | The keyword search carries the search text, and it also carries the user and relation on any tab other than Posts. |

## Left out

- HTTP plumbing is not modelled: ASP.NET routing, attributes, model binding, `IActionResult` construction and the response header mechanics. The identity slot (`HttpContext.Items[UserId]`) is an `Option<string>` input. `GetAuthorizedUser` is an `Option<Int32>` input.
- Each service that is a parameter is a pure function. Awaiting, failure and concurrency between calls are therefore not modelled, and a find-or-create call gives the same id for the same name.
- Call order is modelled only in `Controllers.UpdateProfileSpec` and `Controllers.UpdateProfile`, which return a call log. `CreatePost.HandleSubmit` shows that the tags are found or created before the game guard only by returning `tagIds` when the submission is rejected. The Social page's calls are the request values it returns.
- `Controllers.UpdateProfileSpec`: the .NET `Uri` grammar is the `uriParses` parameter. A parsed `Uri` is represented by its text.
- `Controllers.UpdateProfile`: a `null` request body (a null reference at line 77) is not modelled. The payload is always an object.
- `Controllers.GetUsersAssociatedPosts`: `ToPostQuery` and `ToDto` are not modelled. The query is given already converted, and a DTO is the post plus its `hasJoined` flag.
- `Controllers.GetUsersGroups`: a malformed `limit`/`offset` query value is rejected by model binding, which is not part of this model. `ToSimpleDtos` is folded into the service parameter.
- `Numbers.TryParseInt32`: its own contract only says that `null` and digit-free text do not parse. What it accepts is stated by `TryParseFormatted` and `TryParseRejectsOutOfRange`. It covers the default `NumberStyles.Integer` with the signs `-` and `+` only. Culture-specific signs and trailing NUL characters, which .NET also accepts, are not modelled.
- `Numbers.JsParseInt`: its own contract only says that `NaN` comes from `null` and from digit-free text. What it reads is stated by `JsParseIntFormatted`. Integers are unbounded. Double precision and exponent output of very large numbers are not modelled.
- `Models.ToUpper`: it is ASCII-only. The culture-sensitive case mapping of non-ASCII letters is not modelled.
- `Models.ApplicationUser`: each relation collection is a set of keys, because the relation entity types are not part of this model. `DateOnly` is a year/month/day record. EF Core `[Index]`, `[Key]` and `[NotMapped]` metadata are not modelled. The other auto-properties are plain fields.
- `CreatePost.HandleSubmit`: `e.preventDefault()`, page navigation and `window.alert` on a failed `createPost` are not modelled. Times are an abstract type formatted by `toISOString`.
- `CreatePost.FilterOptions`: MUI's `createFilterOptions` matching is the `filtered` argument.
- The start-time check (`startTime.isBefore(originalTime)`) and the other dayjs computations are not modelled, because they use dayjs date arithmetic.
- JSX rendering, the MUI components and the option-fetching effects are not modelled. The effects appear only as `OptionsLoaded`.
- `Social.UpdatedSearchParams`: the query string is a map. The repeated keys and key order that `URLSearchParams` allows are not modelled.
- `totalResults` in line 104 and line 116 of `Social.jsx` is set to a boolean when the count is falsy. This JavaScript coercion is not modelled.
