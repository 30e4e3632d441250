# Change Comment Author — a Dafny model of the plugin's decision logic

The WordPress plugin `WDS_Change_Comment_Author` lets an administrator reassign a
comment to a registered user, and lets a privileged user post a comment "as"
another user picked from a dropdown. This project models the part of
`change-comment-author.php` that decides something, with WordPress treated as
inputs:

- **User resolver** (`get_userdata`, the plugin's own method): a posted
  `user_ID`, else a truthy `comment_author_selection` plus permission, chooses
  the user; the class field `user_data` is a one-slot cache. Modelled as the
  specification function `CommentAuthor.Resolve` and the class method
  `CommentAuthor.ChangeCommentAuthor.GetUserdata` proved against it.
- **Field override** (`set_comment_author_param`, its four filter wrappers and
  `frontend_set_commentor_for_comment`): pure functions of the resolved user
  (`Override`, `FrontendCommentData`), and class methods that first resolve the
  user, exactly as the PHP methods call `get_userdata()` first.
- **Post-save corrector** (`set_commentor_id_for_sure`): the row update it
  issues is returned as a value (`PostSavePayload`, `Update`).
- **Eligible-user options table** (`get_user_options`): the `foreach` that
  fills the field `user_options`, the `asort( ..., SORT_STRING )` that sorts it
  and the memoization, as the class method `GetUserOptions` proved against
  `UserOptions.BuildOptions` and `UserOptions.ASort`.

Module `Php` states the PHP built-ins these decisions depend on: string
truthiness, the `(int)` cast of a posted string, WordPress's `absint`, and
the byte-wise string order of `SORT_STRING` (on Unicode scalar values it
agrees with the byte order of their UTF-8 encodings). A 64-bit PHP build is
assumed (PHP_INT_MAX = 2^63 - 1).

Inputs standing for the platform: `$_POST` is an immutable `Post` record,
`has_permission()` is the boolean `Request.canEdit`, WordPress's
`get_userdata( $id )` is a lookup in `Request.users`, `get_comment()` is the
`row` parameter, and the user query is the `results` parameter. Ghost counters
`lookups` and `queries` count the calls to WordPress's `get_userdata` and to
the user query.

A posted `user_ID` is looked up before `has_permission()` is consulted
(change-comment-author.php:264-267), so a request without permission that
posts `user_ID` still overrides every comment-identity field.
`UserIdIgnoresPermissionAndCache` states this, and `NoSelectionNoOverride`
states the guarantee that holds when no `user_ID` is posted.

## Model

| member | source | states |
|---|---|---|
| `CommentAuthor.Resolve` | change-comment-author.php:263-283 | A posted user_ID is always looked up by its `(int)` cast, permission and cache ignored; without it, an absent or falsy selection or missing permission yields no user and no lookup; with both, a cached user is returned without lookup, else the selection's `absint` is looked up; every lookup result (false included) is returned and cached; without a lookup the cache is unchanged |
| `CommentAuthor.ChangeCommentAuthor.GetUserdata` | change-comment-author.php:263-283 | Returns the user Resolve gives, leaves `user_data` as Resolve's cache, and calls WordPress's get_userdata exactly when Resolve looks up |
| `CommentAuthor.ChangeCommentAuthor.constructor` | change-comment-author.php:18-23 | Both caches start empty (`user_data` false, `user_options` []) |
| `CommentAuthor.ResolveIsStable` | change-comment-author.php:278-282 | A second resolution in the same request returns the same user and cache; a found user on the selection path is not looked up again; a failed lookup is repeated because false is never reused |
| `CommentAuthor.ResolveKeepsCacheFromUsers` | change-comment-author.php:266-281 | The cache and the result only ever hold users WordPress returned |
| `CommentAuthor.UserIdIgnoresPermissionAndCache` | change-comment-author.php:264-267 | With user_ID posted, the outcome is the same with or without permission and whatever is cached |
| `CommentAuthor.NoSelectionNoOverride` | change-comment-author.php:270-276 | Without user_ID, lacking permission or a truthy selection, every field filter and the front-end filter pass their input through, no update is written and the cache is unchanged |
| `CommentAuthor.SelectionOverridesAllFields` | change-comment-author.php:278-282 | With permission and a selection naming a user with an ID, each field filter and each of the four front-end keys take that user's profile |
| `CommentAuthor.Override` | change-comment-author.php:145-153 | The value is replaced by the user's property only when a user was resolved and has an ID; otherwise it passes through unchanged |
| `CommentAuthor.ChangeCommentAuthor.SetCommentAuthorParam` | change-comment-author.php:145-153 | Resolves the user first, then returns Override of the value for that user; the cache and the get_userdata call count change exactly as in GetUserdata |
| `CommentAuthor.ChangeCommentAuthor.SetCommentorId` | change-comment-author.php:100-102 | The user-id filter overrides with the user's `ID`; the cache and the get_userdata call count change exactly as in GetUserdata |
| `CommentAuthor.ChangeCommentAuthor.SetCommentAuthorName` | change-comment-author.php:111-113 | The author-name filter overrides with the user's `user_login`; the cache and the get_userdata call count change exactly as in GetUserdata |
| `CommentAuthor.ChangeCommentAuthor.SetCommentAuthorEmail` | change-comment-author.php:122-124 | The author-email filter overrides with the user's `user_email`; the cache and the get_userdata call count change exactly as in GetUserdata |
| `CommentAuthor.ChangeCommentAuthor.SetCommentAuthorUrl` | change-comment-author.php:133-135 | The author-url filter overrides with the user's `user_url`; the cache and the get_userdata call count change exactly as in GetUserdata |
| `CommentAuthor.SubmitAsSelectedUser` | change-comment-author.php:278-282 | On the selection path, the user-id filter and then the author-name filter on a fresh plugin object both take the selected user's profile, with a single call to WordPress's get_userdata between them |
| `CommentAuthor.FrontendCommentData` | change-comment-author.php:80-91 | Identity when no usable user; otherwise the keys become the old keys plus `user_ID`, `comment_author`, `comment_author_email`, `comment_author_url`, each set from the user's ID, login, email and url, and every other key keeps its value |
| `CommentAuthor.ChangeCommentAuthor.FrontendSetCommentorForComment` | change-comment-author.php:80-91 | Resolves the user first, then returns FrontendCommentData for it; the cache and the get_userdata call count change exactly as in GetUserdata |
| `CommentAuthor.FrontendAgreesWithFieldFilters` | change-comment-author.php:84-87 | Each identity key the front-end filter writes gets the value the matching field filter returns for the same user |
| `CommentAuthor.PostSavePayload` | change-comment-author.php:163-179 | An update exists exactly when a usable user was resolved; it targets the given comment ID, holds `user_id` = the user's ID, and otherwise exactly the allow-listed keys set (present, non-null) in the row, with the row's values |
| `CommentAuthor.ChangeCommentAuthor.SetCommentorIdForSure` | change-comment-author.php:163-179 | Resolves the user first, then returns PostSavePayload for it; the cache and the get_userdata call count change exactly as in GetUserdata |
| `CommentAuthor.ChangeCommentAuthor.GetUserOptions` | change-comment-author.php:186-206 | A non-empty cached table is returned unchanged with no query; otherwise the query runs once and the cache and result become the sorted table built from the results; empty results give an empty table and leave the cache empty; the cache stays sorted with distinct keys |
| `UserOptions.Put` | change-comment-author.php:199 | Assigning a key stores the value under it and leaves every other key's value; an existing key keeps its position, a new key is appended; keys stay distinct |
| `UserOptions.BuildOptions` | change-comment-author.php:197-201 | The table the loop builds has distinct keys |
| `UserOptions.BuildOptionsLookup` | change-comment-author.php:197-201 | Each ID maps to the label `display_name (user_email)` of its last result having both ID and data; IDs with no such result are absent |
| `UserOptions.ASort` | change-comment-author.php:203 | Sorting keeps the length and the multiset of entries |
| `UserOptions.ASortSorted` | change-comment-author.php:203 | The sorted table is in ascending string order of labels |
| `UserOptions.ASortLookup` | change-comment-author.php:203 | Sorting keeps every key with its own value and keys distinct |
| `UserOptions.OptionsTable` | change-comment-author.php:197-205 | The returned table is sorted by label, has distinct keys, maps each ID to the label of its last complete result, and is a rearrangement of the built table |
| `Php.IntCast` | change-comment-author.php:265 | The `(int)` cast of a posted string is within the 64-bit range (an out-of-range number is capped, an infinite one becomes 0) |
| `Php.IntCastOfDecimal` | change-comment-author.php:265 | A decimal number, with or without `+` or `-`, followed by a non-digit or nothing, casts to that number when it fits in 64 bits, to PHP_INT_MAX (PHP_INT_MIN when negative) beyond that, and to 0 once it is too large even for a double |
| `Php.IntCastSkipsLeadingSpace` | change-comment-author.php:265 | Leading whitespace changes neither the cast nor `absint` |
| `Php.AbsInt` | change-comment-author.php:281 | `absint` of a posted string is at most 2^63 and is 0 exactly when the cast is 0 |
| `Php.StrLeIsLexicographic` | change-comment-author.php:203 | The SORT_STRING order holds exactly when the first string is a prefix of the second or is smaller at their first difference |
| `Php.StrLeTotal` | change-comment-author.php:203 | Any two labels are comparable |
| `Php.StrLeTransitive` | change-comment-author.php:203 | The label order is transitive |
| `Php.StrLeAntisymmetric` | change-comment-author.php:203 | Labels ordered both ways are equal |

## Left out

- `select_commentor_dropbox` and `append_comment_dropdown` (change-comment-author.php:46-71, 301-327): HTML and jQuery output through `echo` and a filter; rendering, not decisions.
- `hooks` and the `$GLOBALS` bootstrap (change-comment-author.php:28-39, 331-332): they only register callbacks with WordPress.
- `has_permission` (change-comment-author.php:292-299): `current_user_can` behind a filter; it is the boolean `Request.canEdit`.
- `get_user_query_results` (change-comment-author.php:216-256): the `WP_User_Query` with its subscriber-excluding meta query and its two filters; its result is the `results` input of `GetUserOptions`, so which users are eligible is not modelled.
- WordPress's `get_userdata`, `get_comment` and `$wpdb->update`: platform lookup and persistence. The lookup is a map of users, the row an input, and the write a returned `Update` whose success is not modelled.
- A WP_User is reduced to the four properties the plugin reads; comment data and row values to integers, strings and null.
- Posted values are strings; a posted array (`user_ID[]=…`) is not modelled.
- `Php.IntCast`: strings PHP reads as a double are not modelled: an exponent (`"1e3"`, which PHP casts to 1000, is read up to the first non-digit and gives 1), and a fraction on a number above 2^53 (`"9007199254740993.0"`, which PHP rounds to the double 9007199254740992, gives 9007199254740993). Integer digit runs, capping and the infinite-double case are modelled; a 64-bit build is assumed.
- `Php.IntCastOfDecimal`: its `rest` may start with `.`, `e` or `E`, where the model reads only the digit run; for such strings it states the model's value, which differs from PHP's in the two cases above.
- `Php.AbsInt`: `abs( PHP_INT_MIN )` is a float in PHP; the model gives the integer 2^63, which no user ID matches.
- `UserOptions.ASort`: the order among entries with equal labels is the stable order of PHP 8 by construction (earlier entries first), but no lemma states it.
- `PostSavePayload`: the update's columns are a map, so their order in the generated SQL is not modelled.
