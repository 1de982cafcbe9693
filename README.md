# OwnSphere front end: page handlers and display rules

A model of the logic in three React pages of the OwnSphere browser client, a social and
investment front end for a backend canister on the Internet Computer:

- **Posts** (`Posts.tsx`): composing a post and submitting it (`createPost`), and the relative
  age shown under each post (`formatDate`).
- **Profile** (`Profile.tsx`): registering a profile (`register`), and the rules used to show
  activities and transactions: icon tables, the CSS class of a transaction, the amount sign,
  the capitalised type label and the two-item recent-activity list.
- **Investment** (`Investment.tsx`): reading the token balance, asking for a suggestion,
  buying tokens (a successful buy refreshes the balance), the amount input rule
  `parseInt(v) || 1` and the trend arrow of a market card.

Each page is a class whose fields are the page's `useState` variables (`PostsPage`,
`ProfilePage`, `InvestmentPage`). Each handler is a method that takes the outcome of its actor
call as a parameter (`Outcome<T>`: `Returned(v)` or `Thrown`, the catch branch), returns the
call it made (`None` when its guard returned early, so "no backend call" is part of the
contract) and states the page's new state for every outcome. Each handler that calls the backend
(`CreatePost`, `Register`, `FetchTokenBalance`, `GetSuggestion`, `BuyTokens`) has a ghost
out-parameter recording the value of `loading` while the call is awaited. Each reading of the
clock (`Date.now()`) is a parameter.

The pure helpers are functions. JavaScript's own `String.prototype.trim`, `parseInt` (no
radix: white space, sign, `0x` prefix, longest digit run, NaN) and `String(n)` (below 10^21 in
magnitude, where JavaScript uses no exponent) are modelled in
module `JsText`, as the handlers' guards and the amount rule depend on them. Proved about them:
a trimmed string is empty exactly when the input is white space only, and `parseInt` reads back any signed decimal numeral followed by text that does not continue
it. These facts give the page-level properties: a draft of spaces is never posted, a cleared
amount input stores 1, a typed negative amount is stored as it is and only the buy guard stops
it, and the count in "N menit yang lalu" is the count `formatDate` computed.

Modules: `Wrappers` (Option, Outcome), `JsText`, `Entities` (Post, User), `Posts`, `Profile`,
`Investment`.

Two behaviours of the code worth knowing, both modelled as written: `register` checks its fields
with `!userId || !name`, without trimming, so a name of spaces is sent
(`RegisterAcceptsBlankName`), while `createPost` trims the draft; and the amount input keeps a
negative number, since `parseInt("-5") || 1` is -5 (`NegativeAmountIsBlocked`).

## Model

| member | source | states |
|---|---|---|
| JsText.TrimStart | frontend/src/pages/Posts.tsx:56 | the result is a suffix of the input; everything cut off is white space; it does not start with white space |
| JsText.TrimEnd | frontend/src/pages/Posts.tsx:56 | the result is a prefix of the input; everything cut off is white space; it does not end with white space |
| JsText.TrimEmptyIffAllWhiteSpace | frontend/src/pages/Posts.tsx:56 | `s.trim()` is empty if and only if every character of `s` is white space |
| JsText.DigitRun | frontend/src/pages/Investment.tsx:162 | the digit run `parseInt` reads is all digits and is followed by a non-digit or the end |
| JsText.NatToDecimal | frontend/src/pages/Posts.tsx:89 | the numeral of n is non-empty and all decimal digits |
| JsText.NatToDecimalNoLeadingZero | frontend/src/pages/Posts.tsx:89 | the numeral of n starts with 0 exactly when n is 0 (no leading zeros) |
| JsText.NatToDecimalValue | frontend/src/pages/Posts.tsx:89 | the numeral of n denotes n |
| JsText.ParseIntShape | frontend/src/pages/Investment.tsx:162 | an input that is empty after leading white space is NaN; a negative result comes only from a leading minus sign |
| JsText.ParseIntSignedNumeral | frontend/src/pages/Investment.tsx:162 | `parseInt` of an optional sign, a numeral and any non-continuing text is the signed value |
| JsText.ParseIntToDecimal | frontend/src/pages/Investment.tsx:162 | `parseInt(String(n) + rest)` is n for every integer n (as `String` writes it below 10^21) when `rest` does not continue the numeral |
| JsText.ParseIntBlank | frontend/src/pages/Investment.tsx:162 | `parseInt` of an empty or white-space input is NaN |
| JsText.ToUpperAscii | frontend/src/pages/Profile.tsx:373 | a lower-case letter a-z becomes its own capital (32 code points lower); every other character is unchanged; the result is a capital exactly when the input was a letter |
| Posts.NewEntry | frontend/src/pages/Posts.tsx:61-68 | the new entry carries the draft as content, `now` as timestamp and the id `post-<now>` |
| Posts.CreatePostBlockedIffBlank | frontend/src/pages/Posts.tsx:56 | createPost returns early exactly when the draft is white space only or the user id is empty |
| Posts.SubmitDisabledIffBusyOrBlank | frontend/src/pages/Posts.tsx:136 | the submit button is disabled exactly when loading or when the draft is white space only |
| Posts.FormatDate | frontend/src/pages/Posts.tsx:79-105 | under a minute (the future included) is "just now"; 1..59 whole minutes below an hour; 1..23 whole hours below a day; else the absolute date of the timestamp; the count is the floor of the difference |
| Posts.FormatDateMonotone | frontend/src/pages/Posts.tsx:84-94 | an older post never gets a younger bucket or a smaller count than a newer one |
| Posts.AgeText | frontend/src/pages/Posts.tsx:84-104 | under a minute the text is "Baru saja"; minutes and hours are exactly `String(count)` followed by " menit yang lalu" or " jam yang lalu"; an older post shows the locale date |
| Posts.AgeTextShowsCount | frontend/src/pages/Posts.tsx:88-94 | the number at the head of "N menit/jam yang lalu" is the floored minutes or hours |
| Posts.PostsPage.constructor | frontend/src/pages/Posts.tsx:27-30 | no posts, empty draft, not loading, no user id |
| Posts.PostsPage.Mount | frontend/src/pages/Posts.tsx:34-53 | sets the demo user id and the two seeded posts, a day before the first clock reading and twelve hours before the second; draft and loading unchanged |
| Posts.PostsPage.EditDraft | frontend/src/pages/Posts.tsx:118 | the draft becomes the typed text; nothing else changes |
| Posts.PostsPage.CreatePost | frontend/src/pages/Posts.tsx:55-76 | no call and no change when blocked; otherwise sends (userId, draft), loading is true while awaited and false after; a true result prepends the new entry to the unchanged old list and clears the draft; false or thrown leaves posts and draft unchanged |
| Profile.FreshProfile | frontend/src/pages/Profile.tsx:102 | a registered profile has the entered id and name, no posts and 0 tokens |
| Profile.RegisterAcceptsBlankName | frontend/src/pages/Profile.tsx:97 | the guard only rejects empty fields: every non-empty name of white space passes, although it trims to nothing |
| Profile.ActivityIcon | frontend/src/pages/Profile.tsx:112-123 | the bell icon is returned exactly for types other than post, investment and reward |
| Profile.ActivityIconRoundTrip | frontend/src/pages/Profile.tsx:112-123 | each known activity type has its own icon, from which it is recovered; unknown types map to none |
| Profile.TransactionDetails | frontend/src/pages/Profile.tsx:126-151 | the class is `transaction-<type>` for the four known types and empty otherwise; the class is empty exactly when the icon is the exchange icon (the icon of each known type is fixed by `TransactionIconRoundTrip`) |
| Profile.TransactionIconRoundTrip | frontend/src/pages/Profile.tsx:126-151 | each known transaction type has its own icon (deposit arrow-down, withdrawal arrow-up, investment chart-line, reward gift), from which it is recovered; unknown types map to none |
| Profile.TransactionClassNamesType | frontend/src/pages/Profile.tsx:126-151 | a non-empty transaction class gives back its type once the prefix is dropped |
| Profile.AmountSign | frontend/src/pages/Profile.tsx:380 | the sign is "-" if and only if the type is withdrawal, "+" otherwise |
| Profile.SignMatchesArrow | frontend/src/pages/Profile.tsx:133-136 | the minus sign goes exactly with the upward arrow icon |
| Profile.AmountTextValue | frontend/src/pages/Profile.tsx:380-381 | the amount line reads as the amount, negated for a withdrawal |
| Profile.TypeLabel | frontend/src/pages/Profile.tsx:373-374 | same length; first character upper-cased, the rest unchanged |
| Profile.TypeLabelIdempotent | frontend/src/pages/Profile.tsx:373-374 | capitalising a label again changes nothing |
| Profile.RecentActivities | frontend/src/pages/Profile.tsx:317 | the overview shows the first min(2, n) activities, in order |
| Profile.ProfilePage.constructor | frontend/src/pages/Profile.tsx:27-30 | empty fields, not loading, no profile |
| Profile.ProfilePage.EditUserId | frontend/src/pages/Profile.tsx:174 | the user id becomes the typed text; nothing else changes |
| Profile.ProfilePage.EditName | frontend/src/pages/Profile.tsx:188 | the name becomes the typed text; nothing else changes |
| Profile.ProfilePage.Register | frontend/src/pages/Profile.tsx:96-109 | no call and no change when a field is empty; otherwise sends (userId, name), loading true while awaited and false after; a true result sets the fresh profile; false or thrown leaves the profile unchanged |
| Investment.AmountFromInput | frontend/src/pages/Investment.tsx:162 | the stored amount is never 0; it is the parsed integer when that is a non-zero number, and exactly 1 when the input parses to NaN or 0 |
| Investment.AmountFromNumeral | frontend/src/pages/Investment.tsx:162 | typing the numeral of n stores n, or 1 when n is 0 |
| Investment.AmountFromBlank | frontend/src/pages/Investment.tsx:162 | a cleared or blank input stores 1 |
| Investment.NegativeAmountIsBlocked | frontend/src/pages/Investment.tsx:106 | a typed negative amount is stored as it is and the buy guard rejects it |
| Investment.TrendIcon | frontend/src/pages/Investment.tsx:198-204 | up gives arrow-up, down gives arrow-down, every other trend arrows-alt-h |
| Investment.TrendIconRoundTrip | frontend/src/pages/Investment.tsx:198-204 | the arrow gives back up and down; every other trend reads as neutral |
| Investment.InvestmentPage.constructor | frontend/src/pages/Investment.tsx:65-69 | not loading, balance 0, no suggestion, no user id, amount 1 |
| Investment.InvestmentPage.Mount | frontend/src/pages/Investment.tsx:73-77 | sets the demo user id; the balance fetch of the same effect changes nothing |
| Investment.InvestmentPage.EditAmount | frontend/src/pages/Investment.tsx:162 | the amount becomes the normalised input, never 0; nothing else changes |
| Investment.InvestmentPage.FetchTokenBalance | frontend/src/pages/Investment.tsx:79-90 | no call and no change without a user id; otherwise loading true while awaited and false after, the balance is the returned number, unchanged on error |
| Investment.InvestmentPage.GetSuggestion | frontend/src/pages/Investment.tsx:92-103 | no call and no change without a user id; otherwise loading true while awaited and false after, the suggestion is the returned text, unchanged on error |
| Investment.InvestmentPage.BuyTokens | frontend/src/pages/Investment.tsx:105-119 | no call without a user id or with an amount below 1; otherwise sends (userId, amount), loading true while awaited and false after; a true result and only a true result triggers a balance refresh; the balance changes only through that refresh |

## Left out

- JSX rendering, CSS, tab switching (`activeTab`), `showSuggestions`, and the static demo
  arrays of the profile and investment pages (activities, transactions, market cards,
  suggestion cards): presentation only.
- The absolute date of `formatDate` (`toLocaleDateString` with the id-ID locale): locale
  formatting; the model returns the timestamp (`OnDate`) and takes the formatted text as a
  parameter of `AgeText`.
- `console.error` and `alert`: output only.
- The backend actor: each call is a parameter outcome (returned value or thrown); what the
  canister does with the call is not part of this model.
- Posts.PostsPage.CreatePost: the code reads `Date.now()` twice (for the id and the timestamp);
  the model reads the clock once, so the id and the timestamp always agree.
- Asynchronous interleaving: each handler runs as one atomic step. Not captured: handlers
  capturing stale state (the mount effect of the investment page calls `fetchTokenBalance`
  with the initial empty user id, which the model states as "no change"), input edits made
  while a call is pending, and the un-awaited balance refresh inside `buyTokens`, which keeps
  running after `buyTokens` has reset `loading`.
- JsText.ToDecimal: JavaScript writes numbers of magnitude 10^21 or more in exponent form
  (`String(1e21)` is "1e+21", which `parseInt` reads as 1); the model always writes the plain
  numeral, so `ParseIntToDecimal` holds of JavaScript only below 10^21.
- Investment.InvestmentPage.FetchTokenBalance: `Number(balance)` is taken as the integer itself;
  precision loss of JavaScript numbers above 2^53 is not modelled. Likewise `String(sug)` is the
  returned string and `parseInt` returns an exact integer.
- JsText.ToUpperAscii: upper-cases only a-z; JavaScript's full Unicode case mapping (which can
  also lengthen a string, as for "ß") is not modelled.
- `App.tsx` (actor construction, fonts, dark mode), `Home.tsx`, `Settings.tsx` and
  `vite.config.ts` are not part of this model: set-up, static content and toggles.
- Login, password hashing, persisted sessions, a market-data source with fallback and
  auto-refresh timers do not appear in the code of these pages and are not modelled.
