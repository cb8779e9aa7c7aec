# Giftie backend decision layer, in Dafny

This project models the logic inside the Giftie backend (`giftie-backend/main.py`),
a small web service for personal gifting. It stores friends and a gift history,
suggests a gift from a fixed table keyed by a "sentiment", builds payment checkout
requests, and renders postcards from themed HTML. Everything around that logic is
library glue: the web framework, the SQLite database, the payment provider, the
headless browser, the mail relay and the language model. The model leaves the glue
out and keeps the decisions.

- `wrappers.dfy` (`Wrappers`): `Option` and `Result`.
- `text.dfy` (`Text`): the two string operations the code relies on. `Lower` is
  `str.lower()` restricted to ASCII. `Occurs` is the substring test `sub in s`,
  proved equal to the existence of an occurrence index.
- `suggestion.dfy` (`Suggestion`): the gift suggestion endpoint. The sentiment is
  lower-cased and looked up in a table of four categories, with a fallback to the
  "default" list. The random pick is a nondeterministic choice from that list.
- `postcard.dfy` (`Postcard`): the themed postcard document of `get_styled_html`
  and the background search of `get_unsplash_background`. The document is a fixed
  template around three inserted strings: the theme's emoji, the recipient and the
  message. The background search is a loop proved against a recursive first-match
  function.
- `checkout.dfy` (`Checkout`): the checkout endpoint. JSON field values are checked
  with Python truthiness. A valid body becomes a one-item session request. The
  payment provider is a function parameter that either returns a URL or raises an
  error.
- `store.dfy` (`Store`): the `Friend` and `GiftHistory` tables as a class. Each
  table is a sequence of rows in insertion order, plus the id the database would
  assign next.

Where the code and its documented intent differ, the model follows the code.

- Listing the gift history with no `recipient` returns no rows at all, not every
  row. The query always compares `recipient` with the given value (line 85), and
  no stored row has a NULL recipient. An empty string returns the rows whose
  recipient is the empty string.
- The checkout validation answers with one fixed detail, "Missing required fields".
  It does not say which field is missing. The only check on the price is that it
  is truthy, so a negative price is accepted.
- `save_gift` takes a whole `GiftHistory` row, and that row may carry an id. A
  given id is stored as it is. A given id that is already in the table makes the
  insert fail (a primary-key violation).
- The `HTTPException` raised at line 159 is the web framework's exception (the
  import at line 7 shadows the one at line 3), so the client gets status 400.

## Model

| member | source | states |
|---|---|---|
| `Text.Lower` | giftie-backend/main.py:142 | Lower-casing keeps the length and position of every character, lower-cases exactly the ASCII capitals, and leaves no capital behind |
| `Text.LowerIdempotent` | giftie-backend/main.py:142 | Lower-casing an already lower-cased string changes nothing |
| `Text.Occurs` | giftie-backend/main.py:356 | An occurring keyword is no longer than the string, and a keyword at the start occurs; the full characterisation is `Text.OccursIff` |
| `Text.OccursIff` | giftie-backend/main.py:356 | The substring test holds exactly when some index starts an occurrence of the keyword |
| `Suggestion.Candidates` | giftie-backend/main.py:114-142 | The lookup gives the category's list when the lower-cased sentiment is one of the four categories, and the two-item default list otherwise; it always has two or three items, so the pick never fails |
| `Suggestion.SuggestGift` | giftie-backend/main.py:108-149 | The reply echoes the name as recipient and the sentiment as given, not lower-cased; the gift is drawn only from the category's list or, for an unrecognised sentiment, only from the default list |
| `Suggestion.CandidatesIgnoreCase` | giftie-backend/main.py:142 | Sentiments equal up to ASCII case get the same candidates as their lower-cased form |
| `Suggestion.ListsDisjoint` | giftie-backend/main.py:114-140 | No gift appears in two of the five lists |
| `Suggestion.GiftRevealsCategory` | giftie-backend/main.py:114-143 | A suggested gift is in a category's list exactly when the lower-cased sentiment is that category, and in the default list exactly when the sentiment is unrecognised |
| `Postcard.StyleFor` | giftie-backend/main.py:273-291 | "birthday", "friendship" and "love" each get their own decoration; any other theme (no case folding) gets the birthday decoration |
| `Postcard.Fill` | giftie-backend/main.py:293-342 | The document starts with the fixed head, holds the emoji, the recipient and the message verbatim at their fixed offsets, and ends with the fixed tail |
| `Postcard.FillContains` | giftie-backend/main.py:336-337 | The emoji, the recipient and the message each occur in the filled document |
| `Postcard.FillMessageInjective` | giftie-backend/main.py:337 | With everything else fixed, two documents are equal only if their messages are |
| `Postcard.FillEmojiVisible` | giftie-backend/main.py:336 | Emoji strings that start with different characters give different documents |
| `Postcard.RenderCard` | giftie-backend/main.py:293-342 | With the decoration chosen, the document starts with the fixed head and contains the decoration's emoji, the recipient and the message |
| `Postcard.StyledHtml` | giftie-backend/main.py:272-342 | The styled document starts with the fixed head and contains the selected theme's emoji, the recipient and the message verbatim |
| `Postcard.UnknownThemeIsBirthday` | giftie-backend/main.py:291 | For any theme not exactly one of the three keys (no case folding), the document equals the birthday document |
| `Postcard.OnlyEmojiMatters` | giftie-backend/main.py:291-337 | Decorations with the same emoji give the same document, so the background colour and the image never reach the output |
| `Postcard.MessageDeterminesHtml` | giftie-backend/main.py:337 | For a fixed recipient and theme, different messages give different documents |
| `Postcard.KnownThemesDiffer` | giftie-backend/main.py:273-291 | The three known themes give three different documents |
| `Postcard.FirstMatchFrom` | giftie-backend/main.py:355-357 | The result is the first keyword at or after the start index that occurs in the lower-cased gift, with no earlier keyword occurring; no result means no keyword from there on occurs |
| `Postcard.BackgroundFor` | giftie-backend/main.py:344-360 | The URL starts with the Unsplash base; it ends with the theme of the first keyword, in table order, that occurs in the lower-cased gift, or with "gift" when none occurs |
| `Postcard.FirstMatchOrNone` | giftie-backend/main.py:355-360 | Either no keyword occurs or there is a first match, and the first match is unique |
| `Postcard.UnsplashBackground` | giftie-backend/main.py:344-360 | The loop with its early return gives the URL `BackgroundFor` describes |
| `Checkout.Get` | giftie-backend/main.py:154-156 | A missing key reads as None; a present key gives its value |
| `Checkout.Decimal` | giftie-backend/main.py:169 | `str()` of a non-negative integer is a non-empty digit string with no leading zero |
| `Checkout.DecimalRoundTrip` | giftie-backend/main.py:169 | The decimal rendering reads back to the number |
| `Checkout.Truthy` | giftie-backend/main.py:158 | The falsy field values are exactly None, False, 0 and the empty string |
| `Checkout.HasRequiredFields` | giftie-backend/main.py:158 | `all([gift, recipient, price])` holds exactly when each of the three keys is present with a truthy value |
| `Checkout.Display` | giftie-backend/main.py:169 | The f-string inserts a string verbatim, a boolean as "True" or "False", and an integer as a sign and decimal digits that read back to it |
| `Checkout.BuildSessionRequest` | giftie-backend/main.py:158-179 | Rejected with 400 "Missing required fields" exactly when gift, recipient or price is missing or falsy; otherwise exactly one line item, in "gbp", of quantity 1, named `gift + " for " + recipient` as the f-string renders them, carrying the price as given |
| `Checkout.CreateCheckoutSession` | giftie-backend/main.py:151-183 | A client error exactly for an invalid body; for a valid body the outcome of the guarded block (price conversion and provider call) on the request decides: a URL becomes the checkout URL, an exception becomes a 500 carrying the message |
| `Checkout.RequestCarriesPrice` | giftie-backend/main.py:161-171 | Valid bodies with different prices give different requests, so the guarded block can treat them differently |
| `Checkout.MissingFieldRejected` | giftie-backend/main.py:154-159 | A body without gift, recipient or price is rejected |
| `Checkout.FalsyFieldRejected` | giftie-backend/main.py:158-159 | An empty string, 0, false or null in any of the three fields is rejected |
| `Checkout.RejectionIgnoresProvider` | giftie-backend/main.py:158-162 | A rejected body gets the same 400 answer whatever the provider would do |
| `Checkout.ProductNameOfStrings` | giftie-backend/main.py:169 | For string fields the product name is `gift + " for " + recipient`, and both can be read back from it |
| `Store.WithRecipient` | giftie-backend/main.py:85-88 | The result is exactly the rows whose recipient equals the query value; with no value it is empty |
| `Store.WithRecipientIdempotent` | giftie-backend/main.py:85-87 | Filtering a second time on the same value changes nothing |
| `Store.WithRecipientAppend` | giftie-backend/main.py:73-89 | After a row is appended, the query for its recipient ends with it and every other query is unchanged |
| `Store.Database.constructor` | giftie-backend/main.py:67-71 | On a first start, with no database file, both tables are created empty |
| `Store.Database.AddFriend` | giftie-backend/main.py:92-99 | Appends one row with a fresh id and the given fields and returns it; earlier rows and the history table are untouched |
| `Store.Database.GetFriends` | giftie-backend/main.py:101-106 | Returns every stored friend |
| `Store.Database.SaveGift` | giftie-backend/main.py:73-79 | Appends one row under the given id, or under the next automatic id, and returns it with "Gift saved"; a given id already in the table is rejected and nothing changes; the friends table is untouched |
| `Store.Database.GetGiftHistory` | giftie-backend/main.py:82-89 | Returns exactly the stored rows whose recipient equals the query value; with no value, none |

## Left out

- The web layer: routing, request parsing and validation (dates, `EmailStr`) are library behaviour. Rows are taken as already validated. A checkout body that is not a JSON object is not modelled.
- Restarts: `create_all` at line 71 only creates missing tables, so an existing database file keeps its rows. The constructor models the first start; a later start is any state satisfying `Valid()`.
- The database engine, sessions and commits. Each table is a sequence of rows plus an id counter. The counter follows SQLite's rule for rows inserted without an id: one more than the largest id, or 1 for an empty table. The 64-bit id limit is not modelled.
- Result order of the queries: SQL without `ORDER BY` has no specified order. The model returns rows in insertion order.
- `int(float(price) * 100)` at line 171: float arithmetic with truncation. The line item carries the raw price instead of a unit amount. The conversion runs inside the guarded block, so the `provider` parameter stands for the conversion and the provider call together, and it sees the raw price; which prices fail to convert is not modelled.
- The payment provider call (lines 162-179): it is the `provider` parameter of `CreateCheckoutSession`.
- JSON field values: fractional JSON numbers, arrays and objects are not part of the value type. Numbers are integers, and `str()` is modelled for None, booleans, integers and strings.
- `random.choice`: only membership of the chosen gift is modelled.
- Text.Lower: Python's Unicode `lower()` is restricted to ASCII letters.
- Postcard rendering and I/O: `generate_postcard` with its inline HTML (lines 186-211), `generate_custom_postcard` (lines 367-391), the headless browser, directory creation, uuid file names, screenshots and `get_base64_image` (lines 362-365).
- Mail and language-model calls: `send_email_postcard` (lines 213-246) and `generate_personal_message` with its canned fallback (lines 250-270).
- The frontend screens under `app/`: they only display data and call the API.
