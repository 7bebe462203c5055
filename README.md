# MemeBot message router and conversation log, in Dafny

MemeBot is a LINE chat bot with a Pikachu persona. Its `app.py` has two
parts with logic of their own, and this project models both:

1. **The message handlers** (`handle_text`, `handle_media`). A text message is
   stripped and classified by an ordered if/elif chain. The chain picks a
   sticker, image or video request (lower-cased match), a weather request
   (lower-cased text starting with `天氣`), a location request (exact match)
   or free chat. Each branch composes one or two outgoing messages, the
   first always text. A non-text message gets one generated text, or a
   weather report for a location. Every handled event records exactly one
   history entry.
2. **The conversation log** (`conversation_history`, `save_history`,
   `get_all_history`, `delete_all_history`). This is a dictionary from user id
   to a list of entries. It is modelled as a class `History.HistoryStore` with
   a key sequence (Python dict order) and a map, with methods that change it
   in place.

The outside services are the language model, the Central Weather
Administration forecast API and the Nominatim reverse geocoder. They are
function-valued fields of `Lookups.Backends`. `None` means the call raised.
The code around each call turns a failure into a fixed fallback string
exactly as the source does. So a model failure inside the weather lookup
gives the model's fallback text, and a forecast failure gives the weather
fallback text. The wall clock (`int(time.time())`) is the parameter `now`.

Files:
- `wrappers.dfy`: `Option`.
- `pystr.dfy` (module `PyString`): `str.strip()` using exactly the characters
  Python counts as whitespace, `str.lower()`, `str.startswith()`, and
  `str.replace(pat, "")`.
- `lookups.dfy` (module `Lookups`): the persona, the fallbacks,
  `gemini_generate_response`, `get_cwb_weather` and `get_city_from_coords`.
- `history.dfy` (module `History`): the log and its listing.
- `router.dfy` (module `Router`): classification, composition and the two
  handlers.

Points where the code does more than a first reading suggests:
- The weather city is the text with every `天氣` deleted and then stripped.
  The keyword is not only removed as a prefix: `天氣台中天氣` asks about
  `台中`. Since Python's replace works in a single pass, `天氣天天氣氣` asks
  about `天氣` (`Router.WeatherCityDropsTrailingKeyword`,
  `Router.WeatherCityMayKeepKeyword`).
- The listing order is the dictionary's order: users in order of their
  first saved entry since the last clear, and each user's entries in
  insertion order.
- The weather and free-chat branches of `handle_text`, and every branch of
  `handle_media`, send a single message object rather than a list. The
  model represents that as a one-element reply.

## Model

| member | source | states |
|---|---|---|
| `PyString.Strip` | app.py:109 | the stripped text is no longer than the input and neither starts nor ends with whitespace |
| `PyString.StripCutsWhitespace` | app.py:109 | the stripped text is one slice `s[lo..hi]` of the input, and everything cut off before `lo` and after `hi` is whitespace |
| `PyString.StripLeftCutsSpace` | app.py:109 | every leading character that stripping removes is whitespace |
| `PyString.StripRightCutsSpace` | app.py:109 | every trailing character that stripping removes is whitespace |
| `PyString.StripIdempotent` | app.py:109 | stripping an already stripped text changes nothing |
| `PyString.Lower` | app.py:112-136 | lowering keeps the length and lowers each character on its own |
| `PyString.StartsWith` | app.py:136 | `s.startswith(p)` holds exactly when `p` is no longer than `s` and agrees with it at every index of `p` |
| `PyString.StartsWithLower` | app.py:136 | for a caseless prefix such as `天氣`, testing the lowered text is the same as testing the text itself |
| `PyString.RemoveAll` | app.py:137 | deleting the keyword never lengthens the text |
| `PyString.RemoveAllSplits` | app.py:137 | for a two-character keyword with distinct characters, deleting it from `a + k + b` is deleting it from `a` and from `b` and joining the results: every occurrence is deleted, wherever it stands |
| `PyString.RemoveAllAbsent` | app.py:137 | a text without the keyword is left unchanged by the deletion |
| `Lookups.Generate` | app.py:30-40 | the text is the model's content when the call succeeds, and the model fallback when it raises |
| `Lookups.WeatherSummary` | app.py:80 | the summary opens with the city, and quotes the forecast's description right after the status label |
| `Lookups.WeatherPrompt` | app.py:81 | the prompt opens with its fixed introduction and quotes the city right after it |
| `Lookups.CwbWeather` | app.py:66-84 | the weather fallback whenever the forecast cannot be had |
| `Lookups.FirstTruthy` | app.py:92 | the `or` chain: the default when no key is truthy; otherwise the value of a truthy key with no earlier key truthy |
| `Lookups.CityFromAddress` | app.py:91-92 | the city chosen from an address is never empty, and is the default city or one of the address's values |
| `Lookups.CityPriority` | app.py:91-92 | city if truthy, else town, else county, else `臺北市` |
| `Lookups.CityFromCoords` | app.py:86-95 | never empty; `臺北市` when the reverse lookup fails |
| `History.Tagged` | app.py:55-57 | each entry is copied and tagged with the user id: as many records as entries, every one tagged with that user |
| `History.Flatten` | app.py:53-58 | the listing built user by user and entry by entry; every record is tagged with one of the listed users |
| `History.FlattenLength` | app.py:51-59 | the listing has as many records as the store has entries |
| `History.EntriesForAppend` | app.py:54-58 | picking one user's entries out of concatenated listings concatenates the picks |
| `History.EntriesForTagged` | app.py:55-58 | one user's tagged list yields that user's entries back, and nothing for any other user |
| `History.FlattenPerUser` | app.py:51-59 | with distinct keys, one user's records in the listing are exactly that user's entries in insertion order, and none for an absent user |
| `History.FlattenMembers` | app.py:51-59 | every listed record is tagged with a stored user and is one of that user's entries |
| `History.HistoryStore.constructor` | app.py:28 | the log starts empty |
| `History.HistoryStore.Save` | app.py:42-49 | the user's list (empty if absent) gets one entry `(now, user, bot)` at its end; the key is added on first use; every other user's list is unchanged |
| `History.HistoryStore.ListAll` | app.py:51-59 | the result is the user-by-user, entry-by-entry tagged listing of the current state, with as many records as entries; the store is untouched |
| `History.HistoryStore.Clear` | app.py:61-64 | afterwards there are no users and no entries |
| `History.TwoUsersScenario` | app.py:42-64 | after saves for two users, two listings agree, each user's records come back in call order, and the listing after a clear is empty |
| `Router.ChatPrompt` | app.py:153 | the free-chat prompt quotes the user's text verbatim at a fixed position |
| `Router.WeatherCity` | app.py:137 | the weather city is never empty |
| `Router.Classify` | app.py:112-152 | free chat carries the stripped text itself |
| `Router.Compose` | app.py:112-155 | every branch replies with one or two messages, the first the text that is recorded; the recorded user text is the stripped text |
| `Router.TextTurn` | app.py:107-155 | for a raw text: one or two messages, the first a text whose body is the recorded bot text; the recorded user text is the stripped text |
| `Router.MediaTurn` | app.py:157-184 | a single text message whose body is the recorded bot text; a non-empty recorded user text |
| `Router.HandleText` | app.py:107-155 | the reply is the composed one, and exactly one entry (stripped text, first text body) is appended to the user's list |
| `Router.HandleMedia` | app.py:157-184 | the reply is the composed one, and exactly one entry (label or coordinates, the text body) is appended to the user's list |
| `Router.KeywordTextIsNoMediaWord` | app.py:112-136 | a text starting with `天氣`, once lowered, is no sticker, image or video word, so the weather branch is reachable |
| `Router.LocationWordIsNoOtherTrigger` | app.py:112-141 | a location word, once lowered, is no sticker, image or video word and does not start with `天氣`, so the location branch is reachable |
| `Router.WeatherKeywordCaseless` | app.py:136 | the weather keyword is caseless |
| `Router.ClassifyTriggers` | app.py:112-152 | each branch is taken exactly when its own test holds (sticker, image and video on the lowered text; weather on the text starting with `天氣`; location on the exact text; free chat when none holds); the weather city is `WeatherCity` of the text |
| `Router.LocationIsCaseSensitive` | app.py:141 | `Location` is free chat |
| `Router.StickerIsCaseInsensitive` | app.py:112 | `STICKER` is a sticker request |
| `Router.WeatherCityAfterKeyword` | app.py:137 | the keyword followed by a keyword-free remainder asks about the stripped remainder, or `臺北市` when it is blank |
| `Router.WeatherCityOfTaichung` | app.py:137 | `天氣台中` asks about `台中` |
| `Router.WeatherCityOfKeywordAlone` | app.py:137 | `天氣` alone asks about `臺北市` |
| `Router.WeatherCityDropsTrailingKeyword` | app.py:137 | `天氣台中天氣` asks about `台中`: every occurrence is deleted |
| `Router.WeatherCityMayKeepKeyword` | app.py:137 | `天氣天天氣氣` asks about `天氣`: a single deletion pass can leave the keyword |
| `Router.TextTurnSticker` | app.py:112-117 | a sticker word gets the generated text and then sticker 11537/52002740 |
| `Router.TextTurnImage` | app.py:118-126 | an image word gets the generated text and then the fixed image |
| `Router.TextTurnVideo` | app.py:127-135 | a video word gets the generated text and then the fixed video |
| `Router.TextTurnWeather` | app.py:136-140 | a text starting with `天氣` gets a single text, the weather for `WeatherCity` |
| `Router.TextTurnLocation` | app.py:141-151 | a location word gets the generated text and then Taipei 101 at 25.033964, 121.564468 |
| `Router.TextTurnChat` | app.py:152-155 | any other text gets a single text generated from the prompt quoting it |
| `Router.MediaTurnLocation` | app.py:162-166 | a location is answered with the weather for the geocoded city and recorded as `位置：(lat, lon)` |
| `Router.MediaTurnLabels` | app.py:167-182 | image, video, sticker and other media record their fixed labels |
| `Router.FailingModelGivesFallback` | app.py:30-40 | with a model that always raises, the text sent is the model fallback, or the weather fallback for a weather request, and not otherwise |
| `Router.ComposeWithFailingModel` | app.py:38-40 | the same, branch by branch over the classified intent |
| `Router.MediaTurnWithFailingModel` | app.py:162-182 | with a model that always raises, a media message is answered with the model fallback, and a location with the model or the weather fallback |

## Left out

- Flask routing, request and response framing, `jsonify` and the JSON shape of the listing. These are HTTP plumbing.
- LINE webhook signature checking and the handler registration that dispatches events. Both are foreign library code. `Router.Media.OtherMedia` models `handle_media`'s final else branch, which no registered message class reaches.
- Delivery through `reply_message` and the reply token. The reply is the returned message list.
- The model call, the forecast request with the JSON indexing into its response, and the Nominatim request. These are network calls. They are opaque functions of `Lookups.Backends`, and `None` stands for any exception they raise.
- `Lookups.Backends.nominatim` returns the response's `address` object, which is an empty map when the response has none. Non-string JSON values in that object are not modelled.
- Latitude and longitude arithmetic and Python's float formatting. The coordinates arrive as already-formatted strings.
- `PyString.Lower`: only `A`-`Z` and U+212A KELVIN SIGN are lowered. These are the characters whose Python lower case is a single ASCII letter. Python's other case mappings are not modelled. They turn a non-ASCII letter into non-ASCII text, so they should not change any comparison with the ASCII and CJK trigger words.
- Reading the configuration and building the clients at start-up. This is I/O.
- The log messages printed on failure. These are output only.
- Concurrent access to the dictionary from several workers. The source does nothing about it.
