# A verified model of the request-sorting Telegram bot

The bot takes messages from Telegram users and files each one under one of
three categories: `personal`, `offers` or `gibberish`. It writes every
submission as a JSON record under `requests/<category>/`. Three admin
buttons report on what has been filed: totals per category, the most common
categories, and the most active senders.

This project models the decision logic of `upd-main.py` in Dafny and proves
what that logic promises. It has seven modules:

- `Wrappers`: the `Option` type.
- `Text`: Python's `str.lower()` and `str.split()` on character sequences,
  and `str(int)` as decimal digits.
- `Classifier`: `categorize_text`, an ordered first-match rule. The language
  tag and the named-entity labels are inputs, because language detection
  and entity recognition are statistical models outside the program.
- `Ledger`: the JSON record `save_request` builds, where it is written, and
  the `requests/` tree as a map from (partition, file name) to file content.
  `RequestStore` is a class whose `files` map `SaveRequest` updates in place.
- `Ranking`: the stable descending sort behind `Counter.most_common(n)` and
  `sorted(..., reverse=True)[:n]`, and the cut to `n` entries.
- `Aggregate`: the loops of `admin_stats`, `admin_top_categories` and
  `admin_top_users`. Each is a method with loop invariants, tied to ghost
  specification functions of the store.
- `Bot`: the conversation state machine (idle, or waiting for a request),
  the handler order, and the `ADMIN_IDS` gate.

Where the code and its description differ, the model follows the code:

- `admin_stats` loads every counted file with `json.load` and no `try`
  (upd-main.py:169-170). A `.json` file that does not parse therefore aborts
  the whole report. `AdminStats` returns `None` exactly then.
  `admin_top_users` catches the same error and skips the file.
- The file name is `<category>_<timestamp>.json` and has no sender in it
  (upd-main.py:41). Two requests in the same category within the same second
  share one file, whoever sent them, and the second replaces the first.
  `Ledger.SameSecondOverwrites` states this. The behaviour is modelled as
  written, not corrected.
- `admin_top_users` uses whatever `user_id` holds as a dictionary key. A list
  or an object there raises `TypeError`, and the model returns `None` for it.
- `handle_request` passes `message.text` on unchanged. When the message has
  no text this is `None`: language detection then raises and yields
  `"unknown"`, so the category is gibberish, and the record's `message` is
  `null`.

## Model

| member | source | states |
|---|---|---|
| `Text.LowerStr` | upd-main.py:83 | `text.lower()`, character by character through `Lower`, keeping the length. Its properties are in `LowerStrIdempotent` and `LowerFacts` |
| `Text.LowerStrIdempotent` | upd-main.py:83 | Lower-casing a token that was already lower-cased changes nothing, so the second `word.lower()` is redundant |
| `Text.LowerFacts` | upd-main.py:83 | Lower-casing a character is idempotent and keeps whitespace and non-whitespace apart |
| `Text.Split` | upd-main.py:83 | `str.split()` with no argument: maximal runs of non-whitespace, dropping empty tokens. Definition; its properties are in `SplitTokens`, `SplitAtSpace`, `SplitWord` and `SplitLower` |
| `Text.SplitTokens` | upd-main.py:83 | Every token of `str.split()` is non-empty and contains no whitespace |
| `Text.SplitAtSpace` | upd-main.py:83 | A whitespace character cuts a text into two parts that split independently: `split(a + c + b) == split(a) + split(b)` |
| `Text.SplitWord` | upd-main.py:88 | A text without whitespace is one token, or none when it is empty |
| `Text.SplitLower` | upd-main.py:83 | Splitting the lower-cased text gives the lower-cased tokens of the text |
| `Text.IntToString` | upd-main.py:46 | `str(user_id)`: an optional minus sign and the decimal digits. Definition; its properties are in `ParseNatToString` and `IntToStringInjective` |
| `Text.ParseNatToString` | upd-main.py:46 | Reading back the decimal digits of `n` gives `n` |
| `Text.IntToStringInjective` | upd-main.py:46 | Distinct integers print as distinct strings, including the sign |
| `Classifier.Tokens` | upd-main.py:83 | `text.lower().split()`, the token list both keyword tests run over (also line 88). Definition; its properties are in `AnyTokenMeansMention` and `TokenInText` |
| `Classifier.NamesPerson` | upd-main.py:83 | `any(ent.label_ == 'PERSON' for ent in doc.ents)` over the entity labels. Definition; used by `Categorize` and `Bot.Classify` |
| `Classifier.AnyKeyword` | upd-main.py:83 | The `any(...)` over the tokens holds exactly when some token, lower-cased, is in the keyword list |
| `Classifier.AnyTokenMeansMention` | upd-main.py:88 | Matching the tokens of the lower-cased text is the same as some whitespace token of the text being a keyword once lower-cased |
| `Classifier.Categorize` | upd-main.py:59-94 | Any language other than `en`/`ru` gives gibberish. The result is personal iff the language is supported and there is a PERSON entity or a personal keyword token. It is offers iff the language is supported, the personal condition fails and an offer keyword token exists. Otherwise it is gibberish |
| `Classifier.CaseInsensitive` | upd-main.py:83-90 | Two texts equal once lower-cased get the same category |
| `Classifier.TokenInText` | upd-main.py:83 | A word with whitespace or the edge of the text on each side is one of the tokens of `text.split()` |
| `Classifier.PersonalWordWins` | upd-main.py:79-85 | A personal keyword, in any case, with whitespace or the edge of the text on each side makes a supported-language text personal, whatever words come before or after it, offer keywords included |
| `Classifier.NamedProposalIsPersonal` | upd-main.py:79-85 | An English text "… Vlad with a job offer" is personal, not offers |
| `Classifier.OneWordText` | upd-main.py:83-94 | A one-word supported-language text whose entity labels hold no PERSON is personal iff its lower-cased word is a personal keyword, otherwise offers iff it is an offer keyword, otherwise gibberish |
| `Classifier.GluedSuffixIsNotKeyword` | upd-main.py:80 | "offers" is gibberish: a keyword inside a longer token does not match |
| `Classifier.PunctuationIsPartOfToken` | upd-main.py:88-90 | "job," splits into the single token "job," because punctuation stays attached, so it is gibberish |
| `Classifier.UpperCaseKeywordMatches` | upd-main.py:88-90 | "JOB" is offers: matching ignores case |
| `Classifier.KelvinSignMatches` | upd-main.py:88-90 | "wor" followed by the KELVIN SIGN lower-cases to "work", since `str.lower()` maps that sign to "k", and so it is offers |
| `Ledger.FileName` | upd-main.py:41 | `f"{category}_{timestamp}.json"`, without the sender. Definition; its properties are in `FileNameIsJson` and `SameSecondOverwrites` |
| `Ledger.OrderNumber` | upd-main.py:46 | `f"#{user_id}_{timestamp}"`. Definition; its property is in `OrderNumberIdentifiesSender` |
| `Ledger.Encode` | upd-main.py:45-51 | The dictionary `new_request` with its five fields. Definition; its property is in `DecodeEncode` |
| `Ledger.IsJsonName` | upd-main.py:167 | `filename.endswith(".json")`, the filter of all three admin handlers (also lines 196 and 219). Definition; its property is in `FileNameIsJson` |
| `Ledger.FileNameIsJson` | upd-main.py:41 | Every file name `save_request` chooses ends in `.json`, so the admin scans see it |
| `Ledger.OrderNumberIdentifiesSender` | upd-main.py:46 | For a given second, the order number `#<user_id>_<timestamp>` determines the sender |
| `Ledger.DecodeEncode` | upd-main.py:45-54 | Reading back the written record gives the same order number, user id, message, category and timestamp |
| `Ledger.Saved` | upd-main.py:35-54 | After a save, the record's path holds a record with the given sender, verbatim message, category, timestamp and order number. The key set grows by that path only, and every other file is unchanged |
| `Ledger.RequestStore.SaveRequest` | upd-main.py:35-56 | Updates the store in place to exactly `Saved` of the old store |
| `Ledger.SaveThenScan` | upd-main.py:41-51 | After a save, a scan of the category's partition finds a record of that category, that sender and that message |
| `Ledger.ScanAfterWrite` | upd-main.py:36-42 | Writing a `.json` file into a partition adds it to that partition's scan and leaves the other partitions' scans alone |
| `Ledger.SaveScanCount` | upd-main.py:41-54 | A save adds one file to its category's count, or none when the name was already taken, and changes no other category's count |
| `Ledger.SavePreservesAgreement` | upd-main.py:36-49 | If every record's `category` field names the partition it lies in, this stays true after a save |
| `Ledger.SameSecondOverwrites` | upd-main.py:40-46 | A second save in the same category and second leaves the store as if only the second had happened, although the two senders' order numbers differ |
| `Ranking.Insert` | upd-main.py:228 | Inserting into a descending list keeps it descending and adds exactly one entry |
| `Ranking.SortDesc` | upd-main.py:228 | The result is descending by count and is a permutation of the input |
| `Ranking.InsertKeepsKeysDistinct` | upd-main.py:228 | Inserting a new key into a list of distinct keys keeps the keys distinct |
| `Ranking.SortKeepsKeysDistinct` | upd-main.py:199 | Sorting keeps the keys distinct |
| `Ranking.InsertIsStable` | upd-main.py:228 | The inserted entry goes ahead of the entries with the same count |
| `Ranking.SortIsStable` | upd-main.py:200 | Among entries of equal count, the sort keeps input order, as Python's stable sort does |
| `Ranking.Top` | upd-main.py:228 | `sorted(..., reverse=True)[:n]`, and `most_common(3)` at line 200: a stable descending sort, then the first `n` entries. Definition; its properties are in `TopFromInput`, `TopDominates` and `TopIsTop` |
| `Ranking.TopFromInput` | upd-main.py:228 | Every entry kept comes from the input |
| `Ranking.TopDominates` | upd-main.py:228 | No entry left out has a larger count than an entry kept |
| `Ranking.TopIsTop` | upd-main.py:200 | The top `n` has `min(n, len)` entries, is descending, keeps keys distinct, comes from the input and dominates what it leaves out. When `n` covers the input it is a permutation of the input |
| `Aggregate.ListDir` | upd-main.py:165-166 | `os.listdir` lists each file of the directory exactly once and nothing else, and lists nothing for a missing directory |
| `Aggregate.CountLoaded` | upd-main.py:166-171 | For one partition: fails iff one of its `.json` files does not parse, and otherwise counts exactly its `.json` files |
| `Aggregate.AdminStats` | upd-main.py:160-178 | Aborts iff a scanned `.json` file does not parse. Otherwise it reports all three categories, each with its number of `.json` files (0 when the partition is missing), and a total equal to their sum |
| `Aggregate.CategoryCounts` | upd-main.py:199 | `Counter(all_categories)` as an insertion-ordered list of counts. Definition; its properties are in `CategoryCountsUpToFacts` and `CategoryCountsFacts` |
| `Aggregate.CategoryCountsUpToFacts` | upd-main.py:192-199 | After any prefix of the scan order, the counter holds each visited category that has files once, with its number of files, and nothing else |
| `Aggregate.CategoryCountsFacts` | upd-main.py:199 | `Counter(all_categories)` holds each category that has files once, with its number of files |
| `Aggregate.AppendFound` | upd-main.py:195-197 | Appends the category once per `.json` file of its partition and adds no other category |
| `Aggregate.CollectCategories` | upd-main.py:190-197 | `all_categories` holds each category exactly as many times as its partition has `.json` files |
| `Aggregate.TopCategoriesFacts` | upd-main.py:199-200 | The top three is at most three entries, descending, each category once with its true count. Every category that has files appears |
| `Aggregate.AdminTopCategories` | upd-main.py:190-200 | Returns `most_common(3)` of the per-category counts, with the facts of `TopCategoriesFacts` |
| `Aggregate.UserOf` | upd-main.py:223 | The `user_id` of a parsed file that is a dictionary holding that key, and nothing otherwise. Definition; used by `TallyFile`, `TallyStepNoSender` and `TallyStepSender` |
| `Aggregate.Bump` | upd-main.py:224 | `user_requests[user_id] += 1` on a `defaultdict(int)`: a known sender's tally grows by one, a new sender starts at 1 and joins the insertion order. Definition; its property is in `TallyStepSender` |
| `Aggregate.Hashable` | upd-main.py:224 | Whether a `user_id` can be a dictionary key. A list or an object raises `TypeError` there. Definition; used by `TallyFile` and `AdminTopUsers` |
| `Aggregate.AddSeen` | upd-main.py:223-224 | Visiting one more file adds its sender, if any, to the senders seen and one record to that sender's tally only |
| `Aggregate.TallyStepNoSender` | upd-main.py:221-226 | A file that does not parse, is not an object, or has no `user_id` leaves the tallies correct without touching them |
| `Aggregate.TallyStepSender` | upd-main.py:224 | `user_requests[user_id] += 1` keeps each tally equal to the sender's number of records seen. A new sender goes to the end of the insertion order, and no sender appears twice |
| `Aggregate.TallyFile` | upd-main.py:220-226 | One file: fails iff its parsed record has a list or object `user_id`. Otherwise the tallies cover the files seen before and this one |
| `Aggregate.TallyPartition` | upd-main.py:215-226 | For one partition: fails iff some `.json` file there has an unhashable `user_id`. Otherwise the tallies cover every file scanned so far |
| `Aggregate.Items` | upd-main.py:228 | `user_requests.items()` lists the tallied senders in insertion order, each with its tally |
| `Aggregate.ItemsFacts` | upd-main.py:228 | The items name every tallied sender once, with its tally |
| `Aggregate.TopTalliesShape` | upd-main.py:228 | The ranking keeps `min(5, senders)` entries, descending, each sender once |
| `Aggregate.TopTalliesCounted` | upd-main.py:228 | Each sender kept carries its own tally |
| `Aggregate.TopTalliesDominate` | upd-main.py:228 | No sender left out has a larger tally than a sender kept |
| `Aggregate.TopUsersFacts` | upd-main.py:213-228 | Across the whole ledger, the five kept are senders, each with its number of records, largest first, and no sender left out has more |
| `Aggregate.AdminTopUsers` | upd-main.py:213-228 | Aborts iff a scanned record has a list or object `user_id`. Otherwise it returns `min(5, senders)` senders with their record counts, descending, distinct, and dominating every sender left out. Unparsable files and records without `user_id` are skipped |
| `Bot.IsStartCommand` | upd-main.py:120 | The `Command("start")` filter: the text's first token is `/start`. Definition; used by `Bot.Bot.OnMessage` |
| `Bot.Classify` | upd-main.py:143-145 | Personal iff the message has text in a supported language and either a PERSON entity or a personal keyword token. Offers iff it has text in a supported language, neither of those, and an offer keyword token. Gibberish otherwise, so always for a message without text |
| `Bot.Bot.OnMessage` | upd-main.py:139-151 | `/start` only greets. A waiting sender's message is classified and saved (the store becomes `Saved`), and the sender returns to idle. An idle sender gets a prompt and nothing changes |
| `Bot.Bot.OnButton` | upd-main.py:126-137 | "send_message" puts the sender in the waiting state. "help" answers help. Admin buttons go through the gate: a denial iff the sender is not in `ADMIN_IDS`, and for an admin the full report facts of `AdminQuery`. Nothing else changes the state |
| `Bot.Bot.AdminQuery` | upd-main.py:153-158 | The answer is a denial iff the sender is not in `ADMIN_IDS`. For an admin, "admin_stats" aborts iff a scanned file does not parse, and otherwise reports every category with its file count and their sum as total. "admin_top_categories" reports `most_common(3)` with the facts of `TopCategoriesFacts`. "admin_top_users" aborts iff a record has an unhashable `user_id`, and otherwise reports the facts of `TopUsersFacts` |

## Left out

- Language detection and entity recognition (`langdetect`, the spaCy models) are inputs to `Categorize`: a language tag and the list of entity labels.
- The Telegram transport, the reply texts, the keyboards of `get_keyboard` and `callback_query.answer` are interface only. A reply is an enumerated `Reply` value.
- `delete_message_later` and the `asyncio.create_task` calls that schedule it are timed, concurrent cleanup of chat messages and do not touch the model's state.
- Token loading, the dispatcher set-up and the polling loop are hosting.
- `datetime.now()` is a parameter: the already formatted timestamp string.
- The bytes of `json.dump` and `json.load` are not modelled. A file holds a JSON value or is unparsable, and JSON numbers are integers only.
- `os.makedirs` is not modelled. A partition exists when it holds files, and an empty partition and a missing one scan alike.
- I/O errors, and a file that is not valid UTF-8 (`UnicodeDecodeError`, which neither handler catches), are not modelled.
- `print` debugging output is not modelled.
- `Text.LowerStr`: `str.lower()` is modelled, through `Text.Lower`, for the ASCII capitals, the Latin-1 capitals U+00C0–U+00DE (but U+00D7), the basic Cyrillic capitals U+0400–U+042F, and the KELVIN SIGN and ANGSTROM SIGN, which lower-case to "k" and "å". Every other capital is left unchanged, among them the rest of the Cyrillic block (such as U+0490 and U+0462), the Cyrillic Supplement, Latin Extended (such as U+0100 and U+0141) and other scripts. So is the one mapping that changes length: U+0130 lower-cases to "i" and U+0307. No keyword holds any of these capitals, their lower-case forms or U+0307, so a token holding one matches no keyword under either mapping, and the classification is the same.
- `Aggregate.AdminTopUsers`: Python treats `True` and `1` as the same dictionary key. The model keeps JSON booleans and integers apart.
- `Aggregate.AdminStats`, `Aggregate.AdminTopCategories` and `Aggregate.AdminTopUsers` use `defaultdict` and `Counter`, which `upd-main.py` never imports. As written, each admin report raises `NameError`. The model gives their intended counting behaviour instead.
- `Bot.IsStartCommand`: the `/start@botname` form and a caption on a media message are not recognised as the command.
- The waiting state is per sender. aiogram keys it by chat and user, which is the same thing in a private chat.
