# vikiimage2.0 bot core in Dafny

This project models the stateful core of a Telegram bot (`main.py`). The bot generates
images from a text prompt through a remote text-to-image service, keeps a per-user gallery
of the generated files, and answers encyclopedia lookups. In the model:

- the two process-wide dictionaries `user_stats` and `generated_images` are the fields of
  the class `Bot.UserState`;
- every handler that changes them is a method with a frame-style postcondition;
- the remote services are parameters:
  - the model id, the job id and the answers of the status endpoint, in `Bot.ImageApi`;
  - whether an image payload can be decoded;
  - whether a file exists;
  - the encyclopedia page.

Each handler is a transition on the contents of the two dictionaries (`Bot.Tables`):
`Generate`, `AddStep`, `RetryStep` and `CallbackStep` are the transitions, and the
methods of `UserState` are proved to perform them. A step that raises in the source
before the handler changes a dictionary (`int()`, list indexing, the remote calls,
`save_image`) is an error outcome with the dictionaries unchanged. What happens to the bot
after a handler raises is not modelled, and the Telegram calls themselves are assumed to
succeed (see "## Left out").

Modules:

| module | what it models |
|---|---|
| `Wrappers` | `Option` and `Result` |
| `Text` | `str.split`, `str.join`, `str.strip`, `in`, `startswith` |
| `Numbers` | `f"{n}"` for integers and `int(text)` (strip, optional sign, ASCII digits) |
| `Payload` | the `{type}_{uid}_{field}` inline-button payload codec (split on `_`, exactly three parts) and the routing of a press by the payload's prefix |
| `Gallery` | `show_image_gallery` and `handle_gallery_navigation` |
| `Poll` | `Text2ImageAPI.check_generation`: a recursive specification of the bounded poll and the `while attempts > 0` loop proved against it |
| `Wiki` | `getwiki`: the sentence filter as a recursive function and as the `for`/`break` loop proved against it, plus the two regular-expression clean-ups |
| `Menu` | the exact-match dispatch of `handle_message` and the prompt conventions (`text[1:]`, `"!" + prompt`) |
| `Bot` | the counters, the image paths, the generation pipeline, the callback decisions and the `UserState` class with its handlers |

Behaviours of the code that a reader might not expect, and which the model keeps:

- A save that fails aborts the whole generation. The batch is not appended, the counter is
  not raised, and the images saved before the failing one are neither sent nor recorded.
- An empty gallery gives "gallery is empty". It is kept apart from an out-of-range index,
  which gives "no images available".
- Any status other than `DONE`, a failed job included, is treated as "not yet". Only a `DONE`
  answer ends the poll early.
- A poll that runs out of attempts returns `None`, and `enumerate(None)` then raises. The
  generation fails at that point, so no gallery change and no count.
- A `DONE` answer with an empty image list is a successful generation: the counter is raised
  and the user gets an (empty) gallery entry.
- File names restart at `generated_image_0.jpg` for every batch. A later batch overwrites the
  files of earlier ones, and the gallery can hold the same path more than once.
- `retry_image` never regenerates. After a payload parses, line 219 builds
  `telebot.types.Message(chat=..., text=...)`, and that raises. The model keeps this as
  `Bot.RetryAsWritten` and keeps the intended regeneration as `Bot.RetryStep` (see
  "## Findings").
- An "add" button carries the index of its image within the batch, and `add_to_gallery`
  reads that index as a position of the whole gallery (`Bot.ControlsRoundTrip`). The two
  agree for the first batch. After that the button selects an older entry, which, because
  names repeat, is often the same path.

## Model

| member | source | states |
|---|---|---|
| Bot.Bumped | main.py:89-92 | after `update_stats(u, c)` the user exists, counter `c` is one above its old value (0 for a new user), the other counter and every other user are unchanged |
| Bot.UserState.UpdateStats | main.py:89-92 | the statistics table becomes `Bumped(old, u, c)`; the galleries do not change |
| Bot.StatsOf | main.py:119 | a known user's record, or `(0, 0)` for an unknown one |
| Bot.UserState.HandleMessage | main.py:110-126 | the reply is the fallback exactly when the text is no menu label; "statistics" reports the user's record, `(0, 0)` for an unknown user, without creating one; "gallery" renders index 0; nothing changes |
| Bot.UserState.constructor | main.py:17-18 | both tables start empty and the gallery invariant holds |
| Bot.BatchPaths | main.py:141-145 | the batch of `n` images has exactly the paths `users_data/{u}/generated_image_0.jpg` ... `generated_image_{n-1}.jpg`, in order |
| Bot.ImagePathInjective | main.py:143 | different batch indexes give different file names |
| Bot.AppendInFolder | main.py:148-152 | appending paths of the owner's folder keeps every gallery inside its owner's folder |
| Bot.BatchInFolder | main.py:85 | every path of a batch lies in `users_data/{u}` |
| Bot.Fetch | main.py:133-135 | `get_model`, `generate` and `check_generation` in order; the first one that raises, or a poll that runs out, decides the error |
| Bot.FirstUndecodable | main.py:142-145 | the index of the first payload `save_image` fails on: all before it decode, it does not |
| Bot.SaveImages | main.py:141-145 | the save loop yields the batch paths when every payload decodes, otherwise the index of the first that does not |
| Bot.FetchImages | main.py:133-135 | the images `get_model`, `generate` and `check_generation` deliver, or the first of them that failed (definition; `Bot.Fetch` and `Bot.GenerationPaths` state its properties) |
| Bot.Saved | main.py:141-145 | the result of the save loop: the batch paths, or the index it stopped at (definition; `Bot.SaveImages` and `Bot.SavedAt` state its properties) |
| Bot.SavedAt | main.py:142-145 | when every payload before `i` decodes and the one at `i` does not, or `i` is the end, the save loop's result is the batch of `i` paths or the failure at `i` |
| Bot.GenerationPaths | main.py:133-152 | a generation succeeds exactly when the service delivers images and all of them are saved; its paths are then the batch paths; otherwise the error names the failed step and, for a save, the first image it failed on |
| Bot.BatchControls | main.py:155-170 | one pair of buttons per new image: the label is the given gallery length plus one, "add" carries the batch index, "retry" the prompt |
| Bot.ImagePath | main.py:143 | `str(Path(f'users_data/{u}') / f'generated_image_{i}.jpg')` (definition; `Bot.ImagePathInjective` and `Bot.BatchPaths` state its properties) |
| Bot.AddData | main.py:164 | `f"add_{u}_{index}"` (definition; `Bot.ControlsRoundTrip` states that it reaches `add_to_gallery` with that user and index) |
| Bot.RetryData | main.py:168 | `f"retry_{u}_{prompt}"` (definition; `Bot.RetryRoundTrip` and `Bot.RetryStepOwnButton` state what it is read back as) |
| Bot.BatchPathsNext | main.py:145 | appending the path of image `n` to a batch of `n` gives the batch of `n + 1`, as the loop does |
| Bot.GenerationResult | main.py:133-145 | the new gallery paths of a generation, or the step that raised (definition; `Bot.GenerationPaths` states its properties) |
| Bot.Generate | main.py:128-176 | `handle_image_generation` as a transition on the dictionaries (definition; `Bot.GenerateEffect` states its properties) |
| Bot.GenerateEffect | main.py:128-176 | a generation succeeds exactly when the service delivers images and all of them are saved; then `generated_image_0.jpg` ... `generated_image_{n-1}.jpg` of the user's folder are appended to the end of that gallery, earlier entries kept, no other gallery changes, and only `image_requests` of that user rises, by one; each new photo gets the buttons of `BatchControls`, labelled with the new gallery length plus one; on any failure neither dictionary changes; galleries only grow, counters never fall, every gallery stays in its owner's folder |
| Bot.BumpedGrows | main.py:89-92 | `update_stats` keeps every user and never lowers a counter |
| Bot.UserState.HandleImageGeneration | main.py:128-176 | the prompt is the text without its first character; the new dictionaries and the outcome are those of `Generate` on the old ones; the gallery invariant is kept |
| Bot.UserState.HandleWikiRequest | main.py:255-258 | the reply is the `getwiki` text and `wiki_requests` is raised by one, a failed lookup included; no counter falls; the galleries do not change |
| Bot.AddDecision | main.py:180-199 | the decisions of `add_to_gallery` in source order; a payload is reported corrupted exactly when it does not have three parts, and "no images" only for a parsed user whose gallery is missing or empty |
| Bot.AddDecisionAt | main.py:185-202 | an "add" payload for user `u` and index `i` is rejected for an empty gallery, raises `IndexError` outside `[-len, len)`, and otherwise selects `images[i]` (negative `i` counts from the end), which is added exactly when its file exists |
| Bot.AddDecisionAdded | main.py:194-202 | an added path is an entry already present in that user's gallery and its file exists |
| Bot.AddStep | main.py:179-203 | `add_to_gallery` as a transition on the dictionaries (definition; `Bot.AddStepEffect` states its properties) |
| Bot.AddStepEffect | main.py:179-203 | only an accepted press changes anything: the gallery of that user gains one entry, an existing entry of its own whose file exists, after its earlier entries; the statistics never change; a corrupted payload, a bad number, an empty gallery, a bad index or a missing file change nothing; the added path lies in the user's folder |
| Bot.UserState.AddToGallery | main.py:179-203 | the new dictionaries and the outcome are those of `AddStep` on the old ones; the gallery invariant is kept |
| Bot.RetryDecision | main.py:207-216 | the parse of `retry_image`: corrupted exactly when the payload does not have three parts; on success the user is `int()` of the middle part and the new text without its first character is the prompt part |
| Bot.RetryRoundTrip | main.py:207-216 | the retry payload of a `_`-free prompt parses back to the same user and `!` + prompt, whose `[1:]` is the prompt again; a prompt holding `_` makes the payload corrupted |
| Bot.RetryAsWritten | main.py:206-219 | `retry_image` as written: a rejected payload, or the crash at line 219 after a successful parse, and no change (definition) |
| Bot.RetryAsWrittenNeverRegenerates | main.py:206-219 | as written, no retry press regenerates or changes a dictionary; it crashes exactly when the payload parses |
| Bot.RetryAsWrittenOwnButton | main.py:168 | as written, the bot's own retry button for a `_`-free prompt reaches the crash with that user and `!` + prompt |
| Bot.RetryStep | main.py:206-219 | `retry_image` with the regeneration line 219 is meant to start (definition) |
| Bot.RetryStepOwnButton | main.py:168 | the bot's own retry button for a `_`-free prompt regenerates exactly that prompt for that user, with the effect of `Generate`; a prompt holding `_` is rejected with no change |
| Bot.RetryStepEffect | main.py:207-219 | a rejected retry changes nothing; an accepted one regenerates for the payload's user; galleries only grow, counters never fall, folders are kept |
| Bot.UserState.RetryImage | main.py:206-219 | the new dictionaries and the outcome are those of `RetryStep` on the old ones; the gallery invariant is kept |
| Bot.CallbackStep | main.py:178-253 | a button press as a transition, by the handler its prefix selects (definition; `Bot.CallbackEffect` states its properties) |
| Bot.CallbackEffect | main.py:178-253 | any press only grows galleries and never lowers a counter; only a retry touches the statistics; a gallery changes only by a retry or an accepted "add", which appends exactly its path; an unrouted press and a navigation change nothing; folders are kept |
| Bot.UserState.HandleCallback | main.py:178-253 | the new dictionaries and the outcome are those of `CallbackStep`; every old gallery is a prefix of the new one and no counter falls; a non-retry press keeps the statistics; an accepted "add" appends exactly its path to that existing gallery |
| Bot.ShownImageInFolder | main.py:228 | under the gallery invariant every image the gallery shows lies in the folder of the user it is shown to |
| Bot.ControlsRoundTrip | main.py:160-169 | both buttons of a new image reach their handlers; "add" selects the gallery entry at the batch index; "retry" of a `_`-free prompt asks for that prompt again |
| Payload.Encode | main.py:164 | the payload is the `_`-join of its three parts |
| Payload.Decode | main.py:180-183 | a payload is accepted exactly when it holds two `_`; the parts it is read as are `_`-free |
| Payload.DecodeEncode | main.py:180-185 | a payload written from `_`-free parts is read back as exactly those parts |
| Payload.DecodeEncodeRejects | main.py:207-210 | a payload one of whose parts holds `_` is rejected |
| Payload.EncodeDecode | main.py:180-185 | every accepted payload is the encoding of the parts it was read as |
| Payload.RouteOf | main.py:178 | the "add", "retry" and "gallery" handlers are chosen exactly by the prefixes `add_`, `retry_` and `gallery_` |
| Payload.RouteOfEncode | main.py:164-168 | a payload written with a handler's type word reaches that handler |
| Payload.KindOf | main.py:164-234 | the type words `add`, `retry` and `gallery` the three payloads start with (definition; `Payload.RouteOfEncode` states that each reaches its handler) |
| Gallery.GalleryOf | main.py:189 | a user without an entry has an empty gallery |
| Gallery.Render | main.py:221-240 | "empty" iff the gallery is missing or empty; "unavailable" iff it is not and the index is outside `[0, len)`; otherwise `images[index]` with "prev" iff `index > 0` carrying `gallery_{u}_{index-1}` and "next" iff `index < len-1` carrying `gallery_{u}_{index+1}` |
| Gallery.Navigate | main.py:243-253 | a payload is reported corrupted exactly when it does not have three parts |
| Gallery.NavigateNavData | main.py:244-253 | a gallery payload the bot writes renders the user and index it names |
| Gallery.ButtonsStayInGallery | main.py:233-236 | pressing "prev" or "next" of a shown page shows the neighbouring image, never "unavailable" |
| Gallery.NavData | main.py:234-236 | `f"gallery_{user_id}_{index}"` (definition; `Gallery.NavigateNavData` states that it is read back as that user and index) |
| Gallery.PyIndex | main.py:194 | Python list indexing: defined exactly on `[-len, len)`, negative indexes count from the end |
| Poll.StepOf | main.py:54-58 | how one status answer is treated: `DONE` with images finishes, a broken answer or `DONE` without images raises, anything else waits (definition) |
| Poll.Poll | main.py:52-59 | the bounded poll as a recursive function (definition; `Poll.PollBounded`, `Poll.PollDoneAt`, `Poll.PollRunsOut` state its properties) |
| Poll.CheckGeneration | main.py:52-59 | the loop's outcome and number of status queries are those of the recursive poll specification; the loop terminates |
| Poll.PollDoneAt | main.py:53-57 | when the first `DONE` answer with images is query `k+1 <= attempts`, the poll returns its images after exactly `k+1` queries |
| Poll.PollFailsAt | main.py:54-57 | a broken answer, or `DONE` without images, before any `DONE` with images raises right after that query |
| Poll.PollRunsOut | main.py:53-59 | without a `DONE` the poll returns nothing after exactly `attempts` queries (none for `attempts <= 0`) |
| Poll.PollBounded | main.py:52-59 | every poll makes at most `attempts` queries, all "not yet" except a final deciding one, and returns the images of that final answer |
| Wiki.Fragments | main.py:69-70 | the fragments of `content[:1000].split('.')[:-1]` hold no `.` |
| Wiki.NonHeadings | main.py:73 | the kept-for-consideration fragments contain no `==` |
| Wiki.LongPrefix | main.py:74-77 | the loop stops at the first fragment whose stripped length is at most 3 |
| Wiki.IsHeading | main.py:73 | `'==' in x` (definition) |
| Wiki.IsLong | main.py:74 | `len(x.strip()) > 3` (definition; `Text.StripShape` states what `strip()` removes) |
| Wiki.KeepSentences | main.py:71-77 | the text the `for x in wikimas` loop accumulates, as a recursive function (definition; `Wiki.KeepSentencesIsPrefix` and `Wiki.FilterSentences` state its properties) |
| Wiki.KeepSentencesIsPrefix | main.py:70-77 | the filtered text is the `.`-terminated concatenation of the longest prefix of the non-heading fragments whose stripped lengths all exceed 3 |
| Wiki.KeepSentencesEndsWithDot | main.py:75 | the filtered text is empty or ends with `.` |
| Wiki.FilterSentences | main.py:71-77 | the `for`/`break` loop computes the recursive filter |
| Wiki.DropFinalNewline | main.py:78 | `re.sub(r'$[^()]*$', '', t)`: removes a final newline and nothing else (definition; `Wiki.FinalNewlineInert` states its effect here) |
| Wiki.FinalNewlineInert | main.py:78 | the first `re.sub` leaves the filtered text unchanged |
| Wiki.NextBrace | main.py:79 | the position of the first `{` or `}` |
| Wiki.StripBraces | main.py:79 | the second `re.sub` never lengthens the text |
| Wiki.StripBracesNoOpen | main.py:79 | text without `{` is left alone |
| Wiki.StripBracesGroup | main.py:79 | a brace group without inner braces is removed and the text before it is kept |
| Wiki.WikiText | main.py:66-82 | the reply of `getwiki` for a lookup outcome (definition; `Wiki.GetWiki` computes it) |
| Wiki.GetWiki | main.py:66-82 | the reply is the sentinel "no information" text when the lookup raised, otherwise the cleaned, filtered text |
| Menu.Dispatch | main.py:112-126 | a command is chosen only by its exact label |
| Menu.DispatchCommandText | main.py:96-124 | each of the five labels selects its own command |
| Menu.DispatchFallback | main.py:125-126 | exactly the texts that are no label reach the fallback reply |
| Menu.CommandText | main.py:97-123 | the five button labels, which are also the texts `handle_message` compares with (definition; `Menu.DispatchCommandText` states that they are pairwise different) |
| Menu.HelperExamples | main.py:261-267 | the five example prompts `show_helper_examples` sends (definition) |
| Menu.PromptOf | main.py:129 | the prompt is the text without its first character (empty for an empty text) |
| Menu.RetryText | main.py:216 | the retried text is `!` followed by the prompt |
| Menu.PromptOfRetryText | main.py:129 | dropping the first character of the retried text gives the stored prompt back |
| Numbers.NatToString | main.py:143 | the decimal text of a natural number is non-empty, all digits, without a leading zero |
| Numbers.IntToString | main.py:164 | the decimal text of an integer holds only digits and a leading `-` |
| Numbers.ParseInt | main.py:186 | `int(text)`: strip, optional sign, at least one ASCII digit (definition; `Numbers.ParseIntToString` and `Numbers.ParseIntRejectsForeign` state its properties) |
| Numbers.ParseIntToString | main.py:186 | `int(f"{i}") == i` |
| Numbers.IntToStringInjective | main.py:143 | different integers have different decimal texts |
| Numbers.IntToStringHasNo | main.py:164 | a user id or an index never holds `_` |
| Numbers.ParseIntRejectsForeign | main.py:186 | `int()` raises on text with a character that is neither digit, sign nor whitespace |
| Text.Split | main.py:180 | `s.split(d)` (definition; `Text.SplitShape`, `Text.JoinSplit` and `Text.SplitJoin` state its properties) |
| Text.Join | main.py:164 | `d.join(parts)`, the shape the payload f-strings write (definition) |
| Text.Strip | main.py:74 | `s.strip()` (definition; `Text.StripShape` states its properties) |
| Text.SplitShape | main.py:180 | `split` gives one more piece than there are separators, none holding a separator |
| Text.JoinSplit | main.py:180 | joining the pieces of a split gives the text back |
| Text.SplitJoin | main.py:180 | splitting a join of separator-free pieces gives the pieces back |
| Text.StripShape | main.py:74 | `strip()` removes exactly the leading and trailing whitespace |
| Text.ContainsPair | main.py:73 | `sub in s` for a two-character `sub`: the two characters occur next to each other (definition) |
| Text.StartsWith | main.py:178-242 | `s.startswith(prefix)`: `s` begins with `prefix` (definition) |

## Findings

| source | as written | input that shows it | evidently intended | confidence | as-written member | corrected member |
|---|---|---|---|---|---|---|
| main.py:219 | the regeneration is started with `telebot.types.Message(chat={"id": user_id}, text=prompt)`, but telebot's `Message` constructor takes `message_id, from_user, date, chat, content_type, options, json_string` and no `text`, so the call raises after the announcement at line 217 | pressing the bot's own retry button `retry_42_cat`: the payload parses to user 42 and `!cat`, then the handler raises and nothing is generated (`Bot.RetryAsWrittenOwnButton`, `Bot.RetryAsWrittenNeverRegenerates`) | the prompt `cat` is generated again for user 42, with the effect of `handle_image_generation` (`Bot.RetryStepOwnButton`); `Bot.UserState.RetryImage` and `Bot.CallbackStep` use this definition | not executed; rests on the signature of telebot's `Message`, which is not part of this model | Bot.RetryAsWritten | Bot.RetryStep |

## Left out

- Telegram transport: messages sent, photos, `delete_message`, keyboards and `bot.polling`. The
  handlers return what they would send, as datatypes, without the literal reply texts.
- `register_next_step_handler`: the menu returns `AskPrompt`/`AskQuery`, and the handler
  that gets the next message is called directly.
- The `/start` and `/help` welcome handler: telebot command parsing.
- Which chat a reply goes to (`call.from_user.id` versus the payload's user id).
- HTTP and JSON in `get_model`, `generate` and the status query: the answers are
  parameters. Any request or parsing failure is one error value.
- `time.sleep` between status queries: only the number of queries is modelled.
- Base64 and PIL decoding in `save_image`: a parameter saying whether a payload can be saved.
- `mkdir` in `create_user_folder`: only the path it makes is modelled.
- `os.path.exists`: a parameter.
- `wikipedia.page`: an `Option` of the page content, `None` when it raises.
- Any other exception inside `getwiki`: not modelled.
- The other keyboard helper texts, and the file handles opened to send photos.
- `user_folders`: it is never used.
- What follows a handler that raises: the model ends the handler with an error outcome and
  handles the next update on the same dictionaries. `bot.polling(none_stop=True)` at line 270
  may instead re-raise the exception out of the worker pool and end the process, losing both
  dictionaries; the polling loop is telebot code and is not modelled.
- Concurrency: `TeleBot(TOKEN)` hands updates to a pool of worker threads. The model runs
  each handler to completion, one at a time, and does not capture interleaved updates to the
  dictionaries.
- Bot.UserState.HandleImageGeneration: the Telegram calls at lines 130 and 155-175 are assumed
  to succeed. In the source, one that raises (for example the send at line 173 when a long
  prompt pushes the retry payload past Telegram's 64-byte `callback_data` limit) stops the
  handler after the extend at line 152 and before `update_stats` at line 176. The gallery has
  then grown and the counter has not, which the model does not capture.
- Bot.UserState.HandleWikiRequest: the send at line 257 is assumed to succeed. In the source
  an empty `getwiki` text makes it raise, and the request is then not counted.
- Files on disk: the images written before a failing `save_image` stay on disk; files are not
  modelled.
- Numbers.ParseInt: accepts ASCII digits only. Python's `int()` also takes other Unicode
  decimal digits and single `_` between digits. A payload field never holds `_` after the
  split, and the bot writes its numbers with `f"{n}"`, so the difference does not reach the
  handlers.
- Payload.Encode: Telegram's 64-byte limit on `callback_data` is not modelled. It applies
  when the buttons are sent, not when a payload is parsed.
- Wiki.StripBraces: its contract states only the length bound and its behaviour on brace-free
  and single-group text, not a full regular-expression semantics.
