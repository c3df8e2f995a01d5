# fish: a verified model of the bot's bookkeeping and decision logic

This project is a Dafny model of the parts of the *fish* Discord bot that can be
stated precisely once Discord, Postgres, HTTP, yt-dlp and PIL are abstracted away:

- **Settings cache** (`Cache.DbCache`). This is the in-memory mirror of guild and
  user settings: prefix lists, opt-out lists, flat id lists for auto-download,
  poketwo and auto-reaction guilds, and the single-valued Pinboard map. The
  source keeps these containers as class attributes, so every instance shares
  one state; the model uses one object. Each method names exactly the fields it
  may change, so "every other container is unchanged" is part of its contract.
- **Prefix resolution, cache population, error-log sizing, the edit guard** (`Bot`).
  The database rows that `populate_cache` fetches are input sequences.
- **String and arithmetic helpers** (`Functions`): `human_join`,
  `response_checker`, `capitalize_text`, `format_status` and the grid placement
  loop of `format_bytes`.
- **Fishing registries** (`FishingData`): poles and fish keyed by name,
  get-or-default, first-match-by-id scans and the bulk loaders.
- **Caption layout arithmetic** (`ImageFunctions`): the halving loop, the canvas
  size, the centring offset and the frame count of `add_images` and `gif_maker`.
- **Download routing** (`Downloads`): the live-video filter, the choice between
  the cobalt service and yt-dlp, audio/video mode, the yt-dlp command line and
  the Twitter picker files. Each URL regular expression is an uninterpreted
  predicate, a field of the `Patterns` record.
- **Info-view helpers** (`Info`): the user dropdown options and dispatch, the
  avatar link list, badges, join position, status wording, the emoji tally and
  the quality and format choices.

Shared pieces live in `Wrappers` (Option, Result), `Text` (ASCII case, whitespace,
decimal text, `str.join`) and `Arith` (powers of two, halving).

Python semantics that matter are written out: `list.remove` drops the first
occurrence and raises `ValueError` when the value is absent, dicts keep
insertion order (a key list beside the map), `//` is floor division on
non-negative values, and `re.I` matching is ASCII case folding.

## Model

| member | source | states |
|---|---|---|
| Cache.DbCache.constructor | core/cache.py:4-11 | the shared cache starts with every container empty |
| Cache.DbCache.AddPrefix | core/cache.py:13-19 | the guild's prefix list becomes the old list (or the empty list when the guild was absent) followed by the prefix; that list is returned; only `prefixes` changes |
| Cache.AppendedLookup | core/cache.py:13-19 | appending under one key extends that key's list by the value and leaves every other key's list as it was |
| Cache.DbCache.RemovePrefix | core/cache.py:21-29 | an unknown guild returns `[]` and creates no entry; a known guild loses the first occurrence of the prefix and the new list is returned; an absent prefix leaves the list unchanged |
| Cache.RemoveFirstSplits | core/cache.py:21-29 | removing a present value cuts out exactly its first occurrence and keeps the order of the rest; removing an absent value changes nothing |
| Cache.RemoveFirstCount | core/cache.py:21-29 | removal lowers the value's count by exactly one (never below zero) and the length by one when present |
| Cache.FirstIndex | core/cache.py:21-29 | the index `list.remove` uses: the first position holding the value, or the length iff the value is absent |
| Cache.DbCache.AddPinboard | core/cache.py:31-32 | the guild's Pinboard channel is set, overwriting any earlier one; only `pinboard` changes |
| Cache.DbCache.RemovePinboard | core/cache.py:34-38 | the guild's entry is gone afterwards, the channel argument is ignored, and a KeyError is raised exactly when the guild had no entry |
| Cache.DbCache.AddOptOut | core/cache.py:40-46 | the id's opt-out list gains the value at its end (lazily created) and the value is then reported by `get_opted_out` |
| Cache.DbCache.RemoveOptOut | core/cache.py:48-56 | an unknown id returns `[]`; otherwise the first occurrence of the value is removed and the new list returned |
| Cache.DbCache.AddAdl | core/cache.py:58-59 | the channel is appended unconditionally, so duplicates are possible |
| Cache.DbCache.RemoveAdl | core/cache.py:61-65 | the first occurrence is removed; an absent channel is a no-op |
| Cache.DbCache.AddPoketwo | core/cache.py:67-68 | the guild is appended unconditionally |
| Cache.DbCache.RemovePoketwo | core/cache.py:70-74 | the first occurrence is removed; an absent guild is a no-op |
| Cache.AppendThenRemove | core/cache.py:67-74 | adding then removing an id restores the multiset of the list, and the list itself when the id was not there before |
| Cache.PoketwoToggleScenario | core/cache.py:67-74 | add, remove, remove again: the second removal does not fail and the net effect is one occurrence fewer than before |
| Cache.DbCache.AddReactionGuilds | core/cache.py:76-77 | the guild is appended unconditionally |
| Cache.DbCache.RemoveReactionGuilds | core/cache.py:79-83 | the first occurrence is removed; an absent guild is a no-op |
| Cache.DbCache.GetOptedOut | core/cache.py:85-89 | the stored list for a known id, `[]` for an unknown one, and nothing is inserted |
| Bot.FirstMatch | core/bot.py:61-65 | the chosen candidate case-insensitively prefixes the content and no earlier candidate does; no result means no candidate matches |
| Bot.GetPrefix | core/bot.py:48-67 | outside a guild the default prefix; in a guild, the content's own leading text of the first matching candidate, or every candidate (default first, then the guild's cached prefixes) when none matches |
| Bot.UncachedGuildUsesDefault | core/bot.py:54-59 | a guild missing from the cache contributes no prefixes |
| Bot.AddPrefixRowsLookup | core/bot.py:269-272 | folding prefix rows into the cache appends, per guild, exactly that guild's row prefixes in row order |
| Bot.PrefixesOfContains | core/bot.py:269-272 | a row's prefix is among the prefixes collected for its guild |
| Bot.PrefixRowsPresent | core/bot.py:266-273 | after loading, every prefix row's prefix is in its guild's cached list |
| Bot.AddItemsLookup | core/bot.py:277-279 | adding a row's items appends them under its id and leaves other ids alone |
| Bot.AddOptOutRowsLookup | core/bot.py:275-288 | folding opt-out rows appends, per id, exactly the items of that id's rows in order |
| Bot.ItemsOfContains | core/bot.py:275-288 | an item of a row is among the items collected for the row's id |
| Bot.OptOutRowsPresent | core/bot.py:275-288 | after loading, every item of every user and guild opt-out row is in the one shared opt-out map under its id |
| Bot.AdlChannelsExactly | core/bot.py:298-299 | a channel is added iff some settings row has it as a truthy auto-download channel |
| Bot.PinboardAfterUntouched | core/bot.py:304-305 | a guild no row gives a truthy Pinboard keeps its previous mapping, or stays unmapped |
| Bot.PinboardAfterLastRow | core/bot.py:304-305 | the guild's Pinboard channel is the one from its last row with a truthy Pinboard |
| Bot.PoketwoIdsExactly | core/bot.py:310-311 | a guild id is added iff some row for it has poketwo set |
| Bot.ReactionIdsExactly | core/bot.py:314-315 | a guild id is added iff some row for it has auto reactions set |
| Bot.PopulateCache | core/bot.py:266-316 | the cache after population equals the folds of the prefix, opt-out and settings rows over the old cache; NSFW covers are untouched |
| Bot.AddPrefixes | core/bot.py:267-273 | the prefix loop leaves the prefix fold of the rows |
| Bot.AddOptOuts | core/bot.py:275-288 | the opt-out loop leaves the opt-out fold of the rows |
| Bot.ApplyRow | core/bot.py:291-316 | one settings row adds its truthy auto-download channel, its Pinboard channel and its poketwo and auto-reaction guild, each to its own container and nothing else |
| Bot.ApplySettings | core/bot.py:290-316 | the settings loop appends the truthy channels and flagged guilds in row order and sets the Pinboard map |
| Bot.LogError | core/bot.py:149-156 | over 2000 characters: the content "File too large" and the traceback as the one attachment; otherwise no files and the traceback wrapped in the opening `py` fence and the closing fence |
| Bot.LogErrorReadBack | core/bot.py:149-154 | the traceback is recoverable from the report: the attachment, or the text inside the `py` fence |
| Bot.LogErrorCanExceedLimit | core/bot.py:149-154 | a 2000-character traceback is sent as a 2010-character message |
| Bot.LogErrorWithinLimit | core/bot.py:149-154 | with the fence counted, the message never exceeds 2000 characters and the traceback is still recoverable |
| Bot.Reprocessed | core/bot.py:113-117 | a run of edits reprocesses at most one message per edit |
| Bot.ReprocessedSound | core/bot.py:113-117 | every reprocessed message is the new version of some edit that changed the text |
| Bot.ReprocessedComplete | core/bot.py:113-117 | every edit that changed the text has its new version reprocessed |
| Bot.ReprocessedExactly | core/bot.py:113-117 | a message is reprocessed iff some edit produced it as its new version with a content different from the old one |
| Bot.CommandProcessor.constructor | core/bot.py:113-117 | nothing has been reprocessed yet |
| Bot.CommandProcessor.OnMessageEdit | core/bot.py:113-117 | the edited message is passed to command processing exactly when its content changed; otherwise nothing is processed |
| Functions.HumanJoin | utils/functions.py:76-85 | empty gives `""`, one element gives itself, two give `a final b` with spaces whatever `spaces` says |
| Functions.HumanJoinAsJoin | utils/functions.py:84-88 | with no padding and `final == delim`, three or more elements are an ordinary join; two elements are a join by the spaced final word |
| Functions.HumanJoinLength | utils/functions.py:87-88 | for three or more elements the length is the item lengths plus one delimiter per gap but the last, plus the final word (padded iff `spaces`): no delimiter before the final word |
| Functions.ResponseChecker | utils/functions.py:91-118 | success exactly for status 200; a status whose decimal text starts with 5 gets the server-error message, any other the generic message |
| Functions.ResponseCheckerIgnoresKnownCodes | utils/functions.py:102-104 | the specific messages are never produced: 404 gets the generic message, 502 the server-error message |
| Functions.ResponseCheckerIntended | utils/functions.py:91-118 | the specific messages for 400, 401, 403, 404 and 502, then the server-error and generic messages |
| Functions.Capitalize | utils/functions.py:367 | `str.capitalize` on ASCII: first character upper, all others lower, same length |
| Functions.SubSentenceStartsAt | utils/functions.py:369-374 | the substitution scan uppercases exactly the first character after a whitespace run that follows `.`, `!` or `?` and keeps every other character and the length |
| Functions.CapitalizeTextCharacters | utils/functions.py:366-376 | `capitalize_text` keeps the length, uppercases the first character and every sentence start, and lowercases everything else |
| Functions.FormatStatus | utils/functions.py:240-241 | the text ends with the raw status and is three characters longer exactly when the member is on do-not-disturb |
| Functions.FormatStatusOfDiscordStatus | utils/functions.py:240-241 | for each of online, offline, idle, dnd and invisible, the text starts with "on " iff the status is dnd, and ends with the raw status |
| Functions.CeilSqrt | utils/functions.py:214 | the integer ceiling of the square root: the least x with x*x >= n |
| Functions.GridFor | utils/functions.py:214 | a non-empty list gets a positive column count that is the ceiling of the square root of the image count |
| Functions.GridCovers | utils/functions.py:214-216 | the grid has room for every image, has no more rows than columns, every image's row index is below the row count, and the cell is the largest side whose columns fit in 2520 pixels |
| Functions.FormatBytes | utils/functions.py:213-232 | the loop's counters place the k-th image at column k mod xbound, row k div xbound, skipping empty entries without freeing their cell |
| Functions.PlacementsInGrid | utils/functions.py:221-232 | every paste's cell lies within the columns and rows and no two pastes share a cell |
| Functions.BoxesInside | utils/functions.py:218-226 | pastes whose cells lie within a grid's columns and rows have their `size`-sided boxes inside the canvas |
| Functions.PastesInsideCanvas | utils/functions.py:218-226 | every pasted image, a cell-sided square at its box `(x * size, y * size)`, lies inside the `xbound * size` by `ybound * size` canvas |
| Functions.PlacementsShape | utils/functions.py:221-232 | each paste is the non-empty image at its index, at the cell the counters reach for that index, in increasing order |
| FishingData.Rarities | files/data/fishing_data.py:34-41 | six rarities with ids 1 to 6 in order and distinct names |
| FishingData.FishingPoles.constructor | files/data/fishing_data.py:46-47 | an empty registry |
| FishingData.FishingPoles.AddPole | files/data/fishing_data.py:49-50 | the key now gives this pole, overwriting any earlier one; a new key joins the insertion order at its end |
| FishingData.FishingPoles.GetPole | files/data/fishing_data.py:52-56 | the stored pole, or the Paper pole (id 0) for a missing key; nothing is inserted |
| FishingData.FishingPoles.GetPoleById | files/data/fishing_data.py:58-64 | the first pole in insertion order with that id, or Paper when none has it |
| FishingData.FishingPoles.AddPolesFromDict | files/data/fishing_data.py:69-71 | the registry is the old one with the dict's pairs stored one after the other in dict order, new keys are appended to the insertion order in first-appearance order, and it stays well formed |
| FishingData.KeysStep | files/data/fishing_data.py:69-71 | the keys of a dict are those of its front and its last key |
| FishingData.LoadedOrderExtends | files/data/fishing_data.py:69-71 | loading keeps the old insertion order as a prefix, and the new order holds exactly the old keys and the dict's keys |
| FishingData.LoadedOrderDistinct | files/data/fishing_data.py:69-71 | loading never lists a key twice in the insertion order, even when the dict repeats a key |
| FishingData.LoadedKeys | files/data/fishing_data.py:69-71 | after loading, a key is present iff it was present before or is a key of the dict |
| FishingData.LoadedUntouched | files/data/fishing_data.py:69-71 | a key the dict does not mention keeps its old value |
| FishingData.LoadedValues | files/data/fishing_data.py:69-71 | with distinct keys, as a Python dict has, every key of the dict maps to its own value |
| FishingData.LoadedFromPairs | files/data/fishing_data.py:69-71 | every key the dict mentions is present and its value is one the dict pairs with that key |
| FishingData.FishCollection.constructor | files/data/fishing_data.py:75-76 | an empty registry |
| FishingData.FishCollection.AddFish | files/data/fishing_data.py:78-79 | the key now gives this fish, overwriting any earlier one |
| FishingData.FishCollection.GetFish | files/data/fishing_data.py:81-83 | the stored fish, or None for a missing key |
| FishingData.FishCollection.GetFishById | files/data/fishing_data.py:85-91 | the first fish in insertion order with that id; None iff no fish has it |
| FishingData.FishCollection.AddFishFromDict | files/data/fishing_data.py:96-98 | the registry is the old one with each dict key stored, in dict order, as the fish built from its attributes; new keys are appended to the insertion order in first-appearance order |
| FishingData.Entries | files/data/fishing_data.py:97-98 | one (key, fish) pair per dict entry, in order, the fish built from that entry's attributes |
| FishingData.LoadedFishAreCommon | files/data/fishing_data.py:96-98 | every fish loaded from the dict is Common, for attributes without a `rarity` key |
| FishingData.FromAttrs | files/data/fishing_data.py:98 | the fish keeps the attributes' id and name and gets rarity Common |
| ImageFunctions.Shrunk | src/cogs/image/functions.py:45-47 | a side halved k times with floor division is never longer than the original |
| ImageFunctions.ShrunkStep | src/cogs/image/functions.py:45-47 | one more halving halves the result of k halvings, so k loop steps give the side divided by 2^k |
| ImageFunctions.FitText | src/cogs/image/functions.py:45-47 | the loop stops, and it has halved both sides the least number of times that brings the width within the limit |
| ImageFunctions.LeastFitUnique | src/cogs/image/functions.py:45-47 | that least number of halvings is unique |
| ImageFunctions.ResizedIffTooWide | src/cogs/image/functions.py:49-50 | the resize happens iff the text was wider than the base, iff at least one halving happened |
| ImageFunctions.CentreOffset | src/cogs/image/functions.py:60 | the offset is non-negative, the text fits to its right, and the two margins differ by at most one |
| ImageFunctions.Compose | src/cogs/image/functions.py:52-62 | the canvas is base width by text height plus base height; the text sits on top inside the canvas and the base directly below it at x = 0 |
| ImageFunctions.AddImages | src/cogs/image/functions.py:38-62 | the caption is the least-halved text that fits, resized iff it was too wide, unchanged otherwise, and laid out above the base |
| ImageFunctions.GifMaker | src/cogs/image/functions.py:71-102 | one output frame per input frame, in order, each with the same caption layout over that frame |
| Downloads.MatchFilter | utils/downloads.py:30-32 | refuses with VideoIsLive iff `live_status` is present and equal to "is_live"; a missing key passes |
| Downloads.JsonData | utils/downloads.py:70-76 | the request body asks for audio only iff the format is "mp3", and carries the URL and the Twitter gif flag |
| Downloads.AudioPostprocessorAsWritten | utils/downloads.py:158-165 | the audio extractor as written names the built-in `format` as its codec |
| Downloads.AudioCodecAsWrittenIsNotFormat | utils/downloads.py:162 | that codec is never the selected format string |
| Downloads.AudioPostprocessor | utils/downloads.py:158-165 | the corrected extractor names the selected format as its codec |
| Downloads.OptionsIntendedFixesCodec | utils/downloads.py:139-168 | the intended options equal the written ones except, in audio mode, the extractor's codec, which becomes the selected format instead of the built-in |
| Downloads.ClipRejectedFirst | utils/downloads.py:79-80 | a YouTube clip is refused with the clip message before any other routing |
| Downloads.InternalRouting | utils/downloads.py:35-45 | `cobalt_checker` accepts exactly TikTok, Shorts, YouTube, Twitter and Reddit URLs; those go to cobalt and every other non-clip URL to yt-dlp |
| Downloads.InvalidWebsiteIff | utils/downloads.py:124-128 | InvalidWebsite comes exactly from a missing or empty match of the combined pattern |
| Downloads.AudioModeIff | utils/downloads.py:139-168 | audio mode iff SoundCloud or "mp3"; it fixes the format to "mp3", asks for `bestaudio/best` and adds the extractor with the built-in `format` as its codec, as written; video mode keeps the format and selects `bestvideo+bestaudio[ext=F]/best` |
| Downloads.YtDlpRecordsSuccess | utils/downloads.py:170-180 | the file name is recorded in the bot's download list exactly when `ydl.download` returns without raising, written file or not; the result is the saved file exactly when the file was also written, and a missing-file error (the `FileNotFoundError` of `discord.File`) when yt-dlp returned without writing it, as over `max_filesize` |
| Downloads.LiveVideoRefused | utils/downloads.py:30-32 | an accepted URL whose metadata says "is_live" ends in VideoIsLive |
| Downloads.CobaltOutcome | utils/downloads.py:82-116 | cobalt fails iff the answer has no URL, the fetch fails, or a Twitter answer has no status; the error carries the capitalised message and id; only a Twitter `stream` switches the format to gif |
| Downloads.CobaltFailureEndsWithId | utils/downloads.py:112-116 | the failure message ends with the error id in back-quotes |
| Downloads.NonPhotosExactly | utils/downloads.py:220-224 | the kept items are exactly the non-photo items |
| Downloads.PickerFilesAreNonPhotos | utils/downloads.py:220-236 | one file per non-photo item in order, named `.gif` for gif items and `.mp4` otherwise |
| Downloads.NonPhotosPrefix | utils/downloads.py:220-237 | a prefix of the picker items never holds more non-photo items than the whole list |
| Downloads.TwoPickerVideosFail | utils/downloads.py:220-237 | as written, a picker answer with two videos ends in NotFound and yields no files |
| Downloads.ManualArgsCookies | utils/downloads.py:186-191 | the command is `yt-dlp URL`, then `--cookies C` only when cookies are given, then the format, output and path flags |
| Downloads.Downloader.constructor | utils/downloads.py:49-76 | the downloader keeps its arguments and its request body is the one `JsonData` builds |
| Downloads.Downloader.YtDlpDownload | utils/downloads.py:122-180 | the result, the new format, the options and the added download record are those of the yt-dlp step |
| Downloads.Downloader.DownloadInternal | utils/downloads.py:78-120 | the result and new state are those of the routing step: clip refusal, cobalt or yt-dlp |
| Downloads.Downloader.CommandLine | utils/downloads.py:186-199 | the command built piece by piece is the argument list joined by single spaces |
| Downloads.ManualResult | utils/downloads.py:194-201 | the result is a file exactly when the run wrote one: then it is `filename.format` under files/downloads, otherwise the missing-file error for that path |
| Downloads.Downloader.ManualDl | utils/downloads.py:182-201 | the command is the space-joined argument list; `filename.format` is recorded whether or not the run wrote it, since its exit status is never checked; the result is the saved file, or the missing-file error when nothing was written under that name |
| Downloads.Downloader.PickerDownloadAsWritten | utils/downloads.py:220-237 | the loop as written: with at most one non-photo item the files are the picker files; with two or more, the second deletion of the notice fails with NotFound |
| Downloads.Downloader.PickerDownload | utils/downloads.py:220-237 | as intended, with the notice deleted once: the files are the picker files of the items |
| Downloads.Downloader.Download | utils/downloads.py:203-242 | Instagram goes to the manual download with the Instagram cookies and ends in its file or its missing-file error; a Twitter picker answer gives the picker loop's outcome as written; everything else goes through the routing step |
| Info.OptionFor | extensions/discord_ext/info.py:67-116 | each option carries the value its kind dispatches on |
| Info.DropdownKinds | extensions/discord_ext/info.py:67-116 | the options always start with Index, Avatar and Reviews |
| Info.DropdownKindsExactly | extensions/discord_ext/info.py:92-116 | Banner is offered iff the fetched user has a banner, Statuses iff the user is a guild member, Bot iff the user is a bot |
| Info.DropdownKindsRanked | extensions/discord_ext/info.py:67-116 | each kind is offered at most once, in the order Index, Avatar, Reviews, Banner, Statuses, Bot |
| Info.UserDropdown.BuildOptions | extensions/discord_ext/info.py:67-116 | the list built by the conditional appends is the dropdown options of the user |
| Info.UserDropdown.constructor | extensions/discord_ext/info.py:49-118 | the appended options are the dropdown options of the user, and the avatar cache starts empty |
| Info.DispatchOfOption | extensions/discord_ext/info.py:289-310 | each option's value reaches its own response, and different options reach different responses |
| Info.DispatchOtherwise | extensions/discord_ext/info.py:300-310 | any value that is no option's value goes to the review path |
| Info.AvatarLinks | extensions/discord_ext/info.py:132-138 | Default first, Avatar next when set, Guild last when a member has a guild avatar, and nothing else |
| Info.AvatarDescription | extensions/discord_ext/info.py:140-142 | the links joined with "and"; a lone Default link stands alone |
| Info.UserDropdown.AvatarResponse | extensions/discord_ext/info.py:123-150 | the first call builds and caches the avatar embed; later calls return the cached one unchanged |
| Info.AvatarResponseStable | extensions/discord_ext/info.py:123-150 | two calls in a row return the same embed |
| Info.Merged | extensions/discord_ext/info.py:558-571 | the computed values override the public flags; public flags without a computed value are kept |
| Info.BadgesAppend | extensions/discord_ext/info.py:575-582 | badges of a split table are the badges of each part in order |
| Info.BadgesExactly | extensions/discord_ext/info.py:575-582 | a text is a badge iff some table entry with that text has a present, true flag |
| Info.GetBadges | extensions/discord_ext/info.py:552-582 | the loop yields the badges of the table against the merged flags, in table order, skipping missing keys |
| Info.IndexOf | extensions/discord_ext/info.py:588 | `list.index`: the first position holding the member |
| Info.JoinPos | extensions/discord_ext/info.py:584-588 | a 1-based position in `1..len(members)` at which the member first appears |
| Info.FormatStatus | extensions/discord_ext/info.py:625-626 | the text ends with the status and is three characters longer exactly for "dnd" |
| Info.FormatStatusReadable | extensions/discord_ext/info.py:625-626 | for each of online, offline, idle, dnd and invisible, the text starts with "on " iff the status is dnd, and ends with the status |
| Info.FormatStatusAgrees | extensions/discord_ext/info.py:625-626 | it agrees with the member status formatter of the helpers |
| Info.TallyBounds | extensions/discord_ext/info.py:943-950 | regular plus animated is the number of emojis; disabled counts never exceed their kind's count |
| Info.EmojiTally | extensions/discord_ext/info.py:943-950 | the counter loop produces the tally of the emoji list |
| Info.EmojiFieldLines | extensions/discord_ext/info.py:952-957 | the field has three lines iff either disabled count is non-zero, two otherwise |
| Info.FormatChoices | extensions/discord_ext/info.py:350-353 | webp, jpeg, jpg, png, and gif iff the asset is animated |
| Info.QualitySizesArePowers | extensions/discord_ext/info.py:329 | the quality sizes are the decimal texts of the powers of two from 16 to 4096 |
| Info.QualityOptions | extensions/discord_ext/info.py:329-332 | nine options whose value is the size and whose label is the size followed by "px" |

## Left out

- Bot.GetPrefix: mention prefixes added by `when_mentioned_or` are not modelled; the result is the list passed to it.
- Bot.GetPrefix: `re.I` matching is modelled as ASCII case folding; Python also folds non-ASCII letters.
- Functions.CapitalizeTextCharacters: ASCII only; `str.capitalize`, `\s` and `upper` on other Unicode characters are not modelled.
- URL regular expressions are uninterpreted predicates (fields of `Downloads.Patterns`); their text differs between the two regex files and is not part of this model.
- Functions.CeilSqrt: `math.ceil(math.sqrt(n))` on floats is modelled as the exact integer ceiling square root.
- Functions.FormatBytes: requires a non-empty list, since the source divides by zero on an empty one and its caller never passes one; opening, resizing and pasting pixels, saving and `resize_to_limit` are not modelled.
- Info.JoinPos: takes the join-time-sorted member list as input, since `sorted` with a datetime key is library behaviour, and requires the member to be in it, as it always is for a guild member.
- `list_poles` and `list_fish` only return the dict and are not modelled; the float fields of poles and fish are carried, never computed on.
- Database, Discord gateway and REST calls, embeds, views, colours, footers and interaction responses are not modelled; fetched rows and fetched users are inputs.
- Logging calls, `TTLCache`, `CooldownMapping`, `asyncio.gather` and `to_thread` are library behaviour; everything is modelled sequentially.
- Image pixel work (`text_to_image`, resizing, pasting, GIF saving) is not modelled; only sizes and positions are.
- `natural_size` and the fishing `cast_function` use floats and randomness and are not modelled.
- Downloads.Downloader.DownloadInternal: the report to the error channel and `log_error` in the cobalt failure path, the byte download of the answer's URL and yt-dlp exceptions other than `ValueError` and VideoIsLive are not modelled; yt-dlp is assumed to let VideoIsLive from the match filter propagate.
- Downloads.Downloader.Download: the second cobalt POST is a separate input; missing `picker` or `type` keys, sending the "Multiple videos detected" notice, sending files, the litterbox fallback and file cleanup are not modelled; the notice's deletion is modelled only as its outcome, success the first time and NotFound on any later time.
- Downloads.Downloader.ManualDl: whether the command-line run wrote `filename.format` is an input; why it did not (expired cookies, a private post, a fallback to another extension) is yt-dlp's behaviour and not modelled.
- FishingData.FishAttrs has no `rarity` field, so the `TypeError` that `Fish(rarity=..., **attrs)` raises for attributes carrying their own rarity is not modelled.
- Downloads.Downloader.YtDlpDownload: every way `ydl.download` can return without writing the file (the `max_filesize` cap, an entry yt-dlp skips) is one outcome, `NotWritten`; which of them happens is yt-dlp's behaviour and not modelled.
- Downloads.Downloader.YtDlpDownload: the options carry the built-in `format` as the audio codec, as written; what yt-dlp does with a codec that is not a string is not modelled.
- Downloads.Downloader.constructor: the default file name is a random token evaluated once; it is an input here; the unused `picker` argument is dropped.
- In the info view, the banner, bot and status responses, the review path, `has_nitro` and `is_owner` (inputs to the badge computation) and the quality and format dropdown callbacks are not modelled.
- USER_FLAGS (the badge table) is not part of this model; the badge functions take it as a parameter.
- Event-listener gates, the launcher, the type aliases and the exception classes are not modelled.

## Findings

| source | as written | input that shows it | evidently intended | confidence | as-written member | corrected member |
|---|---|---|---|---|---|---|
| utils/functions.py:102-104 | the loop compares each status code with the response object itself, which never equals an int | a response with status 404 gets the generic "Something went wrong" message | compare the code with `response.status`, so 400/401/403/404/502 get their specific messages | high; not executed | Functions.ResponseCheckerIgnoresKnownCodes | Functions.ResponseCheckerIntended |
| core/bot.py:149-154 | the 2000-character threshold is checked before the 10 fence characters are added | a 2000-character traceback is sent as a 2010-character message, over Discord's 2000-character limit | count the fence in the threshold | medium; not executed | Bot.LogErrorCanExceedLimit | Bot.LogErrorWithinLimit |
| utils/downloads.py:162 | the extractor's codec is the built-in `format` function, not the selected format | any SoundCloud URL, or the format "mp3" | the codec `self.format`, that is "mp3" | high; not executed | Downloads.AudioCodecAsWrittenIsNotFormat | Downloads.OptionsIntendedFixesCodec |
| utils/downloads.py:237 | the "Multiple videos detected" notice is deleted inside the picker loop, once per non-photo item | a Twitter picker answer with two videos: the second deletion raises NotFound and no file is sent | delete the notice once, after the loop | high; not executed | Downloads.TwoPickerVideosFail | Downloads.Downloader.PickerDownload |
