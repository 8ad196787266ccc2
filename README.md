# Discord to Fluxer migration, modelled in Dafny

This project models the core of a tool that copies a user's Discord profile
and the Discord servers (guilds) they own onto the Fluxer platform. It models:

- the guild migration engine, `ServerMigrator`. It recreates roles, categories
  and channels with their permission overwrites, then emoji, on the
  destination platform. Four tables record which destination id each source
  guild, role, category and channel became.
- the profile migration, `ProfileMigrator.migrate`: the avatar and banner
  upload, the choice of accent colour, and the single update of the text and
  colour fields with a check of what the server reports back.
- token cleaning and the configuration defaults (`utils/config.py`).
- the migration logger: the log and unsupported-feature lists, and the text
  of the saved log (`utils/logger.py`).
- the decision logic of the interactive front end (`main.py`): the Discord
  token check and display name, the choice of owned servers, the per-server
  options and destination, and the loop over the chosen servers.

How the outside world is modelled:

- Both platforms and the image CDN are scripted. Each write call to the
  destination takes the next outcome from a list: a new id, or a failure.
  Each image download takes the next image from a list. Each Discord read of
  a guild's roles, channels or emoji is answered from a map by guild id, and
  a missing id is a read that raises. Every request issued is recorded in
  order.
- Each stage of the guild migration is specified by a pure step function
  over an abstract state, `World`: the requests so far, the outcomes still to
  come, the four id tables and the unsupported-feature notices. The methods
  of the `ServerMigrator` class run the source's loops over its own fields.
  Each is proved to leave exactly the state the step function describes.
  The lemmas in `ServerProperties` then state what those functions do.
- The profile migration follows the same pattern over `ProfileWorld`, with
  the classes `ProfileRemote` and `ProfileMigrator`.
- User input is a `Console` holding the lines the user will type. Reading
  past the last line ends the interaction. Clock readings are `now` and
  `startTime` parameters.

Modules:

- `Common` (common.dfy): Python truthiness, `str.strip`, `str.lower`, `int()`
  and `str()`.
- `Ordering` (ordering.dfy): list comprehensions and a stable `sorted`.
- `Config` (config.dfy).
- `Logger` (logger.dfy).
- `ServerMigration` and `ServerProperties` (server_migrator.dfy,
  server_properties.dfy).
- `ProfileMigration` (profile_migrator.dfy).
- `Orchestration` (orchestrator.dfy).

Where the tool's design description and its code disagree, the model follows
the code. The description speaks of a name-matched partial sync, of mapping
`@everyone` to a destination role and of repositioning roles; the code
drops `@everyone` and never reorders roles. The description counts the roles
created; the code reports the number of roles other than `@everyone`
(migrators/server_migrator.py:173), and so does `MigrateRoles`.

## Model

| member | source | states |
|---|---|---|
| Common.Strip | utils/config.py:10 | the result is the run of the input that starts where the leading stripped characters end; every input character before it and after it is a stripped character; it has no stripped character at either end, and it is the input itself when the input has none at its ends |
| Common.StripIdempotent | utils/config.py:10 | stripping twice is stripping once |
| Common.StripPadded | utils/config.py:10 | stripped characters added at the front and at the back do not change the result |
| Common.StripKeeps | utils/config.py:10 | a non-empty string with no stripped character at either end strips to itself |
| Common.Lower | main.py:134 | lower-casing keeps the length and lower-cases each character in place |
| Common.AssetExtension | migrators/profile_migrator.py:89 | the CDN extension is "gif" exactly when the hash starts with "a_", and "png" otherwise |
| Common.ParseIntOfIntToString | main.py:143 | the model of `int()` reads back every integer written by `str()` |
| Common.DigitsValueOfNatToString | main.py:143 | the decimal digits of a natural number read back as that number |
| Ordering.Keep | main.py:114 | a comprehension with a condition keeps exactly the elements that satisfy it, and nothing else |
| Ordering.SortByAscending | migrators/server_migrator.py:141 | `sorted(key=...)` orders its result by ascending key |
| Ordering.SortByPermutation | migrators/server_migrator.py:141 | the sorted list is a permutation of the input |
| Ordering.SortByStable | migrators/server_migrator.py:141 | for each key, the elements with that key keep their input order, so ties keep input order |
| Config.CleanToken | utils/config.py:7-19 | the cleaned token is never longer than the input and never begins or ends with a single quote |
| Config.CleanTokenKeepsCleanToken | utils/config.py:7-19 | a token with no surrounding whitespace or quotes and no "bearer " prefix comes back unchanged |
| Config.CleanTokenRemovesOnePrefix | utils/config.py:13-14 | a case-insensitive "bearer " prefix is removed once: prefix + rest cleans to rest, even when rest starts with "Bearer " again |
| Config.CleanTokenIgnoresWhitespace | utils/config.py:9-10 | whitespace around a token does not change what it cleans to |
| Config.CleanTokenRemovesPrefixAndGap | utils/config.py:12-14 | the prefix takes the whitespace after it along: prefix, any whitespace and a clean token give that token |
| Config.LoadConfig | utils/config.py:28-39 | the configuration has exactly the two token keys; each holds the parsed entry when present, and "" otherwise or when the file is absent or unreadable |
| Logger.UnsupportedMessage | utils/logger.py:36-38 | the notice starts with "Unsupported: " + feature, and " - " + details follows exactly when details are non-empty |
| Logger.UnsupportedSection | utils/logger.py:50-55 | the UNSUPPORTED FEATURES section is empty exactly when no feature was logged |
| Logger.LinesAppend | utils/logger.py:59-60 | the rendered log lines of two lists are the lines of each, in order |
| Logger.SaveTextExtends | utils/logger.py:42-60 | logging more entries only appends their lines to the saved text |
| Logger.LinesNewlines | utils/logger.py:59-60 | the saved log section holds one newline per entry plus the newlines the entries carry themselves (the headers logged with a leading newline at migrators/server_migrator.py:60, 135, 227, 379 and migrators/profile_migrator.py:33, 52, 69, and a WARN line quoting a multi-line bio, add lines) |
| Logger.LinesCount | utils/logger.py:59-60 | when no entry contains a newline, the saved log has exactly one line per entry |
| Logger.MigrationLogger.constructor | utils/logger.py:10-25 | the log file is "logs/" + the given name, or "migration_" + start time + ".txt"; both lists start empty |
| Logger.MigrationLogger.Log | utils/logger.py:27-31 | one entry "[ts] [level] message" is appended; the feature list is unchanged |
| Logger.MigrationLogger.LogUnsupported | utils/logger.py:34-40 | the notice is appended once to the feature list and once, at level WARN, to the log |
| Logger.MigrationLogger.Save | utils/logger.py:42-60 | the text written is the header, the feature section and every log entry in order |
| Logger.MigrationLogger.FeatureSection | utils/logger.py:50-55 | the loop over the features writes the feature section |
| Logger.MigrationLogger.EntryLines | utils/logger.py:59-60 | the loop over the entries writes each entry followed by a newline, in order |
| ProfileMigration.ChooseColor | migrators/profile_migrator.py:50-79 | no colour without theme colours; the only one when there is one; with two or more, the second exactly when the stripped answer is "2", otherwise the first |
| ProfileMigration.AssetStep | migrators/profile_migrator.py:85-119 | an avatar or banner block calls nothing exactly when the hash is not truthy; otherwise it first downloads from the CDN address of the hash, and then uploads the downloaded image exactly when that image is present and non-empty; it never sends the field update; the banner notice and its WARN line are added exactly when a banner upload raises |
| ProfileMigration.VerificationLines | migrators/profile_migrator.py:152-157 | one verification line per field sent |
| ProfileMigration.PayloadFields | migrators/profile_migrator.py:123-143 | bio, global name and pronouns are sent exactly when the Discord value is truthy and differs from Fluxer's; the colour is sent exactly when one was chosen and differs; fields keep the order bio, global name, pronouns, colour |
| ProfileMigration.PayloadValues | migrators/profile_migrator.py:123-143 | each field is sent with the Discord value, or the chosen colour |
| ProfileMigration.PayloadOfFields | migrators/profile_migrator.py:122-143 | the fields of the update are the wanted fields of the field order |
| ProfileMigration.PayloadOfValues | migrators/profile_migrator.py:122-143 | every entry of the update carries its field's wanted value |
| ProfileMigration.PayloadUnfolds | migrators/profile_migrator.py:122-143 | the update is the bio part, then the name, pronouns and colour parts |
| ProfileMigration.ProfileRunResult | migrators/profile_migrator.py:29-173 | the migration succeeds exactly when there is a Discord user, a Fluxer client and a Fluxer account; without the first two nothing is called |
| ProfileMigration.AssetStepsEffect | migrators/profile_migrator.py:85-119 | the avatar and banner blocks only add calls, none of them the field update; the avatar block adds no notice and no log line; the banner notice and its WARN line are added exactly when the banner upload raises |
| ProfileMigration.AccountRunLog | migrators/profile_migrator.py:146-160 | after the image blocks' lines, the log gains one verification line per field sent when there is something to send and the update answers, and nothing otherwise |
| ProfileMigration.ProfileRunLog | migrators/profile_migrator.py:35-160 | with both clients and a readable account, the log is the image blocks' lines followed by the verification lines of the answered update |
| ProfileMigration.ProfileRunVerifies | migrators/profile_migrator.py:146-157 | when the update is sent and answered, the log ends with one line per field sent, in order, each a warning exactly when the answer does not report the value sent |
| ProfileMigration.AccountRunCalls | migrators/profile_migrator.py:146-149 | after the image blocks, one field-update call with the whole payload is made exactly when the payload is non-empty |
| ProfileMigration.AccountRunFieldUpdate | migrators/profile_migrator.py:146-164 | after the account read there is exactly one field-update call when there is something to send and none otherwise, and it carries the payload |
| ProfileMigration.ProfileRunFieldUpdate | migrators/profile_migrator.py:35-164 | a migration with both clients first reads the Fluxer account, then makes at most one field-update call, carrying the payload for the chosen colour |
| ProfileMigration.EntryLevel | utils/logger.py:30 | a log entry starts with the WARN tag exactly when its level is WARN |
| ProfileMigration.VerificationWarns | migrators/profile_migrator.py:152-157 | each sent field is reported as a warning exactly when the value returned differs from the value sent |
| ProfileMigration.ProfileRemote.GetCurrentUser | migrators/profile_migrator.py:37 | returns the Fluxer account and records the call |
| ProfileMigration.ProfileRemote.Modify | migrators/profile_migrator.py:149 | records the call and answers with the next scripted outcome |
| ProfileMigration.ProfileRemote.Download | migrators/profile_migrator.py:91 | records the download and answers with the next scripted image |
| ProfileMigration.ProfileMigrator.constructor | migrators/profile_migrator.py:10-14 | keeps the Discord user, the client and the logger |
| ProfileMigration.ProfileMigrator.MigrateAsset | migrators/profile_migrator.py:85-119 | the avatar or banner block leaves exactly the calls, scripted outcomes, notices and log of the asset step |
| ProfileMigration.ProfileMigrator.CollectUpdates | migrators/profile_migrator.py:122-143 | the field-by-field filling of `updates` yields the payload |
| ProfileMigration.ProfileMigrator.VerifyUpdates | migrators/profile_migrator.py:152-157 | the verification loop appends one line per field sent, in order |
| ProfileMigration.ProfileMigrator.VerifyUpdate | migrators/profile_migrator.py:153-157 | one field's verification appends its line and nothing else |
| ProfileMigration.ProfileMigrator.Migrate | migrators/profile_migrator.py:27-173 | the calls, notices, log entries (the verification lines included) and result are those of the profile run |
| ServerMigration.IntField | migrators/server_migrator.py:145 | a missing bit set reads as 0; a present one is parsed, and a parse failure raises |
| ServerMigration.Send | migrators/server_migrator.py:154-164 | a destination write is recorded and consumes one scripted outcome |
| ServerMigration.Download | migrators/server_migrator.py:400 | a download is recorded and consumes one scripted image |
| ServerMigration.RunFirst | migrators/server_migrator.py:141 | a proof helper for the loop proof of MigrateLeaves: a run that does not raise on its first item continues with the rest, adding up the counts |
| ServerMigration.OverwriteTarget | migrators/server_migrator.py:193-203 | an overwrite is applied exactly when it targets a role (type 0) that is mapped to a non-empty id, and then to that id |
| ServerMigration.ParentFor | migrators/server_migrator.py:268-270 | a channel's parent is the mapped category exactly when its parent id is truthy and mapped; otherwise it is top level |
| ServerMigration.EmojiExtension | migrators/server_migrator.py:393 | the emoji extension is "gif" exactly when the emoji is animated, "png" otherwise |
| ServerMigration.Remote.constructor | migrators/server_migrator.py:11-14 | the scripted platforms start with no request issued |
| ServerMigration.Remote.Write | migrators/server_migrator.py:154-164 | a destination write is recorded and answered by the next scripted outcome |
| ServerMigration.Remote.DownloadImage | migrators/server_migrator.py:21-30 | a download is recorded and answered by the next scripted image |
| ServerMigration.Remote.Fetch | migrators/server_migrator.py:101-108 | a Discord read is recorded and succeeds exactly when the guild is known |
| ServerMigration.ServerMigrator.constructor | migrators/server_migrator.py:11-19 | the four id tables start empty |
| ServerMigration.ServerMigrator.MigrateRole | migrators/server_migrator.py:142-171 | one role leaves exactly the state of the role step |
| ServerMigration.ServerMigrator.MigrateRoles | migrators/server_migrator.py:133-173 | the role loop leaves the state of the role run over the sorted, filtered roles, and reports the number of roles other than @everyone |
| ServerMigration.ServerMigrator.ApplyOverwrite | migrators/server_migrator.py:193-218 | one overwrite leaves exactly the state of the overwrite step |
| ServerMigration.ServerMigrator.ApplyChannelPermissions | migrators/server_migrator.py:175-218 | the overwrite loop leaves the state of the overwrite run |
| ServerMigration.ServerMigrator.MigrateCategory | migrators/server_migrator.py:234-254 | one category leaves exactly the state of the category step |
| ServerMigration.ServerMigrator.MigrateCategories | migrators/server_migrator.py:231-254 | the first pass leaves the state of the category run |
| ServerMigration.ServerMigrator.CreateLeafChannel | migrators/server_migrator.py:276-297 | creating a leaf records it and applies its overwrites when enabled, and counts it exactly as the model does |
| ServerMigration.ServerMigrator.MigrateLeaf | migrators/server_migrator.py:259-368 | one channel of the second pass leaves the state of the leaf step, never raises, and reports whether it counted |
| ServerMigration.ServerMigrator.MigrateLeaves | migrators/server_migrator.py:257-370 | the second pass never raises and counts the channels the leaf run creates |
| ServerMigration.ServerMigrator.MigrateChannels | migrators/server_migrator.py:220-370 | both channel passes leave the state of the channel run and return its count |
| ServerMigration.ServerMigrator.MigrateEmoji | migrators/server_migrator.py:387-420 | one emoji leaves the state of the emoji step and reports whether it was uploaded |
| ServerMigration.ServerMigrator.MigrateEmojis | migrators/server_migrator.py:372-422 | the emoji loop leaves the state of the emoji run and returns its count |
| ServerMigration.ServerMigrator.ResolveDestination | migrators/server_migrator.py:68-88 | the destination guild is the existing one, or a new one created with the downloaded icon |
| ServerMigration.ServerMigrator.FetchLists | migrators/server_migrator.py:97-108 | the Discord reads match the fetch step |
| ServerMigration.ServerMigrator.MigrateServer | migrators/server_migrator.py:32-131 | `migrate_server` leaves exactly the state of the server run and returns its success |
| ServerProperties.RunIssuesOnly | migrators/server_migrator.py:141 | a loop whose every step issues only requests of one kind issues only those |
| ServerProperties.RunRaisesIff | migrators/server_migrator.py:141 | a loop stops with an error exactly when one of its items raises |
| ServerProperties.RunSendsEach | migrators/server_migrator.py:141 | a loop of steps that each issue one request issues them in order and counts the successes |
| ServerProperties.RunDownloadsEach | migrators/server_migrator.py:387-414 | a loop of download-then-upload steps consumes one image per item, one outcome per non-empty image, and counts the successful uploads |
| ServerProperties.RolesRunEffect | migrators/server_migrator.py:141-171 | readable roles give one create call each, in order, with their fields and defaults; the successes are counted; only the request record and role table change |
| ServerProperties.RoleMapGrowsOnSuccess | migrators/server_migrator.py:163-164 | the role table gains exactly the ids of the roles whose creation succeeded |
| ServerProperties.RoleMapValues | migrators/server_migrator.py:163-164 | each successfully created role is mapped to the id returned for it |
| ServerProperties.RoleMapUntouched | migrators/server_migrator.py:164 | the role table entries of ids outside the roles are unchanged |
| ServerProperties.RolesRaiseIffUnreadable | migrators/server_migrator.py:142-145 | the role loop stops with an error exactly when a role lacks a name or has unparsable permissions |
| ServerProperties.RolesStayInScope | migrators/server_migrator.py:141-171 | the role loop only creates roles named after the roles given, and only maps their ids |
| ServerProperties.RoleOrder | migrators/server_migrator.py:138-141 | the roles are attempted in ascending position, ties in input order, and they are exactly the roles other than @everyone |
| ServerProperties.EveryoneNeverCreated | migrators/server_migrator.py:138 | no role named @everyone is ever created or entered into the role table |
| ServerProperties.CategoriesRunEffect | migrators/server_migrator.py:233-254 | named categories give one type-4 create call each with their position, in order, counted on success, changing only the request record and category table |
| ServerProperties.CategoriesRaiseIffUnnamed | migrators/server_migrator.py:234 | the first pass stops with an error exactly when a category has no name |
| ServerProperties.CategoryOrder | migrators/server_migrator.py:231-233 | the first pass takes exactly the type-4 channels, in ascending position |
| ServerProperties.OverwritesEffect | migrators/server_migrator.py:186-218 | one edit per role overwrite whose role is mapped, in order, with the mapped id, the source bit sets and type 0; failed edits do not stop the rest; nothing else changes |
| ServerProperties.OverwritesRaiseIff | migrators/server_migrator.py:205-206 | applying overwrites raises exactly when a mapped role overwrite has an unparsable bit set |
| ServerProperties.OverwritesOnlyEditMappedRoles | migrators/server_migrator.py:197-215 | applying overwrites only edits this channel's permissions for mapped roles |
| ServerProperties.LeafSkipped | migrators/server_migrator.py:265-368 | a category is skipped silently; stage, thread and other types issue no request and add exactly one notice |
| ServerProperties.LeafCreated | migrators/server_migrator.py:272-353 | text, announcement, voice and forum channels issue one create call with their type, defaults and parent, then only edits for mapped roles; forum adds its notice even when creation fails; the channel is counted exactly when created and its overwrites parse |
| ServerProperties.LeafCreatedRequests | migrators/server_migrator.py:276-292 | a created kind issues its create call first and then only permission edits |
| ServerProperties.LeafCreatedState | migrators/server_migrator.py:286-294 | the channel table gains the new channel exactly when its creation succeeds; the role, category and guild tables are unchanged; a forum channel adds its notice |
| ServerProperties.CreateLeafEffect | migrators/server_migrator.py:286-297 | creating a leaf maps it on success, and counts it exactly when it is created and its overwrites parse |
| ServerProperties.EmojisRunEffect | migrators/server_migrator.py:387-414 | the emoji loop never raises, consumes one image per emoji and one outcome per non-empty image, and counts the successful uploads |
| ServerProperties.EmojiStepRequests | migrators/server_migrator.py:393-411 | each emoji is downloaded from its CDN URL, as a GIF exactly when animated, and uploaded only when the download gave a non-empty image |
| ServerProperties.StagesInOrder | migrators/server_migrator.py:110-122 | all role requests come before all channel requests, which come before all emoji requests |
| ServerProperties.StagePhases | migrators/server_migrator.py:110-122 | the stages split the requests into a role phase, a channel phase and an emoji phase |
| ServerProperties.StagesKeepGuildMap | migrators/server_migrator.py:110-122 | the stages never change the guild table |
| ServerProperties.ServerRunGuild | migrators/server_migrator.py:62-91 | without both clients nothing happens and the result is false; otherwise the source guild is mapped to the existing or created guild, and a failed creation fails with the guild table unchanged |
| ServerProperties.FetchSourceLists | migrators/server_migrator.py:97-108 | roles are read when enabled, channels when channels or permissions are, emoji when enabled, in that order; the lists are available exactly when every read succeeds |
| ServerProperties.FetchSourceEffect | migrators/server_migrator.py:97-108 | the reads only add Discord reads to the record, and a kind not read is an empty list |
| ServerProperties.AfterResolution | migrators/server_migrator.py:91-122 | no guild is created after the destination is known |
| ServerProperties.ServerRunGuildCreation | migrators/server_migrator.py:68-88 | with an existing guild no guild is created; otherwise the run starts with the icon download when there is an icon, then the guild creation |
| ServerProperties.ForumTopicNullAsWritten | migrators/server_migrator.py:332 | as written, a JSON null forum topic gives "Converted from forum. None" |
| ServerProperties.ForumTopicNullCorrected | migrators/server_migrator.py:332 | in the corrected topic a null topic reads like a missing one |
| ServerProperties.ForumLeafNullTopic | migrators/server_migrator.py:328-340 | a forum whose topic is JSON null is converted to a text channel whose topic is "Converted from forum. None" |
| ServerProperties.ForumTopicOfText | migrators/server_migrator.py:332 | a forum topic that ends in a non-space gives the marker followed by the topic, as written and corrected alike |
| Orchestration.Console.Input | main.py:134 | `input()` returns the next line typed, or nothing at the end of input |
| Orchestration.TokenLength | main.py:35-42 | an accepted token is at least 20 characters after cleaning, and a token typed shorter than 20 is always rejected |
| Orchestration.IndexOf | main.py:52-55 | a specification helper for DisplayNameRoundTrip: finds the first '#' in a display name, from which the username is read back |
| Orchestration.DisplayNameRoundTrip | main.py:49-55 | the display name is username#discriminator unless the discriminator is missing, empty or "0"; the username and the discriminator shown are read back from it |
| Orchestration.OwnedGuilds | main.py:113-114 | a guild is offered exactly when it is listed and the user owns it, in listed order |
| Orchestration.Split | main.py:143 | `split(",")` gives at least one piece and no piece contains a comma |
| Orchestration.JoinSplit | main.py:143 | joining the pieces of a split gives back the answer |
| Orchestration.SplitJoin | main.py:143 | splitting a join of comma-free pieces gives back the pieces |
| Orchestration.ReadAll | main.py:143 | the pieces are read exactly when every piece parses, and each value is its piece's |
| Orchestration.Picks | main.py:144 | every guild picked is owned |
| Orchestration.PicksAreInRangeIndices | main.py:144 | the picks are the owned guilds at the in-range indices, in typed order with repeats kept, and out-of-range indices are dropped |
| Orchestration.ServerChoice | main.py:134-151 | an accepted answer selects only owned guilds |
| Orchestration.ServerChoiceEmpty | main.py:134-151 | with an owned guild, "cancel" is the only answer that selects nothing, and "all" selects every owned guild |
| Orchestration.FirstAccepted | main.py:133-151 | a prompt asked again consumes answers up to the first accepted one, which it returns, and ends only when no answer is accepted |
| Orchestration.SelectedServersOwned | main.py:107-151 | every server selected is listed and owned by the user |
| Orchestration.OptionsMapEnabled | main.py:311-315 | each guild migration stage runs exactly when its option is chosen |
| Orchestration.OptionsChosen | main.py:167-220 | the options prompt consumes a prefix of the input |
| Orchestration.CustomOptionsRead | main.py:177-213 | the custom selection consumes a prefix of the input, is kept only when confirmed, and never enables permissions without channels |
| Orchestration.OptionsChosenMeaning | main.py:167-220 | options are chosen only through "1" (all four on) or a confirmed "2"; permissions never go without channels; anything else gives none |
| Orchestration.TargetChosen | main.py:239-290 | the destination prompt consumes a prefix of the input |
| Orchestration.GuildChoice | main.py:263-278 | "cancel" in any case means a new guild; otherwise only the number of a listed guild is accepted, giving its id |
| Orchestration.GuildPicked | main.py:262-278 | the existing-guild prompt yields a new guild or the id of a listed guild |
| Orchestration.TargetChosenMeaning | main.py:239-290 | the destination is a new guild, SKIP or a listed guild; "2" with no Fluxer guilds or a failed read means a new guild; SKIP comes only from "3" or an invalid answer, unless a listed guild has that id |
| Orchestration.TurnOf | main.py:298-309 | a server is migrated only with options and a destination other than SKIP |
| Orchestration.ServersRun | main.py:296-315 | at most one migration per server, each for one of the servers and never to SKIP |
| Orchestration.ServersRunStep | main.py:296-315 | the first server's answers decide whether the run ends, skips it, or migrates it and goes on |
| Orchestration.ServersRunApplies | main.py:296-315 | the platforms after the loop are exactly the migrations made, applied in order |
| Orchestration.ServersRunMigrations | main.py:296-315 | every migration goes to a new or a listed guild, with options that never ask for permissions without channels |
| Orchestration.ServersRunExtends | main.py:296-315 | the loop only adds requests to those already issued |
| Orchestration.ServerRunExtends | migrators/server_migrator.py:32-131 | one guild migration only adds requests to those already issued |
| Orchestration.ServersRunNotReady | main.py:294 | without both clients the loop changes nothing on the platforms |
| Orchestration.Orchestrator.constructor | main.py:25-30 | no client, no user, no guild, and an empty logger |
| Orchestration.Orchestrator.SetupDiscord | main.py:32-76 | a rejected token changes nothing; otherwise the client is set, and the user and the guild list are each recorded with a log line when their read answered |
| Orchestration.Orchestrator.SetupFluxer | main.py:78-100 | the client is set whether or not the connection test succeeds; one line is logged, naming the account, or an ERROR line when the account read raised |
| Orchestration.Orchestrator.ConnectDiscord | main.py:44-61 | connecting records the user with a line naming it when the user read answers, then the guild list with a line counting it when that read answers too; a read that raises ends the connection as failed |
| Orchestration.Orchestrator.SelectServers | main.py:107-151 | `select_servers` returns the servers of the selection model, logs the warning exactly when no server is owned, and consumes the answers read |
| Orchestration.Orchestrator.SelectMigrationOptions | main.py:153-220 | returns the options of the options prompt and consumes its answers |
| Orchestration.Orchestrator.SelectCustomOptions | main.py:177-213 | the custom prompts return the custom selection and consume its answers |
| Orchestration.Orchestrator.SelectTarget | main.py:222-290 | returns the destination of the destination prompt and consumes its answers |
| Orchestration.Orchestrator.MigrateNext | main.py:298-315 | one server: its prompts, then `migrate_server` exactly when it is not skipped |
| Orchestration.Orchestrator.MigrateServers | main.py:292-317 | the loop leaves the platforms, the input and the interruption flag exactly as the servers run describes |

## Left out

- The HTTP clients, sessions and authentication headers are left out. Their calls are scripted outcomes: an id or a failure, an image or nothing, a list or a read that raises.
- `_download_image` is a scripted `Option` of bytes, because it is network I/O.
- `asyncio.sleep` pacing is left out because it has no effect on state.
- Progress and failure log lines of the two migrators (`Creating role: ...`, `✓ ...`, `Failed to ...`) are left out, as are console `print`s and `traceback.print_exc()`. The model keeps the unsupported notices of both migrators, and in the profile migration the log itself: the refused banner's WARN line and the verification lines.
- Timestamps and the clock are parameters.
- The log file write and `mkdir` are left out; `Save` returns the text that would be written.
- `load_config`'s file read is left out. The file arrives already classified as absent, unreadable or parsed.
- `SetupFluxer` does not keep the cleaned token, because the client it builds is not modelled. The `ValueError` it raises after the ERROR line is the `ConnectionFailed` outcome.
- `run()`'s main menu and `migrate_profile`'s wiring are left out. The server menu entries are commented out (main.py:383-393), so `ServerMigrator` is modelled directly as a library component.
- Python's `int()` is read as an optional ASCII sign followed by ASCII digits, after stripping. Underscores and non-ASCII digits are not modelled.
- `str.lower()` is modelled on ASCII letters only, and `str.strip()` on the ASCII whitespace set.
- JSON values of an unexpected type are not modelled: a field read is either absent or of the expected type. The one exception is the forum topic, which may be null.
- A missing `id` key is not modelled: ids are mandatory fields of the records.
- ServerMigration.Guild: `name` is a mandatory field. The source reads `discord_guild["name"]` before its `try` (migrators/server_migrator.py:57), so a guild without a name raises out of `migrate_server` and ends `migrate_servers`; the model does not have that path.
- Colour hex formatting in progress lines is left out, because those lines are not modelled.
- Exception message texts are left out; an escaping exception is a `raised` flag or a false result.
- Name-matched partial sync, mapping `@everyone` to a destination role and role repositioning are not in this code, so they are not modelled.
- Orchestration.Orchestrator.MigrateServers: the Fluxer guild list is read once (`listed`) and every existing-guild prompt uses it. The source reads it again for each server.
- End of input: `input()` raising at the end of input in main.py is modelled as `EndOfInput`, which ends the prompts and the server loop.
- ProfileMigration.ProfileRunResult: the colour answer is a plain string, so an end of input at the colour prompt (migrators/profile_migrator.py:73), which raises inside the `try` and makes the migration log an ERROR and return False (migrators/profile_migrator.py:169-173), is not modelled.

## Findings

| source | as written | input that shows it | evidently intended | confidence | as-written member | corrected member |
|---|---|---|---|---|---|---|
| migrators/server_migrator.py:332 | the forum topic is `f"Converted from forum. {channel.get('topic', '')}".strip()`; a topic present as JSON null renders as the text "None" | a forum channel whose `topic` is null gives the topic "Converted from forum. None" | a null topic reads like a missing one, giving "Converted from forum." | not executed | ServerProperties.ForumTopicNullAsWritten | ServerProperties.ForumTopicNullCorrected |

The channel migration follows the code as written: `LeafSpec` builds a
forum's topic with `ForumTopicAsWritten`, and `ForumLeafNullTopic` shows the
"None" text reaching the created channel. `ForumTopic` is the corrected
definition, proved beside it.
