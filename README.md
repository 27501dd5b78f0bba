# knave-bot `/karma`: a Dafny model

knave-bot is a Slack bot whose `/karma` slash command keeps a karma total for
each user of a team. The command text is split into words and dispatched on the first
word:
- `help` shows the help;
- `me` shows the caller's total and daily usage;
- `status @user` shows anyone's total;
- `++ @user [n]` gives karma and `-- @user [n]` takes it away;
- `top [n]` lists the best users.

Two aliases are tried before the command falls back to help:
- `@user cmd …` becomes `cmd user …`;
- `+n @user` and `-n @user` become `++ @user n` and `-- @user |n|`.

A single `++` or `--` moves at most 5 karma. It is refused when the target's
recorded usage for the day leaves less than the amount of the daily limit
of 25; the usage that is then recorded is the caller's (see below).
Replies carry a sentence from a Shakespearean insult or compliment
generator. The `me` and `status` replies carry a compliment for a positive
total, an insult for a negative one and nothing for zero. A `++` reply
always carries a compliment and a `--` reply an insult, whatever the new
total.

The project models the current processor and two earlier revisions of it:

| module | file | what it models |
|---|---|---|
| `Results` | wrappers.dfy | `Option` and `Result` |
| `Text` | text.dfy | the Go library calls the processor relies on: `strings.Fields`, `strconv.Atoi`, `strconv.Itoa`, `%v` interpolation, `strings.Builder` |
| `Slack` | slack.dfy | the Slack payload and response types, the response factories, and `IsSlackUser` with its two regular expressions written out as predicates |
| `OldSlack` | oldslack.dfy | `IsSlackUser` of the two earlier revisions, whose mention pattern also matches any text up to a `>` |
| `Shakespeare` | shakespeare.dfy | `FormulaGenerator`: prefix, one random word per column, postfix |
| `KarmaConfig` | config.dfy | the sub-command keywords, the command set and `ProcConfig`/`DefaultConfig` |
| `KarmaStore` | store.dfy | the karma and daily-usage stores the processor is given, as one object with a value view `StoreState` |
| `KarmaMessages` | messages.dfy | the help response, the fixed messages, the message templates and the salutation |
| `Karma` | processor.dfy | the current `SlackProcessor` |
| `SqliteKarma` | legacy.dfy | the earlier `SQLiteProcessor` (`src/karma`) |
| `KdbKarma` | kdb.dfy | the earliest `KdbProcessor` and its `KarmaDB` (`main`) |

Each handler of a processor is specified by a function:
- it maps the store's state before the call, the request, the generators
  and the request's environment (`Env`) to the reply and the new state;
- `Env` holds the date and the random picks of the generators;
- the processor class's methods are proved to compute exactly that function.

The properties the system promises are lemmas about those functions:
- text with no words gets the help;
- only `++` and `--` write;
- a write happens only after all validation has passed;
- giving and then taking back the same amount restores every total;
- the reply texts determine the totals they report;
- `top` shows one line per ranked user;
- printing a number and parsing it back is the identity;
- a mention the bot writes resolves back to the user it names.

Three behaviours of the code are modelled as written:
- The daily-limit check of `++` and `--` reads the *target's* usage row,
  while the usage that is then recorded is the *caller's* row
  (karma/processor.go:311 and 325, 366 and 380).
  `Karma.AddThenSubtractRestores` shows the consequence: a caller's second
  exchange is checked against a row the first one did not change.
- The earliest revision credits the target token exactly as typed
  (main/karma_processor.go:60), so `++ <@U1>` credits the row `"<@U1>"`
  rather than `U1`; `KdbKarma.MentionCreditsRawToken` states it.
- The two earlier revisions resolve users with the pattern
  `<@(U[A-Z0-9]+)|.*>` (src/slack/slack.go:54, main/slack.go:48). Its
  second branch matches any text up to a `>` and captures nothing, so a
  token such as `foo>` is a user with the empty id. `++ foo> 2` then passes
  the self check: the earlier revision credits the empty id
  (`SqliteKarma.ClosedTokenCreditsEmpty`), the earliest the row `foo>`
  (`KdbKarma.ClosedTokenCreditsToken`).

## Model

| member | source | states |
|---|---|---|
| Slack.NewAttachments | slack/slack.go:59-65 | no attachment exactly for the empty string; otherwise one attachment carrying the text |
| Slack.ChannelResponse | slack/slack.go:68-73 | a channel-wide reply with the message and no attachment |
| Slack.ChannelAttachmentsResponse | slack/slack.go:76-82 | a channel-wide reply with the message and the attachment made from `att` |
| Slack.DirectResponse | slack/slack.go:85-91 | a reply shown only to the caller, with the attachment made from `att` |
| Slack.ErrorResponse | slack/slack.go:94-99 | a reply shown only to the caller, without attachment |
| Slack.DirectWithoutAttachment | slack/slack.go:85-99 | a direct reply with empty attachment text is the error reply, and differs from the channel reply |
| Slack.IsSlackUser | slack/slack.go:101-114 | a user is found exactly when `U[A-Z0-9]+` occurs; a decorated mention is replaced by its captured id, otherwise the token is returned unchanged |
| Slack.MentionHasCanonical | slack/slack.go:101-102 | every string the mention pattern matches also matches the id pattern |
| Slack.HasMentionSpans | slack/slack.go:102 | the mention test holds exactly when some span of the text matches `<@(U[A-Z0-9]+).*>` |
| Slack.CanonicalResolvesToItself | slack/slack.go:109-110 | a bare canonical id resolves to itself, so resolving is idempotent on ids |
| Slack.MentionResolves | slack/slack.go:102-107 | `<@id…>` with a single-line display part resolves to `id` |
| Slack.MentionRoundTrip | slack/slack.go:104-108 | the mention `<@id>` resolves back to `id`, and resolving the result again changes nothing |
| Slack.NoUNotAUser | slack/slack.go:109-113 | a token without a capital U is not a user |
| Slack.MentionExample | karma/processor_test.go:188-190 | `<@USER>` is the mention of the canonical id `USER` |
| Slack.DecoratedExample | slack/slack.go:104 | the mention of `UAWQFTRT7` decorated with the display name `roland.kluge` resolves to `UAWQFTRT7` |
| Slack.BareExamples | karma/processor_test.go:138-148 | `U12345` and `<@U12345>` both resolve to `U12345` |
| Slack.RejectedExamples | karma/processor_test.go:139 | the plain names `simon` and `yikes` are not users |
| Text.Fields | karma/processor.go:78 | `strings.Fields`: every field is a non-empty run of non-space characters, and there are none exactly when the text is all white space |
| Text.FieldsOfJoin | karma/processor.go:78 | splitting words joined by single spaces gives back the words |
| Text.FieldsOfWord | karma/processor.go:78 | a word followed by nothing or by a space is the first field |
| Text.FieldsOfTwoWords | karma/processor.go:78 | `a b` splits into `[a, b]` |
| Text.Itoa | karma/processor.go:139 | the printed number is non-empty, digits after an optional sign, and signed exactly when negative |
| Text.Atoi | karma/processor.go:180-192 | `strconv.Atoi` answers a value exactly for an optional sign followed by ASCII digits; a negative value was written with `-` |
| Text.AtoiOfItoa | karma/processor.go:130-139 | printing a number and parsing it back gives the number |
| Text.ItoaInjective | karma/messages.go:88-90 | different numbers print differently |
| Text.ItoaPrefix | karma/messages.go:80-85 | a printed number followed by non-digit text determines both the number and the text |
| Text.PlusSignExample | karma/processor.go:130-139 | `Atoi` accepts `+3`, which `Itoa` never writes |
| Text.InterpolateNewlines | karma/processor.go:275-278 | interpolating a number adds no line break |
| Text.InterpolateInjective | karma/messages.go:80-95 | a template with a number followed by non-digit text determines the number and the rest |
| Text.Builder.constructor | karma/processor.go:274 | a new builder is empty |
| Text.Builder.WriteString | karma/messages.go:88-95 | writing appends to the end of the buffer and keeps the rest |
| OldSlack.MatchAt | src/slack/slack.go:54 | where the first branch matches it wins, capturing the whole run of id characters; otherwise a match runs to the last `>` of the line and captures nothing |
| OldSlack.IsSlackUser | src/slack/slack.go:57-66 | a user exactly when a `U[A-Z0-9]+` or a `>` occurs; a matching token is replaced match by match with the captures, otherwise it is returned unchanged |
| OldSlack.MatchesExactly | src/slack/slack.go:58 | the pattern matches exactly when a `>` occurs or `<@U` opens an id |
| OldSlack.ClosedTokenResolvesToEmpty | src/slack/slack.go:54-60 | a one-line token that does not open with `<` and ends with `>` is a user with the empty id |
| OldSlack.ClosedTokenExample | src/slack/slack.go:54-60 | `foo>` is a user with the empty id |
| OldSlack.MentionResolves | src/slack/slack.go:56-60 | a decorated mention `<@id display>` resolves to its id |
| OldSlack.TaggedToken | src/slack/slack.go:54-60 | an opening id followed by one line closed by `>` resolves to the id |
| OldSlack.OpeningMatch | src/slack/slack.go:59 | an id match at the front contributes the id, and the scan resumes after it |
| OldSlack.ClosingTail | src/slack/slack.go:59 | a one-line text that ends with `>` and opens no mention is removed whole |
| OldSlack.MentionRoundTrip | src/slack/slack.go:56-60 | the mention `<@id>` resolves to id |
| OldSlack.CanonicalResolvesToItself | src/slack/slack.go:61-63 | a bare canonical id resolves to itself |
| OldSlack.DiffersFromCurrent | src/slack/slack.go:54 | `foo>` is a user with the empty id here and not a user for the current pattern |
| Shakespeare.New | shakespeare/generator.go:56-62 | the generator holds the prefix, the postfix and the columns as given, a nil column list kept apart from an empty one |
| Shakespeare.Picked | shakespeare/generator.go:37-43 | one word per column, the word at that column's random index, in column order |
| Shakespeare.FormulaShape | shakespeare/generator.go:30-53 | the output is the non-empty prefix and the picked words joined by the delimiter, then the postfix after a delimiter when there is a prefix or the columns are non-nil |
| Shakespeare.WrittenIsJoin | shakespeare/generator.go:37-43 | writing a delimiter before every piece but the very first is joining the pieces |
| Shakespeare.WriteColumns | shakespeare/generator.go:37-43 | the loop appends each column's picked word, with a delimiter before each one except the first when there is no prefix |
| Shakespeare.Generate | shakespeare/generator.go:30-53 | `Generate(delim)` returns the formula for the given picks |
| Shakespeare.Sentence | shakespeare/generator.go:25-27 | `Sentence` is the formula with single spaces |
| Shakespeare.WithoutColumns | shakespeare/generator_test.go:18-59 | with nil columns the output is the prefix, the postfix, or both separated by the delimiter |
| Shakespeare.EmptyColumnsLeadingDelimiter | shakespeare/generator.go:45-50 | an empty but non-nil column list without a prefix puts a delimiter before the postfix |
| Shakespeare.DelimiterBetweenPieces | shakespeare/generator.go:38-40 | without a prefix the output starts with the first column's word, not with a delimiter |
| Shakespeare.JoinStartsWithFirst | shakespeare/generator.go:38-40 | joined pieces start with the first piece |
| Shakespeare.ThreeColumns | shakespeare/generator_test.go:47-51 | with three columns the output is the three picked words after the optional prefix, then the optional postfix |
| Shakespeare.BareExample | shakespeare/generator_test.go:47-51 | columns `a1`, `b1`, `c1` without prefix or postfix give `a1 b1 c1` for every pick |
| Shakespeare.FramedExample | shakespeare/generator_test.go:74-80 | with prefix `Start` and postfix `End` the output is `Start a1 b1 c1 End` for every pick |
| KarmaConfig.Keyword | karma/processor_config.go:6-13 | every command's keyword is in the command set |
| KarmaConfig.ParseCommand | karma/processor_config.go:16-23 | a word selects a command exactly when it is in the set, and then the command's keyword is that word |
| KarmaConfig.KeywordRoundTrip | karma/processor_config.go:6-23 | each keyword selects its own command |
| KarmaConfig.KeywordInjective | karma/processor_config.go:6-13 | the six keywords are pairwise distinct |
| KarmaConfig.CommandsAreTheKeywords | karma/processor_config.go:16-23 | the command set holds exactly the keywords |
| KarmaConfig.SixCommands | karma/processor_config.go:16-23 | the command set has six members |
| KarmaConfig.DefaultConfigCoherent | karma/processor_config.go:38-43 | the defaults are 5, 25, 3 and 10; they are positive, and each cap lies within the other |
| KarmaConfig.ProcessorLimitsAreDefaults | karma/processor.go:34-44 | the limits the processor declares equal `DefaultConfig` |
| KarmaStore.AddKarma | karma/dao.go:45-61 | the upsert moves one user's total by delta; an absent row counts as 0, and every other total and table is unchanged |
| KarmaStore.AddUsage | karma/daily_dao.go:42-58 | the upsert moves one (user, day) usage by n; an absent row counts as 0, and everything else is unchanged |
| KarmaStore.AddKarmaInverse | karma/dao.go:45-61 | adding and then removing the same delta restores every total |
| KarmaStore.AddKarmaAddUsageCommute | karma/dao.go:45-61 | updates of the karma table and of the usage table commute |
| KarmaStore.FirstRows | karma/processor.go:263 | the top query answers a prefix of the ranking, of length `min(n, size)` |
| KarmaStore.Store.constructor | karma/dao.go:13-18 | the store starts with the given tables |
| KarmaStore.Store.GetKarma | karma/dao.go:14 | a failing call is an error; otherwise the stored total, with an absent row read as 0 |
| KarmaStore.Store.UpdateKarma | karma/dao.go:15 | a failing call is an error and changes nothing; otherwise the total moves by delta and the new total is answered |
| KarmaStore.Store.GetDaily | karma/daily_dao.go:12 | a failing call is an error; otherwise the day's usage, with an absent row read as 0 |
| KarmaStore.Store.UpdateDaily | karma/daily_dao.go:13 | a failing call is an error and changes nothing; otherwise the usage moves by n and the new usage is answered |
| KarmaStore.Store.Top | karma/processor.go:263-266 | a failing call is an error; otherwise the first n rows of the ranking |
| KarmaMessages.Example | karma/messages.go:12-17 | each sub-command's example is `/karma ` followed by its keyword |
| KarmaMessages.ResponseHelp | karma/messages.go:21-63 | the help is shown only to the caller, without text, with one attachment of six short fields titled by the examples of me, status, ++, --, top and help |
| KarmaMessages.HelpListsEveryCommandOnce | karma/messages.go:21-63 | every sub-command appears in the help, and none twice |
| KarmaMessages.MsgOverDailyLimitInjective | karma/messages.go:80-85 | the over-limit message determines the limit, the usage and the remainder |
| KarmaMessages.StatusLineRestatesKarma | karma/messages.go:88-90 | the status line starts with the user's mention, shows a sign exactly for negative karma, and equal lines mean equal totals |
| KarmaMessages.UserStatus | karma/messages.go:88-90 | appends `<@id> has k karma.` and keeps what was written before |
| KarmaMessages.DailyLineInjective | karma/messages.go:93-95 | the daily line determines the usage and the remainder |
| KarmaMessages.MeLinesInjective | karma/processor.go:207-226 | the two lines of `me` determine the total, the usage and the remainder |
| KarmaMessages.UserDailyLimit | karma/messages.go:93-95 | appends the usage and the remainder, keeping what was written before |
| KarmaMessages.SalutationText | karma/messages.go:98-108 | a compliment for positive karma, nothing for zero, an insult for negative karma |
| KarmaMessages.SalutationConsultsOneGenerator | karma/messages.go:98-108 | the salutation depends only on the generator its sign selects, and on that generator's picks |
| KarmaMessages.SalutationBySign | karma/messages.go:98-108 | the salutation depends on the sign of k alone |
| Karma.Abs | karma/processor.go:47-52 | the result is non-negative and equals x or -x |
| Karma.ParseArg | karma/processor.go:172-178 | a word exactly when the index is in range, and then the word at that index |
| Karma.ParseArgInt | karma/processor.go:180-192 | true exactly when the word exists and is a decimal, and then its value; otherwise the default |
| Karma.ParseArgUser | karma/processor.go:194-201 | a user exactly when the word exists and holds an id, and then the id `IsSlackUser` gives |
| Karma.UserCmdAlias | karma/processor.go:154-170 | `@user cmd rest` becomes `cmd user rest` whenever there are two words and the first is a user; otherwise the words are unchanged |
| Karma.AddSubCmdAlias | karma/processor.go:125-151 | `n x rest` with n a non-zero number becomes `++ x m rest` or `-- x m rest` by sign, m being the magnitude of n; otherwise the words are unchanged |
| Karma.ShorthandAmount | karma/processor.go:125-151 | the amount the shorthand writes reads back as the magnitude of the number, and the new first word is a command |
| Karma.Dispatch | karma/processor.go:73-98 | whatever is dispatched starts with a command; blank text is never dispatched; words are dispatched as written when they start with a command, else after the user-first alias when that gives a command, else after the shorthand applied to it when that gives one |
| Karma.MeTextInjective | karma/processor.go:207-226 | the `me` text determines the total and the usage |
| Karma.TopCount | karma/processor.go:252-261 | 3 when the argument is missing, not a number or not positive; the argument when it is 1..10; 10 above that |
| Karma.WriteRows | karma/processor.go:277-279 | the loop appends one line per user, ranked from 1, after what was written before |
| Karma.Amount | karma/processor.go:299 | the third word's value when it is a decimal, else 1 |
| Karma.AddVerdict | karma/processor.go:285-308 | each refusal `++` gives comes with its message: no target, not a user, oneself, and for another user a zero, a negative or an over-5 amount; it proceeds exactly when all checks pass, with the resolved target and the amount |
| Karma.SubVerdict | karma/processor.go:339-363 | the same ladder for `--`, each refusal with its message: a direct reply for no target, not a user, a zero or a negative amount; an error reply for oneself and for an over-5 amount |
| Karma.BlankTextGetsHelp | karma/processor.go:74-81 | empty or all-space text gets the help and leaves the store alone |
| Karma.HelpIgnoresTrailingWords | karma/processor.go:102-103 | `help` answers the help whatever follows, without writing |
| Karma.UnrecognisedGetsHelp | karma/processor.go:83-97 | words that start with no keyword as written, after the user-first alias or after the shorthand get the help, without writing |
| Karma.DecimalIsNoKeyword | karma/processor.go:83-95 | a number is never a keyword, so only the shorthand alias can dispatch it |
| Karma.UserFirstThenShorthand | karma/processor.go:87-95 | `<@id> n rest` is turned first into `n id rest`, then into `++ id m rest` or `-- id m rest`, m being the magnitude of n |
| Karma.UserFirstDispatch | karma/processor.go:87-90 | `<@id> cmd rest` with a command second is dispatched as `cmd id rest` |
| Karma.ShorthandExample | karma/processor.go:124 | `<@USER> +3` dispatches as `++ USER 3` |
| Karma.ReadOnlyCommands | karma/processor.go:100-122 | `help`, `me`, `status` and `top` leave the store unchanged |
| Karma.OnlyExchangesWrite | karma/processor.go:73-122 | a request that changes the store was dispatched to `++` or `--` |
| Karma.AddWritesOnlyWhenAllowed | karma/processor.go:284-329 | `++` writes only for a user other than the caller, an amount of 1..5, and room under the target's daily limit, with the usage read and the karma write both working |
| Karma.SubWritesOnlyWhenAllowed | karma/processor.go:338-384 | the same for `--` |
| Karma.OverDailyLimitRefused | karma/processor.go:311-318 | an amount above what remains of the target's daily limit is refused with the limit, the usage and the remainder, without writing |
| Karma.ExchangeWrites | karma/processor.go:310-335 | when the karma write fails nothing changes; when only the usage write fails the karma change stays; when both succeed the target moves by the change, the caller's usage by the amount, and the channel text reports the new total |
| Karma.AddThenSubtractRestores | karma/processor.go:284-391 | with a working store and room under the limit, `++` then `--` of the same amount both succeed and restore every total, and the caller's usage grows by twice the amount |
| Karma.ExchangeThenReverse | karma/processor.go:310-329 | an exchange followed by its reverse restores every total and adds twice the amount to the caller's usage |
| Karma.ExchangeTouchesOnlyTarget | karma/processor.go:321 | an exchange changes no total but the target's |
| Karma.TopHeaderNewlines | karma/processor.go:275-276 | the heading of `top` holds two line breaks |
| Karma.RowNewlines | karma/processor.go:278 | a ranking line holds exactly one line break when the user name has none |
| Karma.RowsNewlines | karma/processor.go:277-279 | the ranking adds one line break per user |
| Karma.TopListsRankedUsers | karma/processor.go:251-282 | with a non-empty ranking, `top` answers the channel with the heading and one line for each of `min(count, size)` users |
| Karma.TopWithoutRanking | karma/processor.go:263-272 | a failing query is passed on; an empty ranking gets a direct apology without attachment |
| Karma.TopReplyShape | karma/processor.go:274-281 | with a ranking, the reply is the heading sized to the rows shown, those rows, and a compliment |
| Karma.CleanRows | karma/processor.go:263 | the rows shown are rows of the ranking |
| Karma.HeaderedRanking | karma/processor.go:274-281 | the ranking reply is shown to the channel with two heading line breaks plus one per user |
| Karma.RankingLines | karma/processor.go:277-281 | after any heading, the ranking reply adds one line break per user |
| Karma.MeTextDeterminesTotals | karma/processor.go:207-226 | equal `me` texts mean equal totals and equal usage |
| Karma.StatusTextDeterminesTotal | karma/processor.go:228-249 | equal `status` texts mean equal totals for the user named |
| Karma.SlackProcessor.constructor | karma/processor.go:67-70 | the processor keeps the store and both generators |
| Karma.SlackProcessor.Salutation | karma/messages.go:98-108 | appends the salutation for k |
| Karma.SlackProcessor.ChannelStatus | karma/processor.go:331-335 | the channel reply: the opening and the status line, with the salutation for the sign |
| Karma.SlackProcessor.MeResponse | karma/processor.go:217-225 | the direct reply with the two lines of totals and the salutation for the caller's karma |
| Karma.SlackProcessor.TopResponse | karma/processor.go:274-281 | the channel reply with the ranking lines and a compliment |
| Karma.SlackProcessor.Help | karma/processor.go:203-205 | `help` answers the help response |
| Karma.SlackProcessor.Me | karma/processor.go:207-226 | `me` answers as its specification does, without writing |
| Karma.SlackProcessor.Status | karma/processor.go:228-249 | `status` answers as its specification does, without writing |
| Karma.StatusReply | karma/processor.go:228-249 | a direct reply for a missing name and another for a non-user; a failing read is passed on; otherwise the channel reply with the request line and the target's status line |
| Karma.SlackProcessor.Top | karma/processor.go:251-282 | `top` answers as its specification does, without writing |
| Karma.SlackProcessor.Exchange | karma/processor.go:310-335 | the daily check and the two writes give the specified reply and new store |
| Karma.SlackProcessor.Add | karma/processor.go:284-336 | `add` gives the reply and the new store of its specification |
| Karma.SlackProcessor.Subtract | karma/processor.go:338-391 | `subtract` gives the reply and the new store of its specification |
| Karma.SlackProcessor.ProcessCommand | karma/processor.go:100-122 | the handler selected by the first word gives the specified reply and store |
| Karma.SlackProcessor.Process | karma/processor.go:73-98 | one request gives the reply and the new store that `ProcessOutcome` specifies |
| SqliteKarma.HelpResponse | src/karma/processor.go:98-106 | the help is a direct text reply without attachment |
| SqliteKarma.KarmaStatus | src/karma/messages.go:11-23 | the status is a channel reply without attachment |
| SqliteKarma.KarmaStatusWording | src/karma/messages.go:11-23 | the text starts with the user's mention and says "have" exactly for negative karma |
| SqliteKarma.KarmaStatusSaying | src/karma/messages.go:11-23 | positive karma ends with the italic compliment, negative karma with the italic insult |
| SqliteKarma.KarmaStatusDeterminesTotal | src/karma/messages.go:11-23 | for fixed sayings the status text determines the total |
| SqliteKarma.WriteKarmaStatus | src/karma/messages.go:25-27 | appends `<@id> has k karma.` |
| SqliteKarma.SalutationWords | src/karma/messages.go:29-39 | a compliment when positive, nothing when zero, an insult when negative |
| SqliteKarma.KarmaSalutation | src/karma/messages.go:29-39 | appends the saying for k's sign |
| SqliteKarma.Amount | src/karma/processor.go:78-85 | the magnitude of the third word when it parses, else 1 |
| SqliteKarma.BlankTextGetsHelp | src/karma/processor.go:35-42 | blank text gets the help without writing |
| SqliteKarma.OnlyFourKeywords | src/karma/processor.go:44-95 | any first word other than `me`, `status` and `++` gets the help without writing |
| SqliteKarma.OnlyAddWrites | src/karma/processor.go:63-91 | only `++` writes, and only for a user other than the caller and a non-zero amount |
| SqliteKarma.AddUsesMagnitude | src/karma/processor.go:79-91 | `++ @u n` credits the resolved user with the magnitude of n and reports the new total |
| SqliteKarma.ZeroAmountRefused | src/karma/processor.go:87-89 | `++ @u 0` is refused without writing |
| SqliteKarma.SelfTargetRefused | src/karma/processor.go:74-76 | a target that resolves to the caller is refused without writing |
| SqliteKarma.ClosedTokenCreditsEmpty | src/karma/processor.go:63-91 | `++ foo> n` from a caller with a non-empty id credits the empty id |
| SqliteKarma.ClosedTokenStatus | src/karma/processor.go:50-61 | `status x>` reports the total of the empty id, without writing |
| SqliteKarma.SQLiteProcessor.constructor | src/karma/processor.go:28-31 | the processor keeps its store |
| SqliteKarma.SQLiteProcessor.Help | src/karma/processor.go:98-106 | `help` answers the help |
| SqliteKarma.SQLiteProcessor.Me | src/karma/processor.go:108-115 | `me` answers as its specification does, without writing |
| SqliteKarma.SQLiteProcessor.Delta | src/karma/processor.go:117-124 | one update, whose failure is passed on, gives the specified reply and store |
| SqliteKarma.SQLiteProcessor.Process | src/karma/processor.go:34-96 | one request gives the reply and new store `ProcessOutcome` specifies |
| KdbKarma.Credit | main/karma_databinder.go:36-70 | one total moves by delta; every other total is unchanged |
| KdbKarma.KarmaDB.constructor | main/karma_databinder.go:85 | the table starts as given |
| KdbKarma.KarmaDB.GetKarma | main/karma_databinder.go:19-34 | the stored total, 0 for a missing row |
| KdbKarma.KarmaDB.UpdateKarma | main/karma_databinder.go:36-70 | the total moves by delta, and the new total is answered |
| KdbKarma.HelpResponse | main/karma_processor.go:66-73 | the help is a direct text reply without attachment |
| KdbKarma.Status | main/karma_processor.go:89-101 | the status is a channel reply without attachment |
| KdbKarma.StatusWording | main/karma_processor.go:89-101 | the text starts with the user as given and says "have" exactly for negative karma |
| KdbKarma.StatusSaying | main/karma_processor.go:89-101 | positive karma ends with the compliment on a line of its own, negative karma with the insult on a line of its own |
| KdbKarma.StatusDeterminesTotal | main/karma_processor.go:89-101 | for fixed sayings the status text determines the total |
| KdbKarma.Amount | main/karma_processor.go:51-58 | the third word's value, sign kept, when it parses, else 1 |
| KdbKarma.BlankTextGetsHelp | main/karma_processor.go:22-29 | blank text gets the help without writing |
| KdbKarma.OnlyThreeKeywords | main/karma_processor.go:31-63 | any first word other than `me` and `++` gets the help without writing |
| KdbKarma.MeReportsOwnTotal | main/karma_processor.go:75-78 | `me` reports the caller's own total without writing |
| KdbKarma.OnlyAddWrites | main/karma_processor.go:36-60 | only `++` writes, and only for a target resolving to someone else and a non-zero amount |
| KdbKarma.AmountUsedAsGiven | main/karma_processor.go:51-60 | `++ t n` credits the token t with n, sign kept, and reports the new total |
| KdbKarma.ZeroAmountRefused | main/karma_processor.go:80-83 | `++ t 0` is refused without writing |
| KdbKarma.SelfTargetRefused | main/karma_processor.go:47-49 | a target that resolves to the caller is refused without writing |
| KdbKarma.MentionCreditsRawToken | main/karma_processor.go:41-60 | `++ <@id>` credits the row named by the mention text itself; the row for `id` is unchanged |
| KdbKarma.ClosedTokenCreditsToken | main/karma_processor.go:36-60 | `++ foo> n` from a caller with a non-empty id passes the self check and credits the row `foo>` |
| KdbKarma.KdbProcessor.constructor | main/karma_processor.go:17-19 | the processor keeps its table |
| KdbKarma.KdbProcessor.Help | main/karma_processor.go:66-73 | `help` answers the help |
| KdbKarma.KdbProcessor.Me | main/karma_processor.go:75-78 | `me` reports the caller's total |
| KdbKarma.KdbProcessor.Delta | main/karma_processor.go:80-87 | zero is refused; otherwise one update gives the specified reply and table |
| KdbKarma.KdbProcessor.Process | main/karma_processor.go:21-64 | one request gives the reply and new table `ProcessOutcome` specifies |

## Left out

- The HTTP layer is not part of this model: the gin handlers, the routers, and the `Usage` logging call of the handler.
- The SQL of the stores is not modelled. The stores are tables that read and update in memory, and `down` names the calls that fail. The store implementations are modelled only as far as the upsert they perform.
- `DeleteKarma` is left out because no processor calls it.
- KdbKarma.KarmaDB.UpdateKarma: when the total reads 0 the source inserts a row and answers delta. That agrees with the model when the row is absent. A present row holding 0 gets a second row, or, under a unique index on (team, user) such as the one at karma/sqlite.go:66, an insert that fails; the earliest revision's schema (`InitDB`) is not part of this model, and that case is not modelled.
- The `LiteKarmaDB` error paths that print and answer 0 or the old total are not modelled.
- Randomness is a parameter. The generators' picks (`Picks`) and the earlier revisions' sayings (`Sayings`) are given per request.
- `Karma.SlackProcessor.Salutation`, and everything above it, requires `Ready`: the picks must be in range for the columns. An empty column makes `rand.Intn(0)` panic in the source; that case is excluded rather than modelled.
- The clock is a parameter. One `Env.date` stands for both `time.Now()` calls of a request.
- `rand.Seed(time.Now().Unix())` is not modelled.
- KarmaStore.Store.Top: the ranking query is not part of the shown DAO interface. The store holds the ranking as a sequence and answers its first n rows; which users rank, and in what order, is an input.
- Text.Atoi: integers are unbounded, so the 64-bit range error of `strconv.Atoi` is not modelled.
- Karma.Abs: integers are unbounded, so Go's wrap-around of the smallest int is not modelled.
- `unicode.IsSpace` is modelled on its fixed list of white-space characters; Unicode normalisation is out of scope.
- The earlier `IsSlackUser` copies (src/slack/slack.go:57-66, main/slack.go:51-60) are identical to each other and are modelled once, as `OldSlack.IsSlackUser`. Their escaped pattern differs from the current one, so they are not served by `Slack.IsSlackUser`.
- The earlier revisions' `Response` holds a single `Attachments` struct carrying only a text (src/slack/slack.go:16-26, main/slack.go:15-23), where the current one holds a list. The earlier processors never set it, so the model writes their replies with the current type and an empty attachment list.
- Karma.SlackProcessor.ProcessCommand: requires that the first word is a command, as its one caller guarantees. The unreachable fallback to help after the switch is therefore not modelled.
- Logging (`log.Error`, `log.Errorf`, `fmt.Printf`) is not modelled.
- Concurrency between requests is not modelled; each request runs alone.
