# SferumBot relay core in Dafny

SferumBot forwards messages from VK chats (the Sferum school messenger) to a
Telegram chat. This project models its two pieces of real logic and proves
what they guarantee:

- **The long-poll relay loop** of `main.py`. The loop keeps a cursor: the
  long-poll `key` and `ts`, the history position `pts`, and the
  `access_token`. Each iteration polls the long-poll server and looks only at
  the first update. For a new message (tag 4) it checks the chat against the
  allow-list, fetches the message (re-authenticating and retrying once when
  the fetch reports `error`), builds the outbound message from the last item
  and sends it. It then handles the poll's `failed` field. Any exception ends
  the iteration with an error notice, and state assigned before the failure
  is kept.
- **The batch resend utility** `resend_media.py`. It parses the comma-separated
  allow-list, checks its configuration, logs in, and for each peer walks the
  recent history in reverse. It skips items older than a threshold and sends
  only the messages that carry a photo. It counts the sends and sums the
  counts.

Layout:

- `vk_types.dfy` (module `Vk`): the values exchanged with VK and Telegram.
  Every call into code outside the model answers `Returned(v)` or `Raised`.
- `py_text.dfy` (module `PyText`): the Python string operations the code
  relies on, written out. These are `str.split()`, `str.split(',')`,
  `"".join`, `str.strip()`, `str(int)` and `int(str)`. It also defines `Join`
  (`sep.join`) and `Numerals` (`str` over a list of ids). The code never
  calls them. They are reference inverses of the split and the `int`
  conversion, used to state the round-trips.
- `relay.dfy` (module `Relay`): one iteration of `main.py` as functions over
  a `Cursor`, giving the new cursor and the trace of calls made (`Effect`s).
  The class `RelayLoop` keeps the cursor in mutable fields. Its methods
  `Reauthenticate`, `FetchMessage`, `DeliverMessage`, `HandleEvent`,
  `HandleFailed`, `TryIteration` and `Iterate` perform the same steps in
  place, and `Loop` is the `while True` loop. Every method is proved equal to
  its function.
- `relay_props.dfy` (module `RelayProperties`): what an iteration and a run
  of several guarantee.
- `resend.dfy` (modules `Resend` and `ResendProperties`): `_parse_allowed_chats`,
  `_resend_for_chat` and `main`. The two loops are methods `ResendForChat` and
  `ResendPeers`, with `ResendMain` around them, each proved equal to its
  function. The properties are proved about those functions.

Every network answer of one relay iteration is a field of a `Responses`
record, one field per call site. The two re-authentications (after a fetch
error and after `failed == 2`) each have their own fields. The resend utility
gets its network and transform calls as function parameters (`Services`).

Three behaviours of the code are worth stating, because the model follows
them exactly:

- A failing `send_error` is not caught. It sits inside the `except` clause
  (`main.py:95-97`), so its exception leaves `while True` and `main` ends.
  The model records this as the outcome `Stopped`, and `Relay.Run` ends there
  (`RelayProperties.RunContinues`).
- `ts` is not monotone. The code assigns whatever `ts` the server or the
  credentials return (`main.py:43,58,88,93`), and so does the model.
- Updates that arrive without a `ts` key raise a `KeyError` at `main.py:43`,
  before the event is looked at (`RelayProperties.UpdatesWithoutTs`).

## Model

| member | source | states |
|---|---|---|
| PyText.IsSpace | main.py:50 | definition: Python's `str.isspace` on one character, the blank set of `split()` and `strip()`; used by `Fields`, `Squeeze` and the trims |
| PyText.Fields | main.py:50 | `s.split()` gives non-empty pieces without blanks; a text that opens with a non-blank opens its first piece with it |
| PyText.Squeeze | main.py:50 | reference definition: the non-blank characters of the text, in order, no longer than the text |
| PyText.Concat | main.py:50 | definition: `"".join` of a list of strings; proved in `ConcatFields` to remove exactly the blanks when applied to `split()` |
| PyText.ConcatFields | main.py:50 | `"".join(s.split())` removes exactly the blank characters, keeping the rest in order |
| PyText.SqueezeNoSpace | main.py:50 | removing blanks from a text without blanks leaves it unchanged |
| PyText.Join | resend_media.py:23 | definition: `sep.join`, which the code never calls; the reference inverse of `Split`, proved in `JoinSplit` and `SplitJoin` |
| PyText.Split | main.py:50 | `s.split(sep)` gives at least one piece, and no piece contains the separator |
| PyText.JoinSplit | resend_media.py:23 | joining the pieces of a split with the separator gives back the text |
| PyText.SplitPrefix | resend_media.py:23 | splitting a separator-free prefix followed by more text glues the prefix onto the first piece |
| PyText.SplitJoin | resend_media.py:23 | splitting a join of separator-free pieces gives back the pieces |
| PyText.JoinStartsWith | resend_media.py:23 | a join begins with its first piece |
| PyText.JoinNoSpace | main.py:50 | joining blank-free pieces with a non-blank separator gives a blank-free text |
| PyText.IsIntSpace | resend_media.py:77 | definition: the blanks `int()` skips around its digits, `str.isspace` without U+001C to U+001F; used by `PyInt` |
| PyText.TrimStart | resend_media.py:24 | for a given blank set, drops exactly the leading blanks: the result is a suffix that does not start with a blank, and everything dropped is blank |
| PyText.TrimEnd | resend_media.py:24 | for a given blank set, drops exactly the trailing blanks: the result is a prefix that does not end with a blank, and everything dropped is blank |
| PyText.Strip | resend_media.py:24 | for a given blank set (`IsSpace` gives `strip()`), the result does not start or end with a blank, is empty exactly when the text is all blanks, and leaves a text without edge blanks unchanged |
| PyText.DigitChar | main.py:50 | a digit below ten prints as an ASCII digit |
| PyText.NatToString | main.py:50 | `str(n)` is a non-empty string of digits with no leading zero unless `n` is 0 |
| PyText.IntToString | main.py:50 | `str(i)` is non-empty, ends with a digit, and holds only digits, apart from a leading `-` |
| PyText.Numerals | resend_media.py:24 | one numeral per id: `str(ids[k])` at position `k` |
| PyText.IsDigitGroup | resend_media.py:24 | definition: the digits `int()` accepts, with single underscores between digits; `NatToStringDigitGroup` shows every numeral is one |
| PyText.ParseIntLiteral | resend_media.py:24 | definition: `int()` on text without edge blanks, an optional sign and a digit group, `None` for `ValueError`; inverse of `IntToString` by `ParseIntLiteralOfIntToString` |
| PyText.PyInt | resend_media.py:24 | definition: `int(s)` as at lines 24, 77 and 82-83, skipping only the `IsIntSpace` blanks around the literal; `PyIntOfIntToString` shows `int(str(i)) == i`, `PyIntRejectsSeparators` that a leading U+001C to U+001F is an error |
| PyText.StripKeepsFirst | resend_media.py:24 | stripping keeps a first character that is not blank |
| PyText.LiteralOpensWithSignOrDigit | resend_media.py:77 | an `int()` literal that opens with neither a sign nor a digit is a `ValueError` |
| PyText.PyIntRejectsSeparators | resend_media.py:82-83 | `int()` of a text opening with U+001C to U+001F raises, although `str.isspace` counts those characters as blanks |
| PyText.NatToStringValue | resend_media.py:24 | reading the digits of `str(n)` gives back `n` |
| PyText.PyIntOfIntToString | resend_media.py:24 | `int(str(i)) == i` for every integer |
| PyText.StripNumeral | resend_media.py:24 | a numeral has no blank to strip, for either blank set |
| PyText.NatToStringDigitGroup | resend_media.py:24 | `str(n)` is a digit group `int()` accepts |
| PyText.ParseIntLiteralOfIntToString | resend_media.py:24 | the literal `str(i)` reads back as `i`, sign included |
| PyText.IntToStringInjective | main.py:50 | distinct integers print differently, so `str(chat_id)` names one chat |
| PyText.NumeralsClean | main.py:50 | numerals contain neither a comma nor a blank |
| Vk.HasPhoto | resend_media.py:60 | definition: some media entry has kind "photo"; used by `Process` and `PhotoCount` |
| Relay.Url | main.py:37 | definition: the poll address `https://{server}`; `OnePollFirst` and `RunPollsOneServer` show every poll goes there |
| Relay.Form | main.py:27-32 | definition: the poll form `act`, `key`, `ts`, `wait` taken from the cursor; `OnePollFirst` shows each poll sends the current one |
| Relay.AllowList | main.py:50 | definition: `"".join(vk_chat_ids.split()).split(",")`; properties proved in `AllowListIgnoresBlanks` and `AllowListOfNumerals` |
| Relay.Allowed | main.py:50 | definition: `str(chat_id)` is in the allow-list; `AllowedIffListed` shows this is membership of the id |
| Relay.TitleText | main.py:72 | definition: the title as text, `""` for a falsy one; cases proved in `FalsyTitle` |
| Relay.Reauth | main.py:56-59 | definition: the re-authentication of lines 56-59 and 91-94, keeping the token when `get_credentials` raises; implemented by `RelayLoop.Reauthenticate`, properties in `FailedTwo` and `FetchRetry` |
| Relay.Fetch | main.py:53-65 | definition: the fetch and its single retry; implemented by `RelayLoop.FetchMessage`, properties in `FetchRetry`, `FetchFetches` and `FetchIgnoresPoll` |
| Relay.Deliver | main.py:53-81 | definition: fetch, advance `pts`, build from the last item, send; implemented by `RelayLoop.DeliverMessage`, properties in `Delivery`, `DeliverExtendsFetch` and `KeptAfterEmptyItems` |
| Relay.OnEvent | main.py:46-83 | definition: what the first update leads to; implemented by `RelayLoop.HandleEvent`, properties in `IgnoredEvent`, `FilteredChat`, `EventFetches` and `EventIgnoresPoll` |
| Relay.OnFailed | main.py:85-94 | definition: the handling of `failed`; implemented by `RelayLoop.HandleFailed`, properties in `FailedOne`, `FailedTwo` and `FailedOther` |
| Relay.Attempt | main.py:37-94 | definition: the body of the `try`; implemented by `RelayLoop.TryIteration`, properties in `AttemptInner`, `AttemptFetches` and `AttemptHasNoNotice` |
| Relay.Iteration | main.py:36-97 | definition: one iteration with its `except`; implemented by `RelayLoop.Iterate`, properties in `OnePollFirst`, `PtsMovesOnce`, `OneNoticePerFailure`, `OnlyFirstUpdate` and `AtMostOneRetry` |
| Relay.Run | main.py:34-97 | definition: the loop over a list of iterations, ending at `Stopped`; implemented by `RelayLoop.Loop`, properties in `RunContinues`, `RunPollsOneServer` and `RunNotices` |
| Relay.RelayLoop.constructor | main.py:13-32 | the loop starts from the `key`, `ts`, `pts` and `access_token` it is given; `server` and the configuration are fixed |
| Relay.RelayLoop.Reauthenticate | main.py:56-59 | a fresh token, then fresh `ts` and `key`; a raised call keeps what was already assigned |
| Relay.RelayLoop.FetchMessage | main.py:53-65 | one fetch at the current `pts`; after an `error` answer, one re-authentication and one retry at the same `pts` |
| Relay.RelayLoop.DeliverMessage | main.py:53-81 | missing `items`/`profiles`/`title` raise before `pts` moves; `pts` becomes `new_pts` or `pts + 1`; the message is built from the last item and sent once |
| Relay.RelayLoop.HandleEvent | main.py:46-83 | tag other than 4: ignored; chat not allowed: `pts + 1`; allowed: delivery; an empty tuple or a failing `EventMessage` raises |
| Relay.RelayLoop.HandleFailed | main.py:85-94 | `failed == 1` takes `ts` from the answer; `failed == 2` re-authenticates; any other value changes nothing |
| Relay.RelayLoop.TryIteration | main.py:37-94 | one poll with the current `key`/`ts`; `ts` taken from an answer with updates; only `updates[0]` handled; `failed` handled last |
| Relay.RelayLoop.Iterate | main.py:36-97 | an iteration whose body raised sends one error notice; state assigned before the failure is kept |
| Relay.RelayLoop.Loop | main.py:34-97 | the loop runs the iterations in order until the script ends or `send_error` raises |
| RelayProperties.AllowListIgnoresBlanks | main.py:50 | blanks anywhere in `vk_chat_ids` are ignored: the list is split after they are removed |
| RelayProperties.AllowListOfNumerals | main.py:50 | a comma-joined list of numerals splits back into exactly those numerals; an empty one gives `[""]` |
| RelayProperties.NumeralListed | main.py:50 | the numeral of a chat id is in the list of numerals of some ids exactly when the id is |
| RelayProperties.AllowedIffListed | main.py:50 | for ids written as numerals joined by commas, a chat is allowed exactly when its id is one of them; an empty list allows nothing |
| RelayProperties.FetchIgnoresPoll | main.py:53-65 | the fetch does not depend on the poll's answer |
| RelayProperties.EventIgnoresPoll | main.py:46-83 | handling the first update depends only on that update, not on the rest of the poll's answer |
| RelayProperties.OnlyFirstUpdate | main.py:42-44 | an iteration over a batch is the same as over its first update alone |
| RelayProperties.NoUpdates | main.py:42 | a poll without updates and without `failed` makes one call and changes nothing |
| RelayProperties.IgnoredEvent | main.py:46 | an update with a tag other than 4 changes only `ts`, and nothing is fetched or sent |
| RelayProperties.FilteredChat | main.py:50-83 | a new message from a chat outside the allow-list raises `pts` by exactly one, and nothing is fetched or sent |
| RelayProperties.UpdatesWithoutTs | main.py:42-43 | updates without `ts` raise before anything changes, and the error notice follows the poll |
| RelayProperties.Delivery | main.py:53-81 | an allowed message with a good fetch: one fetch at `pts`, one build from `items[-1]` with the title as text, one `send_message`, `pts` to `new_pts` or `pts + 1` |
| RelayProperties.FalsyTitle | main.py:72 | a falsy title (`None` or `""`) becomes `""`, any other title is passed as itself |
| RelayProperties.FetchRetry | main.py:53-64 | an `error` fetch is followed by user credentials, long-poll credentials and one retry with the new token at the same `pts`; the new token, `ts` and `key` are kept |
| RelayProperties.DeliverExtendsFetch | main.py:53-81 | delivery begins with the fetch calls, appends only builds and sends, and changes nothing but `pts` |
| RelayProperties.RetryAfterFetchError | main.py:55-61 | after an `error` fetch: user credentials, long-poll credentials, one retry with the new token and the old `pts`; token, `ts` and `key` stay overwritten |
| RelayProperties.FetchFetches | main.py:53-61 | the fetch stage fetches at most twice, both times at the current `pts` |
| RelayProperties.EventFetches | main.py:46-81 | handling an update fetches at most twice, at the current `pts` |
| RelayProperties.AttemptFetches | main.py:37-94 | the body of the `try` fetches at most twice, at the `pts` it began with |
| RelayProperties.AtMostOneRetry | main.py:53-61 | an iteration fetches at most twice, always at the `pts` it began with |
| RelayProperties.FailedOne | main.py:87-88 | `failed == 1` sets `ts` and nothing else |
| RelayProperties.FailedTwo | main.py:90-94 | `failed == 2` replaces token, `ts` and `key`; `pts` stays |
| RelayProperties.FailedOther | main.py:85-94 | any other `failed` value changes nothing and calls nothing |
| RelayProperties.ResyncIteration | main.py:85-88 | a whole iteration with only `failed == 1` moves `ts` and makes one call |
| RelayProperties.AttemptInner | main.py:37-94 | the body of the `try` polls exactly once, first; after that it neither polls nor sends a notice, and `pts` stays, rises by one or takes a `new_pts` |
| RelayProperties.AttemptHasNoNotice | main.py:37-94 | the body of the `try` never sends the error notice |
| RelayProperties.OneNoticePerFailure | main.py:95-97 | exactly one error notice, as the last call, exactly when the body raised |
| RelayProperties.OnePollFirst | main.py:37 | every iteration polls once, first, at `https://{server}` with the current form |
| RelayProperties.PtsMovesOnce | main.py:70-83 | `pts` stays, rises by one, or becomes a `new_pts` the server sent |
| RelayProperties.KeptAfterEmptyItems | main.py:67-77 | with empty `items`, `pts` has already advanced when `items[-1]` raises, and that value is kept |
| RelayProperties.KeptAfterFailedRetry | main.py:55-69 | a retried fetch that still lacks `items` raises, keeping the new token, `ts` and `key` |
| RelayProperties.RunContinues | main.py:34-97 | a run takes every iteration it is given unless `send_error` raises, and then stops right there |
| RelayProperties.RunPollsOneServer | main.py:37 | one poll per iteration over a whole run, always to the same server |
| RelayProperties.RunNotices | main.py:95-97 | over a run, one error notice per iteration whose body raised |
| Resend.TryMap | resend_media.py:24 | definition: a conversion applied to every entry, failing when one fails; properties in `TryMapSpec` and `TryMapAll` |
| Resend.NonBlank | resend_media.py:24 | the stripped non-blank chunks: no more than there were chunks, none empty |
| Resend.TryMapSpec | resend_media.py:24 | converting every entry of a list fails exactly when some entry fails, else gives one result per entry, in order |
| Resend.TryMapAll | resend_media.py:24 | when each entry converts to the matching element of a list of the same length, the conversion gives that list |
| Resend.ParseAllowedChats | resend_media.py:20-22 | `None` and `""` give the empty list |
| Resend.ChatTitle | resend_media.py:40-44 | definition: the chat title lookup; cases in `ChatTitleCases` |
| Resend.Process | resend_media.py:49-64 | definition: one item of the walk; properties in `ProcessStep` |
| Resend.WalkItems | resend_media.py:46-64 | definition: the walk over `reversed(items)`; implemented by `ResendForChat`, properties in `WalkSendsPhotos`, `WalkOffersRecent`, `WalkCounts` and `WalkFinishes` |
| Resend.ChatRun | resend_media.py:37-66 | definition: `_resend_for_chat` for one peer; implemented by `ResendForChat`, properties in `ChatHistory` and `ChatShape` |
| Resend.Truthy | resend_media.py:79 | definition: Python truthiness of an optional string, used for the checks of lines 74, 79 and 82 |
| Resend.Configure | resend_media.py:72-87 | definition: reading and checking the configuration in source order; properties in `DepthCheckedFirst`, `MissingConfigRejected`, `NoPeersRejected` and `RefusedBeforeNetwork` |
| Resend.PeersRun | resend_media.py:103-114 | definition: the loop over the peers, stopping at the first raise; implemented by `ResendPeers`, properties in `PeersCalls`, `PeersOrder` and `PeersTotal` |
| Resend.Launch | resend_media.py:95-116 | definition: login, the peers, `bot.close`; properties in `LaunchCalls`, `LaunchOffersRecent` and `LaunchTotal` |
| Resend.MainRun | resend_media.py:69-118 | definition: `main` as a whole; implemented by `ResendMain`, properties in `MainShape` |
| Resend.ResendForChat | resend_media.py:27-66 | the loop over `reversed(items)` makes the calls and returns the count that `ChatRun` describes |
| Resend.ResendPeers | resend_media.py:103-114 | the loop over the peers makes the calls and accumulates the total that `PeersRun` describes |
| Resend.ResendMain | resend_media.py:69-118 | `main` ends as `MainRun` describes: configuration checks, login, the peers, `bot.close` |
| ResendProperties.Recent | resend_media.py:48-50 | reference definition: the items at or after the threshold, newest first; none is older than the threshold |
| ResendProperties.PhotoCount | resend_media.py:60-64 | reference definition: how many items the transform turns into a message with a photo |
| ResendProperties.StepCallsShape | resend_media.py:60-64 | an eligible item's calls: one build of that item, and a send to the configured chat exactly when the message has a photo; that send follows the build and sends what it returned |
| ResendProperties.ProcessStep | resend_media.py:49-64 | an eligible item adds one build and, when the message has a photo, one send to the configured chat, and keeps every send tied to the build of a recent item before it |
| ResendProperties.WalkSendsPhotos | resend_media.py:48-64 | a chat walk sends only messages with a photo, only to the configured chat, each one right after the build of a recent item that returned it, and builds at most once per item |
| ResendProperties.WalkOffersRecent | resend_media.py:48-58 | every walk, raised or not, builds a prefix of the recent items, newest first, so nothing older than the threshold; a walk that did not raise builds all of them |
| ResendProperties.WalkCounts | resend_media.py:46-66 | the returned count equals the number of sends, which is the number of recent items with a photo |
| ResendProperties.WalkFinishes | resend_media.py:48-66 | when neither the transform nor `send_message` raises, the walk finishes |
| ResendProperties.ChatTitleCases | resend_media.py:40-44 | the title is `conversations[0].chat_settings.title` when that path exists, else `""` |
| ResendProperties.ChatHistory | resend_media.py:37-66 | one history request, for the peer, first, and none for any other peer |
| ResendProperties.ChatExpected | resend_media.py:37-66 | reference definition: the per-peer count the walk should return, the recent photo items of its history |
| ResendProperties.ChatShape | resend_media.py:37-66 | one history request for the peer, first, then the walk; whether or not it raises, only items at or after the threshold are built, a prefix of the recent ones, and every send follows the build of one; when it returns, the count is the peer's recent photo items |
| ResendProperties.Expected | resend_media.py:103-114 | reference definition: the sum of `ChatExpected` over the peers; `PeersTotal` and `LaunchTotal` show the total equals it |
| ResendProperties.PeersCalls | resend_media.py:103-114 | over all peers, whether or not one raised, only history requests, builds and sends to the configured chat are made; every built item is at or after the threshold, and every message sent has a photo and was built from such an item |
| ResendProperties.PeersOrder | resend_media.py:103-114 | peers are visited in order, each once, up to the one that raised; when none raised, all of them |
| ResendProperties.PeersTotal | resend_media.py:103-114 | when no peer raised, the total equals the number of sends and the sum over the peers of their recent photo items |
| ResendProperties.RefusedBeforeNetwork | resend_media.py:72-87 | a refused configuration ends the run before any network call |
| ResendProperties.LaunchCalls | resend_media.py:95-116 | login first; a finished run closes the bot last with only per-chat calls between; a run that raised never closes the bot |
| ResendProperties.LaunchOffersRecent | resend_media.py:95-116 | no run, finished or raised, builds an item older than the threshold, and every message it sends was built from an item at or after it |
| ResendProperties.LaunchTotal | resend_media.py:95-116 | a finished run logged in, visited every peer in order, and reports the number of sends, which is the sum of per-peer counts, all with a photo |
| ResendProperties.MainShape | resend_media.py:69-118 | a run that makes a call has passed the configuration checks, and a finished run always has |
| ResendProperties.DepthCheckedFirst | resend_media.py:77 | a `RESEND_HISTORY_DEPTH` that is not an integer stops the run before anything else is checked |
| ResendProperties.MissingConfigRejected | resend_media.py:79-80 | any of cookie, bot token, Telegram chat (or user) or VK chat list unset or empty raises before any network use |
| ResendProperties.NoPeersRejected | resend_media.py:84-87 | an allow-list that parses to no peer raises before any network use |
| ResendProperties.ParseAllowedChatsSpec | resend_media.py:23-24 | parsing fails exactly when a non-blank chunk is not an integer; otherwise one id per non-blank chunk, in order |
| ResendProperties.SplitChars | resend_media.py:23 | every character of a piece of a split comes from the text |
| ResendProperties.NonBlankOfBlanks | resend_media.py:24 | chunks made only of blanks are all dropped |
| ResendProperties.BlankListHasNoPeers | resend_media.py:23-24 | a value of only commas and blanks, such as `" , "`, gives no peers |
| ResendProperties.NonBlankNumerals | resend_media.py:24 | numerals survive the blank filter unchanged |
| ResendProperties.ParseIntsNumerals | resend_media.py:24 | `int` applied to each numeral of a list of ids succeeds and gives back the ids, in order |
| ResendProperties.ParseListedIds | resend_media.py:20-24 | ids written as numerals joined by commas parse back to the same ids, in order |

## Left out

- Network and library calls are not implemented. These are the long-poll POST, `get_message`, `get_user_credentials`, `get_credentials`, `get_history`, `send_message`, `send_error`, the aiogram `Bot` and `bot.close`. Each one returns a value or raises, as its `Responses` field or `Services` function says.
- Repeated calls of `resend_media.py` cannot answer differently. `Services` gives `login`, `history`, `build` and `send` as functions of their arguments, so two identical calls in one run get the same answer. For example, a peer listed twice (`VK_CHAT_ID="5,5"`) gets the same history both times, and two items that build the same message get the same `send_message` result. The program makes independent calls there. Every resend property is proved for every choice of these functions, but runs where the two answers differ are not covered. The relay's `Responses` has one answer per call site and has no such restriction, but its `build` is also one function for a whole `Relay.Run`: two iterations that build the same item with the same profiles and title get the same answer.
- `Message.async_init` is not implemented. It is the parameter `build`, which returns a message with a `(kind, payload)` media list or raises.
- `EventMessage` is not implemented. An update carries the `chat_id` it would yield, or nothing when it raises.
- `asyncio`, the 0.2 s sleep and the infinite loop are not modelled. `Relay.RelayLoop.Loop` runs a finite list of iterations.
- Logging has no effect on the state and is not modelled.
- Loading `.env` is not modelled. The environment is a record of optional strings.
- The start-of-UTC-day threshold is not computed. It is a parameter.
- Whether the aiogram `Bot` constructor rejects a malformed token is not modelled. That is library code, so the constructor is taken never to raise, and so is `bot.close`.
- JSON values of an unexpected type are not modelled. Examples are `failed` equal to `true` (which Python compares equal to 1), `new_pts` equal to `null`, a title that is neither a string nor `null`, a non-integer `date`, and `chat_settings` equal to `null`. The model takes each field to have the type the code expects, or to be absent.
- PyText.PyInt: does not accept the non-ASCII Unicode digits Python's `int()` also reads, and does not model the 4300-digit limit that Python 3.11 and later put on `int()` of a string. The model accepts ASCII digits with optional underscores between them and an optional sign, skipping the `IsIntSpace` blanks before and after.
- The session cookie's content and the credential exchange are not modelled. The model passes the cookie through and receives a token.

