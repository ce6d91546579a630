# Telegram storage backend, modelled in Dafny

Duplicati's Telegram backend stores backup files as messages of one channel of the user's
Telegram account. Each file is a message with the file attached as a document; the message
caption is the file's name. This project models the backend's own logic:

- the validation of its options;
- how it rebuilds the file list from the channel history, page by page, by message date;
- how it downloads a file chunk by chunk;
- how it deletes a file's message;
- how it finds the channel among the account's dialogs, and caches it;
- how it signs in, and keeps the phone code hash between runs;
- how it reconnects;
- how it retries an operation after a flood wait.

Telegram's remote calls become oracles passed as parameters:

- `History`: the history page served for an offset date.
- `DialogServer`: the dialogs page served for an offset date.
- `FileServer`: the chunk served for request number k at an offset.
- `AuthServer`: the answers of the sign-in calls.
- `ConnectAttempt`: what one reconnection meets.

Loops that the code runs without a bound carry a `fuel` count of requests. Running out of
it gives the error `Unfinished`, which stands for "still looping". The history loop needs
no fuel: its cursor only goes down within the 32-bit date range, so it always stops.

Files:

- `wrappers.dfy`: Option, Result, Outcome, and the 32-bit and byte integer types.
- `errors.dfy`: the exceptions the backend raises or lets through.
- `text.dfy`: `String.Trim`, `String.Contains`, `int.Parse`.
- `configuration.dfy`: the constructor's checks.
- `file_index.dfy`: RetrieveMessages, the history loop, `Distinct`, lookup by name.
- `transfer.dfy`: the download loop of Get.
- `channels.dfy`: GetChats and GetChannel's `FirstOrDefault`.
- `connection.dfy`: EnsureConnected and the client's session.
- `authentication.dfy`: Authenticate.
- `guard.dfy`: SafeExecute.
- `backend.dfy`: the `Telegram` class, its channel cache and its operations.

`ChannelFileInfo.cs` is not part of this model. `Distinct` relies on the equality of
`ChannelFileInfo`, and `ChannelFileInfo` is assumed to compare equal field by field.

Get and Delete run their bodies under SafeExecute. A flood wait makes SafeExecute sleep and
run the whole body again, and the rerun asks Telegram everything anew. A guarded call is
therefore modelled by a `Script`: the cache it starts from and one `Round` per run. A round
holds what that run is served: its own dialogs, its own channel history, and what its own
request meets (a file server for Get, the answer to the delete request for Delete). Each run
starts with GetChannel, so the channel cache is carried from run to run; a flood wait that
one run meets while scanning the dialogs or the history is cleared when a later run is
served normally.

The specification of a guarded Get is the sequence of the runs' downloads (`Downloads`);
`GetRuns` and `Stream` read the attempts and the written bytes off it, and the method
`Telegram.GetNext` performs one run against it. Delete is specified in the same way by the
sequence of the runs' plans (`Plans`), read by `DeleteRuns` and `Requests` and performed one
run at a time by `Telegram.DeleteNext`. `Transfer.IsRetried` is the test for the one error
the download loop retries in place.

## Model

All source paths are under `Duplicati/Library/Backend/Telegram/`.

| member | source | states |
|---|---|---|
| Configuration.ConfigureAccepts | Duplicati/Library/Backend/Telegram/TelegramBackend.cs:44-98 | The options are accepted exactly when the API id parses to a non-zero value and the API hash, phone number and channel name are present and not blank. The configuration then holds the trimmed values. |
| Configuration.ConfigureRejects | Duplicati/Library/Backend/Telegram/TelegramBackend.cs:46-94 | The checks run in source order: an unparsable API id fails first, then a zero id, a missing API hash, a missing phone number, a missing channel name. Each error occurs exactly when every earlier check passes and its own fails. |
| Configuration.Configure | Duplicati/Library/Backend/Telegram/TelegramBackend.cs:44-98 | The settings it accepts have a non-zero API id and a non-empty API hash, phone number and channel name. Every rejection is a malformed API id (format or overflow) or one of the four missing-setting errors. |
| Configuration.TrimmedEmptyIffMissing | Duplicati/Library/Backend/Telegram/TelegramBackend.cs:51-94 | A trimmed option is null or empty exactly when it is absent or all white space. |
| Text.TrimStartBy | Duplicati/Library/Backend/Telegram/TelegramBackend.cs:53 | The result is a suffix of the input; the removed prefix is all stripped characters; the result does not start with one. |
| Text.TrimEndBy | Duplicati/Library/Backend/Telegram/TelegramBackend.cs:53 | The result is a prefix of the input; the removed suffix is all stripped characters; the result does not end with one. |
| Text.Trim | Duplicati/Library/Backend/Telegram/TelegramBackend.cs:53 | The result is never longer than the input, and neither of its ends is white space. |
| Text.TrimShape | Duplicati/Library/Backend/Telegram/TelegramBackend.cs:53 | Trim returns a slice of its input that neither starts nor ends with white space. |
| Text.TrimEmptyIffBlank | Duplicati/Library/Backend/Telegram/TelegramBackend.cs:53 | Trim returns the empty string exactly when the input is all white space. |
| Text.TrimIdempotent | Duplicati/Library/Backend/Telegram/TelegramBackend.cs:53 | Trimming twice is trimming once. |
| Text.Digits | Duplicati/Library/Backend/Telegram/TelegramBackend.cs:48 | The decimal spelling of a number is non-empty and all digits. |
| Text.DigitsValueOfDigits | Duplicati/Library/Backend/Telegram/TelegramBackend.cs:48 | The digits of a number read back as that number. |
| Text.ParseDecimal | Duplicati/Library/Backend/Telegram/TelegramBackend.cs:48 | Round trip: `int.Parse` of the decimal spelling of any 32-bit integer gives that integer back. |
| Text.ParseInt32 | Duplicati/Library/Backend/Telegram/TelegramBackend.cs:48 | `int.Parse` fails only with a format or an overflow error. A string of white space alone is a format error. |
| Text.ContainsIff | Duplicati/Library/Backend/Telegram/TelegramBackend.cs:180 | `Contains` holds exactly when the part occurs at some position of the string. |
| Text.Contains | Duplicati/Library/Backend/Telegram/TelegramBackend.cs:180 | The empty part is contained in every string. A part that is contained is no longer than the string. |
| FileIndex.FileInfoOf | Duplicati/Library/Backend/Telegram/TelegramBackend.cs:264-281 | A history entry yields a record exactly when it is an ordinary message whose media is a document and whose document is a real one. The record takes its id and date from the message, its name from the caption, and the rest from the document. |
| FileIndex.FileInfos | Duplicati/Library/Backend/Telegram/TelegramBackend.cs:264-282 | A page yields at most one record per message. |
| FileIndex.FileInfosAppend | Duplicati/Library/Backend/Telegram/TelegramBackend.cs:266-282 | The records of two pages read one after the other are the records of the first followed by those of the second. |
| FileIndex.FileInfosFromDocuments | Duplicati/Library/Backend/Telegram/TelegramBackend.cs:264-282 | A record is among a page's records exactly when some entry of the page yields it. |
| FileIndex.RetrieveMessages | Duplicati/Library/Backend/Telegram/TelegramBackend.cs:260-283 | The list grows by the page's document records, in page order. A reply that is not the channel's messages fails the cast; an error of the call propagates. |
| FileIndex.AppendPage | Duplicati/Library/Backend/Telegram/TelegramBackend.cs:260-283 | A page succeeds exactly when the reply is the channel's messages. It then keeps the gathered list as a prefix and adds at most one record per message. Another kind of history fails the cast; an error of the call propagates. |
| FileIndex.MinDate | Duplicati/Library/Backend/Telegram/TelegramBackend.cs:253 | The minimum date is at most every record's date and is the date of some record. |
| FileIndex.Paginate | Duplicati/Library/Backend/Telegram/TelegramBackend.cs:241-254 | The first request of the loop is at the starting cursor. |
| FileIndex.PaginateMoves | Duplicati/Library/Backend/Telegram/TelegramBackend.cs:244-254 | When a page leaves the minimum date different from the cursor, the new cursor is that minimum. After the first page it is strictly below the previous cursor. |
| FileIndex.PaginateSound | Duplicati/Library/Backend/Telegram/TelegramBackend.cs:241-254 | Every record the loop returns was already in the list or came from a document message of a page it requested. |
| FileIndex.PaginateDescends | Duplicati/Library/Backend/Telegram/TelegramBackend.cs:241-254 | The requested offsets start at the initial cursor and strictly decrease after the first request. |
| FileIndex.PaginateFixedPoint | Duplicati/Library/Backend/Telegram/TelegramBackend.cs:244-254 | A loop that ends with a non-empty list ends at the fixed point: the last offset requested is the minimum date of the list. |
| FileIndex.PaginateStopsOnEmptyFirstPage | Duplicati/Library/Backend/Telegram/TelegramBackend.cs:248-251 | If the first page yields no record, the loop stops after that one request with an empty list. |
| FileIndex.PaginateKeeps | Duplicati/Library/Backend/Telegram/TelegramBackend.cs:241-254 | A finished loop keeps the list it started from as a prefix of its result. |
| FileIndex.PaginateComplete | Duplicati/Library/Backend/Telegram/TelegramBackend.cs:241-254 | Completeness, the converse of PaginateSound: every record of every page the loop requested is in its result. |
| FileIndex.Distinct | Duplicati/Library/Backend/Telegram/TelegramBackend.cs:256 | The result has no duplicates and has the same elements as the input. |
| FileIndex.DistinctKeepsUnique | Duplicati/Library/Backend/Telegram/TelegramBackend.cs:256 | A list without duplicates is returned unchanged. |
| FileIndex.DistinctIsSubsequence | Duplicati/Library/Backend/Telegram/TelegramBackend.cs:256 | The result is a subsequence of the input: its elements appear at strictly increasing positions of the input. |
| FileIndex.DistinctFirstNamed | Duplicati/Library/Backend/Telegram/TelegramBackend.cs:256 | `Distinct` keeps first occurrences: the first record with a name is the same before and after duplicates are dropped, so Get and Delete pick the same message either way. |
| FileIndex.ListFilesSound | Duplicati/Library/Backend/Telegram/TelegramBackend.cs:235-258 | The listing has no duplicates. A record is in it exactly when it came from a document message of a requested page, and exactly when the loop gathered it. The first record with any name is the same as in the gathered list. |
| FileIndex.ListFiles | Duplicati/Library/Backend/Telegram/TelegramBackend.cs:235-258 | The listing has no duplicates, and it fails exactly when the pagination loop fails. |
| FileIndex.FirstNamed | Duplicati/Library/Backend/Telegram/TelegramBackend.cs:163 | No record is found exactly when no record has the name. Otherwise the first record with the name is found. |
| FileIndex.CollectHistory | Duplicati/Library/Backend/Telegram/TelegramBackend.cs:241-254 | The `oldMinDate`/`newMinDate` loop returns exactly the list that the pagination specification defines. |
| Transfer.DownloadChunks | Duplicati/Library/Backend/Telegram/TelegramBackend.cs:166-186 | The loop writes what the download specification defines: the returned chunks concatenated in offset order. If it ends without error, it has written at least the file size. |
| Transfer.Fetch | Duplicati/Library/Backend/Telegram/TelegramBackend.cs:166-186 | A download never ends with the packet-length error; that error is retried at the same offset. |
| Transfer.FetchAccounting | Duplicati/Library/Backend/Telegram/TelegramBackend.cs:169-176 | Starting at or past the size, nothing is requested or written. A download that ends without error reaches at least the size. |
| Transfer.FetchFailures | Duplicati/Library/Backend/Telegram/TelegramBackend.cs:171-185 | The packet-length error never ends a download. Any other error that ends it was returned by the server to one of its requests. |
| Transfer.FetchRoundTrip | Duplicati/Library/Backend/Telegram/TelegramBackend.cs:169-177 | Round trip against a server that holds the data, with retried failures allowed: the download writes all of the data and nothing more. If the request bound cuts it short, it has written a prefix of the data. |
| Transfer.FetchWritesPrefix | Duplicati/Library/Backend/Telegram/TelegramBackend.cs:169-177 | From a server whose every chunk is the right one, though any request may fail, a download writes a prefix of the data from its offset, and all of it when it ends without error. |
| Transfer.FetchCompletes | Duplicati/Library/Backend/Telegram/TelegramBackend.cs:169-177 | A server that never fails, given enough requests, yields exactly the data. |
| Transfer.GetFile | Duplicati/Library/Backend/Telegram/TelegramBackend.cs:159-188 | A failed listing is rethrown with nothing written. A download that ends without error had a listed record with the name. |
| Transfer.GetRoundTrip | Duplicati/Library/Backend/Telegram/TelegramBackend.cs:159-188 | Get of a name that no record has fails in `First`. Get of a listed file served reliably writes exactly its bytes. |
| Channels.NextCursorIsLastDate | Duplicati/Library/Backend/Telegram/TelegramBackend.cs:338-351 | After a page, the cursor is the date of the page's last ordinary chat or channel. Forbidden chats do not move it. |
| Channels.PageStream | Duplicati/Library/Backend/Telegram/TelegramBackend.cs:338-356 | A page yields all its chats when none is of an unknown kind. Otherwise it yields those before the first unknown one and then throws NotSupported for it. |
| Channels.GetChats | Duplicati/Library/Backend/Telegram/TelegramBackend.cs:328-364 | No chat of an unknown kind is ever yielded. |
| Channels.GetChatsPages | Duplicati/Library/Backend/Telegram/TelegramBackend.cs:328-364 | An enumeration that ends without an exception requested a chain of pages, no more than its request bound: the first at the offset it starts from (0 for GetChannel), each next one at the date of the previous page's last dated chat and only after a page of at least 100 dialogs, the last one with fewer. It yields those pages' chats in order. |
| Channels.PageChainEnumerates | Duplicati/Library/Backend/Telegram/TelegramBackend.cs:328-364 | Conversely, such a chain of pages with no chat of an unknown kind is enumerated without an exception, yielding its chats in order. |
| Channels.FirstMatch | Duplicati/Library/Backend/Telegram/TelegramBackend.cs:323 | Null exactly when no chat is a channel with the title. Otherwise the first such channel. |
| Channels.FirstMatchAppend | Duplicati/Library/Backend/Telegram/TelegramBackend.cs:323 | The first match in two concatenated enumerations is the first match of the first, else the first match of the second. |
| Channels.FirstOrDefaultChannel | Duplicati/Library/Backend/Telegram/TelegramBackend.cs:323 | A channel found has the title. An exception is the one that ended the enumeration. Null is returned only after a complete enumeration. |
| Channels.ScanPageAgrees | Duplicati/Library/Backend/Telegram/TelegramBackend.cs:338-356 | The lazy scan of one page agrees with the page's full enumeration. A match is the first match among the yielded chats. An exception is the page's NotSupported. Reaching the end means no chat matched, and the next cursor follows the cursor rule. |
| Channels.ScanPage | Duplicati/Library/Backend/Telegram/TelegramBackend.cs:338-356 | A match is a channel with the title. The only exception of the scan is the one for an unknown kind of chat. |
| Channels.FindChannel | Duplicati/Library/Backend/Telegram/TelegramBackend.cs:328-364 | The page-by-page lazy scan gives what `FirstOrDefault` gives over the full enumeration of GetChats. Paging stops after a page with fewer than 100 dialogs. |
| Channels.ScanChats | Duplicati/Library/Backend/Telegram/TelegramBackend.cs:338-356 | The loop over one page's chats computes the lazy page scan. |
| Channels.ResolveChannel | Duplicati/Library/Backend/Telegram/TelegramBackend.cs:323-364 | The `lastDate` loop, consumed by `FirstOrDefault`, returns the first channel with the title, else the exception that ended the enumeration, else null. |
| Channels.ResolvedChannelIsFirstMatch | Duplicati/Library/Backend/Telegram/TelegramBackend.cs:323 | A channel that is returned appears in the enumeration with the title, and no matching channel comes before it. Null means that a complete enumeration holds no matching channel. |
| Connection.Connect | Duplicati/Library/Backend/Telegram/TelegramBackend.cs:428-445 | A connected client is left alone. Otherwise the call returns exactly when there was no cancellation, the connect call did not fail and the client is up. A client still down after connecting throws the WebException. |
| Connection.ConnectIdempotent | Duplicati/Library/Backend/Telegram/TelegramBackend.cs:430-433 | Once EnsureConnected has returned, calling it again changes nothing and returns. |
| Connection.Client.EnsureConnected | Duplicati/Library/Backend/Telegram/TelegramBackend.cs:428-445 | The connection flag and the outcome are those of `Connect`. |
| Connection.Client.constructor | Duplicati/Library/Backend/Telegram/TelegramBackend.cs:97 | A new client is not connected, has the signed-in flag its restored session holds, and has not saved its session. |
| Authentication.SignIn | Duplicati/Library/Backend/Telegram/TelegramBackend.cs:384-426 | Authenticate returns exactly in two cases: the user was signed in already, or the code hash is stored and the sign-in succeeds (with the cloud password when it is demanded). A signed-in user is left as they are, and a new sign-in saves the session once. Without a hash, it requests a code, stores the hash, saves the session, and fails with NoAuthCode or WrongAuthCode depending on the configured code. A stored hash is never changed. |
| Authentication.SignInNeedsPassword | Duplicati/Library/Backend/Telegram/TelegramBackend.cs:412-418 | A cloud password demand with no password configured saves the session and fails with NoPassword. |
| Authentication.SignInTwoRuns | Duplicati/Library/Backend/Telegram/TelegramBackend.cs:393-425 | A first run requests the code and fails. A second run whose sign-in succeeds signs the user in with the stored hash. The session has been saved twice. |
| Guard.Floods | Duplicati/Library/Backend/Telegram/TelegramBackend.cs:471-478 | Counts the leading flood waits: every run it counts is a flood wait, and the run after them is not. |
| Guard.Guarded | Duplicati/Library/Backend/Telegram/TelegramBackend.cs:458-510 | A guarded call takes at least one run and no more runs than remain, and it never ends with a flood wait. |
| Guard.GuardedSettles | Duplicati/Library/Backend/Telegram/TelegramBackend.cs:458-510 | A guarded call reruns through the flood waits and ends with the first run that is not one, returning that run's value or exception. It sleeps the requested waits: plus 2 to 14 seconds each for an operation without a result, and nothing extra for one with a result. |
| Guard.GuardRethrowsUserInformation | Duplicati/Library/Backend/Telegram/TelegramBackend.cs:466-470 | A UserInformation exception is rethrown as it is, after one run and without sleeping. |
| Guard.Retry | Duplicati/Library/Backend/Telegram/TelegramBackend.cs:458-510 | The retry loop computes the guarded-call specification. |
| Guard.SafeExecute | Duplicati/Library/Backend/Telegram/TelegramBackend.cs:458-481 | The void variant returns when the guarded call succeeds. It throws the call's exception otherwise, and sleeps with the random seconds added. |
| Guard.SafeExecuteValue | Duplicati/Library/Backend/Telegram/TelegramBackend.cs:484-510 | The variant with a result behaves as the guarded call, and sleeps only the requested waits. |
| Backend.ListOn | Duplicati/Library/Backend/Telegram/TelegramBackend.cs:235-240 | Listing succeeds only for a resolved channel with an access hash. A null channel fails with NullReference; a missing access hash fails reading the nullable. |
| Backend.Lookup | Duplicati/Library/Backend/Telegram/TelegramBackend.cs:314-326 | A cached channel is returned as it is. A channel found by the scan has the configured title. |
| Backend.CacheAfter | Duplicati/Library/Backend/Telegram/TelegramBackend.cs:314-326 | A set cache stays as it is, and a lookup from the new cache answers as the lookup that filled it. |
| Backend.CacheAfterSettles | Duplicati/Library/Backend/Telegram/TelegramBackend.cs:314-326 | A second GetChannel leaves the cache as the first one left it. |
| Backend.CacheAfterRunsStep | Duplicati/Library/Backend/Telegram/TelegramBackend.cs:314-326 | Each run of a guarded body leaves the cache as one GetChannel on that run's own dialogs leaves it. |
| Backend.CacheStays | Duplicati/Library/Backend/Telegram/TelegramBackend.cs:314-326 | Once a run has set the cache it stays set, and every later run resolves that channel without a request, whatever dialogs it is served. |
| Backend.DeletePlan | Duplicati/Library/Backend/Telegram/TelegramBackend.cs:208-233 | Delete fails exactly when the listing fails, and a request it sends deletes exactly one message. |
| Backend.DeletePlanTargets | Duplicati/Library/Backend/Telegram/TelegramBackend.cs:208-233 | Delete fails exactly when the listing fails. It sends nothing exactly when no listed record has the name. Otherwise it sends one request, for the resolved channel and its access hash, deleting the message of the first record with the name. |
| Backend.DownloadsAt | Duplicati/Library/Backend/Telegram/TelegramBackend.cs:159-188 | Run k of Get's body resolves the channel from the cache the earlier runs left, lists that run's history and downloads from that run's server, whatever the later runs are served. |
| Backend.GetRuns | Duplicati/Library/Backend/Telegram/TelegramBackend.cs:161-185 | One attempt per run: a run returns exactly when its download ended without an exception, and raises the exception that ended it otherwise. |
| Backend.GetRerunResolvesAgain | Duplicati/Library/Backend/Telegram/TelegramBackend.cs:159-188 | A flood wait met while the first run scans the dialogs leaves the cache unset, and the rerun scans again: when the second run downloads without error, Get succeeds after two runs and one wait. |
| Backend.GetRerunRepeatsBytes | Duplicati/Library/Backend/Telegram/TelegramBackend.cs:159-188 | As written, a flood wait during a download leaves the interrupted run's bytes in the stream, and the rerun writes the whole file after them. With a file longer than one chunk, Get succeeds and the stream holds the first chunk followed by the file. |
| Backend.RestartedGetWritesFile | Duplicati/Library/Backend/Telegram/TelegramBackend.cs:159-188 | With the stream rewound before each rerun, a Get that succeeds leaves exactly the file in the stream, whatever flood waits and other failures came before, as long as the file each run lists has the data's size and every chunk its server sends is a right one. |
| Backend.Plans | Duplicati/Library/Backend/Telegram/TelegramBackend.cs:210-231 | One plan per run, and every request planned deletes exactly one message. |
| Backend.PlansAt | Duplicati/Library/Backend/Telegram/TelegramBackend.cs:208-233 | Run k of Delete's body plans from the cache the earlier runs left and that run's history, whatever the later runs are served. |
| Backend.DeleteRuns | Duplicati/Library/Backend/Telegram/TelegramBackend.cs:210-231 | A run whose listing failed raises that exception; a run with nothing to delete returns; a run that sent its request ends as the answer to it. |
| Backend.Requests | Duplicati/Library/Backend/Telegram/TelegramBackend.cs:219-230 | Runs send at most one request each, and every request sent is one that a run planned. |
| Backend.DeleteMissingIsNoOp | Duplicati/Library/Backend/Telegram/TelegramBackend.cs:213-217 | Deleting a name that no record of the first run's listing has is one run that sends nothing and returns. |
| Backend.DeleteResendsAfterFlood | Duplicati/Library/Backend/Telegram/TelegramBackend.cs:208-233 | A flood wait in answer to the delete request reruns the body, which sends its request again: a flood wait and then success mean two runs, one wait and two requests. |
| Backend.PendingAuth.constructor | Duplicati/Library/Backend/Telegram/TelegramBackend.cs:37 | The shared phone code hash starts unset. |
| Backend.Telegram.constructor | Duplicati/Library/Backend/Telegram/TelegramBackend.cs:96-97 | A backend holds its configuration, client and shared hash, and starts with no cached channel. |
| Backend.Telegram.Open | Duplicati/Library/Backend/Telegram/TelegramBackend.cs:44-98 | A backend is created exactly when the options pass validation, with the validated configuration and a fresh, unconnected client. Otherwise the validation error is raised. |
| Backend.Telegram.GetChannel | Duplicati/Library/Backend/Telegram/TelegramBackend.cs:314-326 | A cached channel is returned without a request. Otherwise the result of the dialog scan is returned and, unless it threw, stored in the cache. |
| Backend.Telegram.ListChannelFileInfos | Duplicati/Library/Backend/Telegram/TelegramBackend.cs:235-258 | Returns the listing of the resolved channel: its document records without duplicates, or the error that stopped it. The cache is updated as GetChannel updates it. |
| Backend.Telegram.GetRun | Duplicati/Library/Backend/Telegram/TelegramBackend.cs:161-185 | One run of Get's body writes and throws what downloading the first listed file with the name defines. The cache is updated as GetChannel updates it. |
| Backend.Telegram.Get | Duplicati/Library/Backend/Telegram/TelegramBackend.cs:159-188 | Get runs its body under SafeExecute: the result, the number of runs and the seconds slept are those of the guarded call over the runs' downloads, each run resolving, listing and downloading anew. The stream holds the bytes of every run, one after the other. The cache is the one the runs' GetChannel calls leave. |
| Backend.Telegram.GetRestarting | Duplicati/Library/Backend/Telegram/TelegramBackend.cs:159-188 | Get with the stream rewound before each rerun: the same guarded call, and the stream holds only the last run's bytes. |
| Backend.Telegram.DeleteRun | Duplicati/Library/Backend/Telegram/TelegramBackend.cs:210-231 | One run of Delete's body sends the request of the delete plan and returns the server's answer. It sends nothing and returns for a missing name, and sends nothing and throws if the listing fails. |
| Backend.Telegram.Delete | Duplicati/Library/Backend/Telegram/TelegramBackend.cs:208-233 | Delete runs its body under SafeExecute: the result, the number of runs and the seconds slept are those of the guarded call over the runs' plans and answers, each run resolving and listing anew. The requests sent are those of the runs' plans, one after the other. The cache is the one the runs' GetChannel calls leave. |
| Backend.Telegram.EnsureChannelCreated | Duplicati/Library/Backend/Telegram/TelegramBackend.cs:366-382 | If no channel is found, it requests a private, non-broadcast channel with the channel name as title and an empty description. A found channel means nothing is sent. A failed lookup is rethrown. The cache is the one GetChannel leaves: unset when no channel was found. |
| Backend.Telegram.Authenticate | Duplicati/Library/Backend/Telegram/TelegramBackend.cs:384-426 | Connects first. If connecting fails, nothing else changes. Otherwise the session's signed-in flag, its save count and the shared phone code hash become those of the sign-in step. |

## Left out

- TLSharp and the Telegram wire protocol are not modelled: serialisation, the session file's encryption, and what the server does with a request. Each remote call is an oracle parameter.
- PutAsync (upload) is not modelled. Its body is the TLSharp upload and send calls under the same guards. The path-based Put and Get overloads, which only open a file stream, are left out too.
- List, Test and CreateFolder are not modelled. They only compose Authenticate, EnsureChannelCreated and ListChannelFileInfos under SafeExecute.
- The session store is reduced to a count of saves.
- The process-wide lock, Thread.Sleep and Random are not modelled as such. The lock is not modelled; the sleeps are added up in `slept`; the random seconds are a parameter.
- Logging is not modelled, and neither are the backend's metadata (display name, protocol key, supported options).
- Dates are 32-bit epoch seconds. The conversion through `DateTime` in the history loop is the identity on them.
- Backend.Telegram.Get: the download's request count is bounded by `fuel`; the source would loop for ever on an endless run of packet-length errors or of empty chunks.
- Channels.FindChannel: the dialog pages are bounded by `fuel`; the source keeps paging for as long as the server sends full pages.
- Guard.SafeExecute: the reruns are bounded by the length of the scripted runs; the source recurses without bound while flood waits continue. The same holds for Backend.Telegram.Get and Backend.Telegram.Delete, whose reruns are bounded by the number of scripted rounds.
- Backend.Telegram.Authenticate: only the first EnsureConnected is modelled. The later connection checks before a remote call are folded into that call's scripted reply.
- Backend.Telegram.ListChannelFileInfos: the history oracle is the resolved channel's history, keyed by offset date. Each page for an offset is fixed, so a history that changes between requests is not modelled.
- Transfer.DownloadChunks: the 32-bit `currentOffset` is unbounded here, so its wrap-around past 2 GiB is not modelled.
- Text.ParseInt32: `int.Parse` is modelled for ASCII digits, an optional sign and surrounding white space. Culture-specific signs and trailing null characters are not modelled.

## Findings

| source | as written | input that shows it | evidently intended | confidence | as-written member | corrected member |
|---|---|---|---|---|---|---|
| Duplicati/Library/Backend/Telegram/TelegramBackend.cs:159-188 | After a flood wait, SafeExecute (lines 472-477) reruns Get's whole body on the same stream. The bytes of the interrupted run stay in the stream, and the rerun writes the file again from offset 0 after them. | A file longer than one chunk (1 MiB) whose first download gets one chunk and then a flood wait, and whose second download succeeds: Get reports success, and the stream holds the first chunk followed by the whole file. | The stream holds exactly the file, so each rerun starts from an empty stream. | medium, not executed | Backend.GetRerunRepeatsBytes | Backend.Telegram.GetRestarting |
