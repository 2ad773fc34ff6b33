# IVS stream sessions — a Dafny model

This project models the record logic of the IVS live-stream service. The
`IVS` class (`ivs.js`, repeated as the class in `tvs.js`) keeps stream
sessions in a wide-column store and viewer presence in a key/set store. Its
static methods each read a record, transform it and write it back:

- create a session;
- merge updates into it;
- record joins and leaves;
- register tips and keep the tip board (leaderboard) of the stats row;
- set goal progress, add announcements, log toy actions, manage
  collaborators;
- decide open access.

The provisioning `createStream` in `tvs.js` first obtains a channel and a
stream key from the video provider and stores a channel row.
`StreamManager.createStream` (`ivs/streamManger.js`) is the plain
session-creation path.

Layout:

- `Records.dfy` holds the records: Stream, Stats, Goal, Tip, JoinEntry,
  ChannelRecord and the DDL enumerations. It also holds the initial stream,
  the merge of `updateStream`, and the access check of `validateUserAccess`.
- `TipBoard.dfy` covers the board: the find-or-append upsert, and
  `Array.prototype.sort` with the comparator `b.total - a.total`, modelled as
  a stable insertion sort. It proves the sort orders, permutes, is stable,
  and is the only stable order. It also defines the stats row written by
  `updateTipBoard`.
- `Ledger.dfy` relates the tips list of a Stream to `tips_total` and the
  board of its stats row. Any sequence of `registerTip` calls keeps them
  consistent.
- `Goals.dfy` models `setGoalProgress`. `Presence.dfy` models the active-set
  updates and the join log of `joinStream` and `leaveStream`.
- `IvsService.dfy` contains the class `Ivs`, whose fields are the stores. Each
  operation is a method that states the whole new state in terms of the
  functions above.
- `StreamManager.dfy` contains `StreamManager.createStream`.

Fresh ids (`crypto.randomUUID()`) and the current time are parameters.

The store client (`ScyllaDb.js`) is not part of this model. Its behaviour is
fixed as follows:

- a `get` of a missing key yields nothing, so the next property access
  throws. The model returns `MissingStream` or `MissingStats` and writes
  nothing;
- `update` merges into an existing row; on a missing row it writes nothing
  (assumed);
- `increment` adds to a column and, on a missing row, creates the row
  (`DefaultStats`). likes, tip_board and toys_log take the IVSStats column
  defaults (`tvs.js:308-320`) and highest_tipper is null. That DDL declares
  no `tips_total` column, so a starting `tips_total` of zero is an
  assumption of this model, not a column default;
- `insert` puts a row;
- `updateWhere` updates every matching row.

Checks the code does not make, and behaviour that follows from that:

- `updateStream` accepts any status from any status (`AnyStatusAccepted`).
- `createStream` checks no required field. `creator_user_id`, `title` and
  `access_type` (and `channel_id` in the plain path) are destructured with no
  default, so a missing one is stored as `undefined`. The model makes them
  mandatory (`CreateParams`, the `channelId` parameter), relying on the NOT
  NULL columns of the IVSStreams DDL (`tvs.js:265-267`, `tvs.js:271`).
- `registerTip` accepts any amount, including zero and negative ones.
- `joinStream` inserts a new log entry on every call, even for a user
  already in the active set.
- `leaveStream` stamps `left_at` on every entry of the (stream, user) pair,
  including entries already closed (`SecondLeaveRestamps`).
- Board entries carry only a user and a total. Equal totals keep their
  previous relative order because the sort is stable (`SortStable`,
  `StableSortIsUnique`).

## Model

| member | source | states |
|---|---|---|
| Records.InitialStream | ivs.js:28-63 | the new session has the given id, channel and creator, status offline, every engagement list empty, created_at = updated_at = now, and each omitted option takes its default (not private, pricing free, description "", no tags, comments allowed, no collaborators) |
| Records.ApplyPatch | ivs.js:84-86 | updateStream stamps updated_at with now; each of title, description, access type, privacy, pricing, comments flag, status and tags takes the patch's value when the patch carries one and keeps the stored one otherwise; every other field is as stored |
| Records.AnyStatusAccepted | tvs.js:90-94 | a patch carrying only a status moves a stream to any status from any status, touching only status and updated_at |
| Records.Contains | ivs.js:182 | `includes` holds exactly when the searched text occurs at some position of the string |
| Records.OpenNameExactly | ivs.js:182 | of the stored access-type names, exactly open_free and open_paid include "open" |
| Records.GrantsOpenAccess | ivs.js:180-185 | the `includes("open")` test on the access type holds exactly for open_free and open_paid |
| Records.ContainsHasChars | ivs.js:182 | every character of the searched text occurs in a string that includes it |
| Records.DefaultStats | ivs.js:136 | the stats row an increment creates has zero likes and tips_total, an empty board and toys log and no highest tipper |
| TipBoard.Find | ivs.js:144 | `find` returns the first entry with the user's id, or one past the end when there is none |
| TipBoard.FindPresent | ivs.js:144-146 | find hits an entry exactly when the user is on the board |
| TipBoard.Upsert | ivs.js:144-146 | the board keeps its length when the tipper is already on it and grows by one entry otherwise |
| TipBoard.UpsertShape | ivs.js:145-146 | an existing tipper's entry has its total raised by the amount; a new tipper is appended with the amount |
| TipBoard.UpsertTotals | ivs.js:144-146 | after the upsert the tipper's board total rises by the amount and every other user's total is unchanged |
| TipBoard.UpsertIds | ivs.js:144-146 | the upsert adds the tipper to the board's set of users and no one else |
| TipBoard.UpsertUnique | ivs.js:144-146 | a board with one entry per user keeps one entry per user |
| TipBoard.UpsertSum | ivs.js:144-146 | the board's totals sum grows by exactly the amount |
| TipBoard.Insert | ivs.js:147-149 | inserting an entry into the board lengthens it by exactly one |
| TipBoard.SortByTotalDesc | ivs.js:147-149 | the sorted board has the length of the input; its order, permutation and stability are the lemmas below |
| TipBoard.SortPermutes | ivs.js:147-149 | sorting the board reorders its entries without adding or losing any (same multiset) |
| TipBoard.SortSorts | ivs.js:147-149 | the sorted board is non-increasing in total |
| TipBoard.InsertStable | ivs.js:147-148 | inserting one entry puts it ahead of the entries with its total and leaves their order unchanged |
| TipBoard.SortStable | ivs.js:147-149 | for every total, the entries with that total keep their original relative order |
| TipBoard.StableSortIsUnique | ivs.js:147-149 | any non-increasing board with the same equal-total runs as the input is the sort's result, so the result does not depend on the sorting algorithm |
| TipBoard.SortedRunsDetermine | ivs.js:147-149 | two non-increasing boards with the same equal-total runs are equal |
| TipBoard.SortKeepsSorted | ivs.js:153-156 | sorting an already sorted board leaves it as it is, so reading the stored board back returns it unchanged |
| TipBoard.SortSum | ivs.js:147-149 | sorting keeps the sum of totals |
| TipBoard.SortUnique | ivs.js:147-149 | sorting keeps one entry per user |
| TipBoard.SortTotals | ivs.js:147-149 | on a board with one entry per user, sorting keeps every user's board total |
| TipBoard.PermutationSameIds | ivs.js:147-149 | boards with the same entries have the same users |
| TipBoard.BoardOf | ivs.js:143 | the empty-list fallback for `stats.tip_board`: a stored board reads as itself, an absent one as empty |
| TipBoard.TipBoardUpdate | ivs.js:141-151 | updateTipBoard leaves likes, tips_total and toys log alone, writes a non-empty board whose sum grew by the amount, and names the first entry's user highest_tipper |
| TipBoard.TipBoardUpdateSorted | ivs.js:141-151 | the written board is the upserted board (same multiset) in non-increasing order, and its first entry has the largest total |
| TipBoard.TipBoardUpdateTotals | ivs.js:141-151 | the written board keeps one entry per user, raises the tipper's total by the amount and leaves every other total unchanged |
| TipBoard.HighestTipperIsMaximal | ivs.js:147-149 | no user on the board has a larger total than highest_tipper |
| TipBoard.Leaderboard | ivs.js:153-156 | getTipLeaderboard returns the stored board (empty when absent) as a non-increasing permutation |
| Ledger.NewTip | ivs.js:117-131 | the tip carries the user, amount, gift and time, and an omitted message becomes "" |
| Ledger.StatsRow | ivs.js:136 | the stats row the increment works on: the stored row, or when none is stored the created row with zero tips_total and an empty board |
| Ledger.ApplyTip | ivs.js:136-137 | the increment plus updateTipBoard raise tips_total and the board sum by the amount and name the board's head highest_tipper |
| Ledger.TipKeepsConsistent | ivs.js:117-151 | if tips_total, the board sum and every board total agree with the tips list, they still agree after a registerTip |
| Ledger.ReplayConsistent | ivs.js:117-151 | after any sequence of tips on a stream with no stats row: tips_total and the board sum equal the sum of amounts, each user's board total equals the sum of that user's tips, users are unique and the board is sorted |
| Goals.SetProgress | ivs.js:158-166 | goals with the id get progress = amount and achieved = (amount >= target), with every other field kept; other goals are unchanged; the list length is kept |
| Goals.UnknownGoalUnchanged | ivs.js:160-164 | an id no goal has leaves the goal list as it was |
| Goals.SetProgressKeepsIds | ivs.js:160-164 | the goal ids and their order are unchanged |
| Goals.SetProgressKeepsCoherent | ivs.js:162 | if every goal's achieved flag matches progress >= target, it still does |
| Goals.LastSettingWins | tvs.js:152-158 | setting a goal twice is the same as setting it to the later amount |
| Presence.AddMember | ivs.js:99 | the stream's active set gains the user; other streams' sets are unchanged |
| Presence.RemoveMember | ivs.js:104 | the stream's active set loses the user; other streams' sets are unchanged |
| Presence.MembershipIdempotent | tvs.js:105-110 | adding a present member twice is one add, and removing an absent member changes nothing |
| Presence.JoinJoinLeaveCount | ivs.js:99-104 | two users join an empty stream and the first leaves: one viewer remains |
| Presence.JoinRecord | ivs.js:91-97 | the join-log entry is open (no left_at), stamped now, with role viewer unless one is given |
| Presence.CloseEntries | ivs.js:105-109 | every log entry of the (stream, user) pair gets left_at = now; all other entries are unchanged |
| Presence.LeaveClosesPair | ivs.js:105-109 | after a leave no entry of the pair is open |
| Presence.SecondLeaveRestamps | tvs.js:111 | a second leave re-stamps every entry of the pair with the later time |
| Presence.CloseAppend | ivs.js:105-109 | closing a log with an entry appended is closing the log and then closing the entry |
| Presence.JoinThenLeave | ivs.js:90-111 | a join followed by a leave closes the new entry at the leave's time and leaves other pairs' entries alone |
| IvsService.ChannelFor | tvs.js:413-426 | the channel row is keyed by the creator, names the provider channel, stores its ARN and playback URL, copies the description and tags (empty when omitted), has an empty thumbnail, language and category, no followers, and is stamped now |
| IvsService.AddOnce | ivs.js:218-219 | the user ends up in the list; an existing user leaves the list unchanged; otherwise the user is appended after the old list |
| IvsService.AddOnceIdempotent | ivs.js:216-224 | adding a collaborator twice is adding once, and a list without duplicates stays without duplicates |
| IvsService.LogToy | ivs.js:188-191 | the toys log (empty if absent) gains one entry stamped now; the rest of the stats row is unchanged |
| IvsService.Ivs.constructor | ivs.js:7-10 | all four tables and the active sets start empty |
| IvsService.Ivs.CreateStream | ivs.js:28-69 | the initial record is inserted under the fresh id and returned; no other store changes |
| IvsService.Ivs.UpdateStream | ivs.js:84-88 | a stored stream is replaced by its merge with the patch; a missing one is not created; nothing else changes |
| IvsService.Ivs.JoinStream | ivs.js:90-101 | one join entry is appended to the log and the user is in the stream's active set |
| IvsService.Ivs.LeaveStream | ivs.js:103-111 | the user is out of the stream's active set and every log entry of the pair is closed |
| IvsService.Ivs.RegisterTip | ivs.js:117-139 | a missing stream fails with nothing written; otherwise the tip is appended to the stream, the stats row becomes ApplyTip of the old row (or of the defaults), and ledger consistency is preserved |
| IvsService.Ivs.UpdateTipBoard | ivs.js:141-151 | the stats row becomes TipBoardUpdate of the stored row, computed step by step (find, raise or push, sort, head) on the fetched board; a missing row fails with nothing written |
| IvsService.Ivs.GetTipLeaderboard | ivs.js:153-156 | the leaderboard of the stored row, sorted and a permutation of the stored board; a missing row is an error |
| IvsService.Ivs.SetGoalProgress | ivs.js:158-166 | the stream's goals become SetProgress of the stored goals; a missing stream fails with nothing written |
| IvsService.Ivs.AddAnnouncement | ivs.js:168-178 | one announcement stamped now is appended; a missing stream fails with nothing written |
| IvsService.Ivs.ValidateUserAccess | ivs.js:180-185 | true exactly for open_free and open_paid, whoever the user is; a missing stream is an error |
| IvsService.Ivs.LogToyAction | ivs.js:187-192 | the stats row becomes LogToy of the stored row; a missing row fails with nothing written |
| IvsService.Ivs.AddCollaborator | ivs.js:216-224 | the collaborators become AddOnce of the stored list, and an existing collaborator leaves the stores unchanged |
| IvsService.Ivs.ListCollaborators | ivs.js:226-229 | the stored collaborator list; a missing stream is an error |
| IvsService.Ivs.CreateProvisionedStream | tvs.js:382-465 | fails with nothing written exactly when the provider channel, the stream key or the channel-row insert fails; otherwise it stores the channel row and a session whose channel_id is the channel ARN and which carries the stream key, and returns the record with the ingest endpoint and playback URL |
| IvsService.FirstTipRow | ivs.js:141-151 | a first tip of 50 by u1 on a stream with no stats row gives the board [u1:50] |
| IvsService.SecondTipRow | ivs.js:141-151 | from [u1:50], a tip of 80 by the new tipper u2 gives [u2:80, u1:50] |
| IvsService.ThirdTipRow | ivs.js:141-151 | from [u2:80, u1:50], a tip of 40 by u1 gives [u1:90, u2:80] |
| IvsService.ThreeTipsRows | ivs.js:141-151 | tips of 50 by u1, 80 by u2, then 40 by u1 give boards [u1:50], [u2:80, u1:50], [u1:90, u2:80] |
| IvsService.TipScenario | ivs.js:117-156 | on a new stream the leaderboard after the first two tips is [u2:80, u1:50], and after u1 tips again it is [u1:90, u2:80] |
| StreamManager.CreateStream | ivs/streamManger.js:16-57 | the streams table gains the new record under the fresh id, and the record is the initial stream of the call: the caller's title, access type, creator and channel, each supplied option or its default, status offline, empty engagement lists, one timestamp and no stream key |

## Left out

- The calls to the video provider (`CreateChannelCommand`, `CreateStreamKeyCommand`) are not modelled. Their results are parameters of `CreateProvisionedStream`. `ivs/ivs.js` and `ivs/ivsClient.js` (the provider wrappers) are not part of this model. Neither are `deleteChannel`, `listAllChannels`, `countAllChannels`, `channelExists` and `validateChannel` in `tvs.js`, which only forward to the provider.
- `getChannelMeta`, `updateChannel`, `listChannelStreams`, `getStats`, `getSessionType`, `getActiveStreams`, `setTrailer`, `setThumbnail` and `incrementLike` are left out. Each is one pass-through read or write to the store with no logic of its own.
- Event and error logging (`logEvent`, `logError`) in `ivs.js` and `tvs.js` is left out. There it is console output only.
- StreamManager.CreateStream: `ivs/streamManger.js` default-imports `logEvent` and `logError`, but `utils/logEvent.js` and `utils/logError.js` export them only by name. As a native module the file fails to link. Under CommonJS interop the `logEvent` call after the insert throws, so `createStream` rejects instead of returning the record. The model describes the body as if the logger had loaded.
- Store calls are assumed to succeed, except the channel insert of the provisioning `createStream` (`channelStored`). `registerTip` makes three separate writes: the tips update, the increment of `tips_total` and the board write-back of `updateTipBoard`. A failure between them would leave tips, `tips_total` and the board disagreeing. The ledger invariant (`Ledger.TipKeepsConsistent`, `IvsService.Ivs.RegisterTip`) is proved only for runs in which every write succeeds.
- Concurrency is not modelled. Each operation runs alone. Interleaved `registerTip` calls can lose updates through read-modify-write, and the model does not capture that.
- The key/set store is assumed configured. Without `REDIS_URL`, `joinStream` and `leaveStream` throw on the missing client; that path is not modelled.
- JavaScript numbers are modelled as unbounded integers. Floating-point amounts and rounding are not modelled.
- `ScyllaDb.js` is not part of this model. The behaviour assumed for its `get`, `update`, `increment`, `insert` and `updateWhere` is stated above.
- Records.ApplyPatch: only the fields of `StreamPatch` can be updated. The source merges arbitrary keys: ones this model does not store, such as `trailer_url` and `thumbnail_url`, and also stored fields such as `tips`, `goals`, `collaborators`, `announcements`, `created_at` and `id`. A patch such as `{tips: []}` would empty the tip list that the ledger invariant is about; the model does not allow it.
- IvsService.Ivs.JoinStream: the join log is a sequence, not a table keyed by `id`. The entry id is assumed fresh, as `crypto.randomUUID()` makes it; a reused id would give two rows where the table keeps one.
- IvsService.Ivs.UpdateStream: `updateStream` also writes `updated_at` into the caller's own `updates` object. The patch is a value here, so that effect on the caller is not modelled.
- IvsService.Ivs.ListCollaborators: the `|| []` fallback is not modelled, because a stored Stream always has a collaborator list here.
- IvsService.Ivs.CreateProvisionedStream: the channel name's construction from the creator id and `Date.now()` is not modelled; the provider's channel name is a parameter.
- The prose and frontend notes that follow the code in `tvs.js` are not code and are not modelled.
