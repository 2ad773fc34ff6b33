/** The IVS service: the operations of the IVS class over its stores. The
    durable tables (streams, stats, channels, join logs) and the key/set
    store of active viewers are the fields of one object; each operation
    reads a record, transforms it and writes it back, as the static methods
    do. Fresh ids and the current time are parameters. */
module IvsService {
  import opened Records
  import opened TipBoard
  import opened Ledger
  import opened Goals
  import opened Presence

  /** What the video provider reports for a channel it created. */
  datatype ProviderChannel = ProviderChannel(arn: string, name: string, playbackUrl: string, ingestEndpoint: string)

  /** What the provisioning createStream returns: the stored record plus the
      provider's ingest endpoint and playback URL. */
  datatype ProvisionedStream = ProvisionedStream(item: Stream, ingestEndpoint: string, playbackUrl: string)

  /** The channel row the provisioning createStream inserts for the creator. */
  function ChannelFor(p: CreateParams, ch: ProviderChannel, now: Timestamp): (c: ChannelRecord)
    ensures c.id == p.creatorUserId && c.name == ch.name
    ensures c.awsChannelArn == ch.arn && c.playbackUrl == ch.playbackUrl
    ensures c.followers == 0 && c.createdAt == now && c.updatedAt == now
    ensures c.description == (if p.description.Some? then p.description.value else "")
    ensures c.tags == (if p.tags.Some? then p.tags.value else [])
    ensures c.profileThumbnail == "" && c.language == "" && c.category == ""
  {
    ChannelRecord(p.creatorUserId, ch.name, p.description.GetOr(""), "", p.tags.GetOr([]),
                  "", "", 0, ch.arn, ch.playbackUrl, now, now)
  }

  /** No user appears twice. */
  predicate NoDuplicates(users: seq<UserId>)
  {
    forall i, j :: 0 <= i < j < |users| ==> users[i] != users[j]
  }

  /** The collaborator list after addCollaborator: the user is appended
      unless already present. */
  function AddOnce(users: seq<UserId>, u: UserId): (r: seq<UserId>)
    ensures u in r
    ensures u in users ==> r == users
    ensures u !in users ==> |r| == |users| + 1 && r[..|users|] == users && r[|users|] == u
  {
    if u in users then users else users + [u]
  }

  /** Adding the same collaborator again changes nothing, and a list without
      duplicates stays without duplicates. */
  lemma AddOnceIdempotent(users: seq<UserId>, u: UserId)
    ensures AddOnce(AddOnce(users, u), u) == AddOnce(users, u)
    ensures NoDuplicates(users) ==> NoDuplicates(AddOnce(users, u))
  {
    if NoDuplicates(users) && u !in users {
      var r := users + [u];
      forall i, j | 0 <= i < j < |r| ensures r[i] != r[j] {
        if j == |users| { assert r[i] == users[i]; }
      }
    }
  }

  /** The toys log after logToyAction: an absent log becomes empty, then one
      entry is appended. */
  function LogToy(st: Stats, data: Payload, now: Timestamp): (r: Stats)
    ensures r.toysLog.Some?
    ensures r.toysLog.value == (if st.toysLog.Some? then st.toysLog.value else []) + [ToyEntry(data, now)]
    ensures r.(toysLog := st.toysLog) == st
  {
    st.(toysLog := Some(st.toysLog.GetOr([]) + [ToyEntry(data, now)]))
  }

  class Ivs {
    var streams: map<StreamId, Stream>
    var stats: map<StreamId, Stats>
    var channels: map<UserId, ChannelRecord>
    var active: ActiveSets
    var joinLog: seq<JoinEntry>

    constructor ()
      ensures streams == map[] && stats == map[] && channels == map[]
      ensures active == map[] && joinLog == []
    {
      streams, stats, channels, active, joinLog := map[], map[], map[], map[], [];
    }

    /** createStream: inserts the initial record under a fresh id and
        returns it. */
    method CreateStream(p: CreateParams, channelId: string, id: StreamId, now: Timestamp) returns (item: Stream)
      modifies this
      ensures item == InitialStream(id, channelId, p, now, None)
      ensures streams == old(streams)[id := item]
      ensures stats == old(stats) && channels == old(channels)
      ensures active == old(active) && joinLog == old(joinLog)
    {
      item := InitialStream(id, channelId, p, now, None);
      streams := streams[id := item];
    }

    /** updateStream: merges the patch into the stored record and stamps
        updated_at; no status transition is checked. */
    method UpdateStream(sid: StreamId, patch: StreamPatch, now: Timestamp)
      modifies this
      ensures sid in old(streams) ==> streams == old(streams)[sid := ApplyPatch(old(streams)[sid], patch, now)]
      ensures sid !in old(streams) ==> streams == old(streams)
      ensures stats == old(stats) && channels == old(channels)
      ensures active == old(active) && joinLog == old(joinLog)
    {
      if sid in streams {
        streams := streams[sid := ApplyPatch(streams[sid], patch, now)];
      }
    }

    /** joinStream: always inserts a new open log entry, then adds the user
        to the stream's active set. */
    method JoinStream(sid: StreamId, u: UserId, role: Option<Role>, entryId: EntryId, now: Timestamp)
      modifies this
      ensures joinLog == old(joinLog) + [JoinRecord(entryId, sid, u, role, now)]
      ensures active == AddMember(old(active), sid, u)
      ensures u in Members(active, sid)
      ensures streams == old(streams) && stats == old(stats) && channels == old(channels)
    {
      joinLog := joinLog + [JoinRecord(entryId, sid, u, role, now)];
      active := AddMember(active, sid, u);
    }

    /** leaveStream: removes the user from the active set and closes every
        log entry of the pair. */
    method LeaveStream(sid: StreamId, u: UserId, now: Timestamp)
      modifies this
      ensures active == RemoveMember(old(active), sid, u)
      ensures u !in Members(active, sid)
      ensures joinLog == CloseEntries(old(joinLog), sid, u, now)
      ensures streams == old(streams) && stats == old(stats) && channels == old(channels)
    {
      active := RemoveMember(active, sid, u);
      joinLog := CloseEntries(joinLog, sid, u, now);
    }

    /** registerTip: appends the tip to the stream, increments tips_total
        (creating the stats row with its defaults if there is none) and
        runs updateTipBoard. A missing stream stops it before any write. */
    method RegisterTip(sid: StreamId, u: UserId, amount: int, message: Option<string>, giftId: Option<GiftId>, now: Timestamp)
      returns (r: Outcome)
      modifies this
      ensures r == (if sid in old(streams) then Pass else Fail(MissingStream))
      ensures sid !in old(streams) ==> streams == old(streams) && stats == old(stats)
      ensures sid in old(streams) ==>
        && streams == old(streams)[sid := old(streams)[sid].(tips := old(streams)[sid].tips + [NewTip(u, amount, message, giftId, now)])]
        && stats == old(stats)[sid := ApplyTip(StatsRow(old(stats), sid), NewTip(u, amount, message, giftId, now))]
      ensures sid in old(streams) && Consistent(old(streams)[sid].tips, StatsRow(old(stats), sid)) ==>
        Consistent(streams[sid].tips, stats[sid])
      ensures channels == old(channels) && active == old(active) && joinLog == old(joinLog)
    {
      if sid !in streams {
        return Fail(MissingStream);
      }
      var stream := streams[sid];
      var tip := NewTip(u, amount, message, giftId, now);
      streams := streams[sid := stream.(tips := stream.tips + [tip])];
      var row := StatsRow(stats, sid);
      stats := stats[sid := row.(tipsTotal := row.tipsTotal + amount)];
      r := UpdateTipBoard(sid, u, amount);
      assert stats[sid] == ApplyTip(row, tip);
      assert streams[sid].tips == stream.tips + [tip];
      if Consistent(stream.tips, row) {
        TipKeepsConsistent(stream.tips, row, tip);
      }
    }

    /** updateTipBoard: re-reads the stats row, raises the tipper's entry or
        appends one, sorts the board by descending total, names the first
        entry's user highest_tipper and writes the whole row back. */
    method UpdateTipBoard(sid: StreamId, u: UserId, amount: int) returns (r: Outcome)
      modifies this
      ensures r == (if sid in old(stats) then Pass else Fail(MissingStats))
      ensures sid in old(stats) ==> stats == old(stats)[sid := TipBoardUpdate(old(stats)[sid], u, amount)]
      ensures sid !in old(stats) ==> stats == old(stats)
      ensures streams == old(streams) && channels == old(channels)
      ensures active == old(active) && joinLog == old(joinLog)
    {
      if sid !in stats {
        return Fail(MissingStats);
      }
      var row := stats[sid];
      var board := BoardOf(row);
      var i := Find(board, u);
      if i < |board| {
        board := board[i := board[i].(total := board[i].total + amount)];
      } else {
        board := board + [BoardEntry(u, amount)];
      }
      board := SortByTotalDesc(board);
      var highest := if |board| > 0 then Some(board[0].userId) else None;
      stats := stats[sid := row.(tipBoard := Some(board), highestTipper := highest)];
      r := Pass;
    }

    /** getTipLeaderboard: the stored board (empty if absent) sorted by
        descending total; the store is not written. */
    method GetTipLeaderboard(sid: StreamId) returns (r: Result<seq<BoardEntry>>)
      ensures sid !in stats ==> r == Err(MissingStats)
      ensures sid in stats ==> r.Ok? && r.value == Leaderboard(stats[sid])
      ensures sid in stats ==> Sorted(r.value) && multiset(r.value) == multiset(BoardOf(stats[sid]))
    {
      if sid !in stats {
        return Err(MissingStats);
      }
      r := Ok(Leaderboard(stats[sid]));
    }

    /** setGoalProgress: rewrites the goal list with the matching goals
        updated; an unknown goal id writes the list back unchanged. */
    method SetGoalProgress(sid: StreamId, goalId: GoalId, amount: int) returns (r: Outcome)
      modifies this
      ensures r == (if sid in old(streams) then Pass else Fail(MissingStream))
      ensures sid in old(streams) ==> streams == old(streams)[sid := old(streams)[sid].(goals := SetProgress(old(streams)[sid].goals, goalId, amount))]
      ensures sid !in old(streams) ==> streams == old(streams)
      ensures stats == old(stats) && channels == old(channels)
      ensures active == old(active) && joinLog == old(joinLog)
    {
      if sid !in streams {
        return Fail(MissingStream);
      }
      var stream := streams[sid];
      streams := streams[sid := stream.(goals := SetProgress(stream.goals, goalId, amount))];
      r := Pass;
    }

    /** addAnnouncement: appends one announcement stamped with `now`. */
    method AddAnnouncement(sid: StreamId, title: string, body: string, now: Timestamp) returns (r: Outcome)
      modifies this
      ensures r == (if sid in old(streams) then Pass else Fail(MissingStream))
      ensures sid in old(streams) ==> streams == old(streams)[sid := old(streams)[sid].(
        announcements := old(streams)[sid].announcements + [Announcement(title, body, now)])]
      ensures sid !in old(streams) ==> streams == old(streams)
      ensures stats == old(stats) && channels == old(channels)
      ensures active == old(active) && joinLog == old(joinLog)
    {
      if sid !in streams {
        return Fail(MissingStream);
      }
      var stream := streams[sid];
      streams := streams[sid := stream.(announcements := stream.announcements + [Announcement(title, body, now)])];
      r := Pass;
    }

    /** validateUserAccess: true exactly for the open access types; the
        user is not consulted. */
    method ValidateUserAccess(sid: StreamId, u: UserId) returns (r: Result<bool>)
      ensures sid !in streams ==> r == Err(MissingStream)
      ensures sid in streams ==> r == Ok(streams[sid].accessType == OpenFree || streams[sid].accessType == OpenPaid)
    {
      if sid !in streams {
        return Err(MissingStream);
      }
      var access := streams[sid].accessType;
      r := Ok(GrantsOpenAccess(access));
    }

    /** logToyAction: appends one stamped entry to the stats row's toys log. */
    method LogToyAction(sid: StreamId, data: Payload, now: Timestamp) returns (r: Outcome)
      modifies this
      ensures r == (if sid in old(stats) then Pass else Fail(MissingStats))
      ensures sid in old(stats) ==> stats == old(stats)[sid := LogToy(old(stats)[sid], data, now)]
      ensures sid !in old(stats) ==> stats == old(stats)
      ensures streams == old(streams) && channels == old(channels)
      ensures active == old(active) && joinLog == old(joinLog)
    {
      if sid !in stats {
        return Fail(MissingStats);
      }
      stats := stats[sid := LogToy(stats[sid], data, now)];
      r := Pass;
    }

    /** addCollaborator: appends the user unless already listed, in which
        case nothing is written. */
    method AddCollaborator(sid: StreamId, u: UserId) returns (r: Outcome)
      modifies this
      ensures r == (if sid in old(streams) then Pass else Fail(MissingStream))
      ensures sid in old(streams) ==> streams == old(streams)[sid := old(streams)[sid].(collaborators := AddOnce(old(streams)[sid].collaborators, u))]
      ensures sid in old(streams) && u in old(streams)[sid].collaborators ==> streams == old(streams)
      ensures sid !in old(streams) ==> streams == old(streams)
      ensures stats == old(stats) && channels == old(channels)
      ensures active == old(active) && joinLog == old(joinLog)
    {
      if sid !in streams {
        return Fail(MissingStream);
      }
      var stream := streams[sid];
      if u !in stream.collaborators {
        streams := streams[sid := stream.(collaborators := stream.collaborators + [u])];
      }
      r := Pass;
    }

    /** listCollaborators: the stored list. */
    method ListCollaborators(sid: StreamId) returns (r: Result<seq<UserId>>)
      ensures sid !in streams ==> r == Err(MissingStream)
      ensures sid in streams ==> r == Ok(streams[sid].collaborators)
    {
      if sid !in streams {
        return Err(MissingStream);
      }
      r := Ok(streams[sid].collaborators);
    }

    /** The provisioning createStream: the provider's channel and stream
        key, then the channel row, must all succeed before the Stream record
        is inserted; any failure is reported as one error and no Stream
        record is written. `channel` and `key` are what the provider
        returned (None for a failed call); `channelStored` is whether the
        channel row insert succeeded. */
    method CreateProvisionedStream(p: CreateParams, id: StreamId, now: Timestamp,
                                   channel: Option<ProviderChannel>, key: Option<string>, channelStored: bool)
      returns (r: Result<ProvisionedStream>)
      modifies this
      ensures r.Err? <==> (channel.None? || key.None? || !channelStored)
      ensures r.Err? ==> r.error == ProvisioningFailed && streams == old(streams) && channels == old(channels)
      ensures r.Ok? ==>
        && r.value.item == InitialStream(id, channel.value.arn, p, now, Some(key.value))
        && r.value.ingestEndpoint == channel.value.ingestEndpoint
        && r.value.playbackUrl == channel.value.playbackUrl
        && streams == old(streams)[id := r.value.item]
        && channels == old(channels)[p.creatorUserId := ChannelFor(p, channel.value, now)]
      ensures stats == old(stats) && active == old(active) && joinLog == old(joinLog)
    {
      if channel.None? || key.None? {
        return Err(ProvisioningFailed);
      }
      if !channelStored {
        return Err(ProvisioningFailed);
      }
      channels := channels[p.creatorUserId := ChannelFor(p, channel.value, now)];
      var item := InitialStream(id, channel.value.arn, p, now, Some(key.value));
      streams := streams[id := item];
      r := Ok(ProvisionedStream(item, channel.value.ingestEndpoint, channel.value.playbackUrl));
    }
  }

  /** The first tip, 50 by u1, on a stream with no stats row. */
  lemma FirstTipRow(t1: Tip)
    requires t1.userId == "u1" && t1.amount == 50
    ensures BoardOf(ApplyTip(DefaultStats(), t1)) == [BoardEntry("u1", 50)]
  {
    assert Upsert([], "u1", 50) == [BoardEntry("u1", 50)];
  }

  /** A new tipper, u2 with 80, goes ahead of u1's 50. */
  lemma SecondTipRow(st: Stats, t2: Tip)
    requires BoardOf(st) == [BoardEntry("u1", 50)]
    requires t2.userId == "u2" && t2.amount == 80
    ensures BoardOf(ApplyTip(st, t2)) == [BoardEntry("u2", 80), BoardEntry("u1", 50)]
  {
    assert Find([BoardEntry("u1", 50)], "u2") == 1;
    assert Upsert([BoardEntry("u1", 50)], "u2", 80) == [BoardEntry("u1", 50), BoardEntry("u2", 80)];
    assert SortByTotalDesc([BoardEntry("u2", 80)]) == [BoardEntry("u2", 80)];
    assert SortByTotalDesc([BoardEntry("u1", 50), BoardEntry("u2", 80)])
        == Insert(BoardEntry("u1", 50), [BoardEntry("u2", 80)])
        == [BoardEntry("u2", 80), BoardEntry("u1", 50)];
  }

  /** u1 tips 40 more and, at 90, takes the lead back from u2's 80. */
  lemma ThirdTipRow(st: Stats, t3: Tip)
    requires BoardOf(st) == [BoardEntry("u2", 80), BoardEntry("u1", 50)]
    requires t3.userId == "u1" && t3.amount == 40
    ensures BoardOf(ApplyTip(st, t3)) == [BoardEntry("u1", 90), BoardEntry("u2", 80)]
  {
    assert Find([BoardEntry("u2", 80), BoardEntry("u1", 50)], "u1") == 1;
    assert Upsert([BoardEntry("u2", 80), BoardEntry("u1", 50)], "u1", 40) == [BoardEntry("u2", 80), BoardEntry("u1", 90)];
    assert SortByTotalDesc([BoardEntry("u1", 90)]) == [BoardEntry("u1", 90)];
    assert SortByTotalDesc([BoardEntry("u2", 80), BoardEntry("u1", 90)])
        == Insert(BoardEntry("u2", 80), [BoardEntry("u1", 90)])
        == [BoardEntry("u1", 90), BoardEntry("u2", 80)];
  }

  /** The stats rows of one stream after tips of 50 by u1, 80 by u2 and 40
      by u1: the second tip takes the lead, the third takes it back. */
  lemma ThreeTipsRows(t1: Tip, t2: Tip, t3: Tip)
    requires t1.userId == "u1" && t1.amount == 50
    requires t2.userId == "u2" && t2.amount == 80
    requires t3.userId == "u1" && t3.amount == 40
    ensures BoardOf(ApplyTip(DefaultStats(), t1)) == [BoardEntry("u1", 50)]
    ensures BoardOf(ApplyTip(ApplyTip(DefaultStats(), t1), t2)) == [BoardEntry("u2", 80), BoardEntry("u1", 50)]
    ensures BoardOf(ApplyTip(ApplyTip(ApplyTip(DefaultStats(), t1), t2), t3)) == [BoardEntry("u1", 90), BoardEntry("u2", 80)]
  {
    FirstTipRow(t1);
    SecondTipRow(ApplyTip(DefaultStats(), t1), t2);
    ThirdTipRow(ApplyTip(ApplyTip(DefaultStats(), t1), t2), t3);
  }

  /** Two tippers, then a second tip from the first: the leaderboard after
      each step. */
  method TipScenario() returns (first: seq<BoardEntry>, second: seq<BoardEntry>)
    ensures first == [BoardEntry("u2", 80), BoardEntry("u1", 50)]
    ensures second == [BoardEntry("u1", 90), BoardEntry("u2", 80)]
  {
    var ivs := new Ivs();
    var params := CreateParams("c1", "T", OpenFree, None, None, None, None, None, None);
    var item := ivs.CreateStream(params, "ch1", "s1", "t0");
    var t1 := NewTip("u1", 50, None, None, "t1");
    var t2 := NewTip("u2", 80, None, None, "t2");
    var t3 := NewTip("u1", 40, None, None, "t3");
    ThreeTipsRows(t1, t2, t3);
    var r := ivs.RegisterTip("s1", "u1", 50, None, None, "t1");
    assert ivs.stats["s1"] == ApplyTip(DefaultStats(), t1);
    r := ivs.RegisterTip("s1", "u2", 80, None, None, "t2");
    assert ivs.stats["s1"] == ApplyTip(ApplyTip(DefaultStats(), t1), t2);
    var board := ivs.GetTipLeaderboard("s1");
    SortKeepsSorted(BoardOf(ivs.stats["s1"]));
    first := board.value;
    r := ivs.RegisterTip("s1", "u1", 40, None, None, "t3");
    assert ivs.stats["s1"] == ApplyTip(ApplyTip(ApplyTip(DefaultStats(), t1), t2), t3);
    board := ivs.GetTipLeaderboard("s1");
    SortKeepsSorted(BoardOf(ivs.stats["s1"]));
    second := board.value;
  }
}
