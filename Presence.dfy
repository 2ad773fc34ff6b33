/** Viewer presence: the per-stream active set kept in the key/set store
    under `stream:<id>:active`, and the join-log table. joinStream adds the
    user to the set and inserts an open log entry; leaveStream removes the
    user and stamps left_at on every log entry of that (stream, user) pair. */
module Presence {
  import opened Records

  type ActiveSets = map<StreamId, set<UserId>>

  /** The members of a stream's active set; a missing key is an empty set. */
  function Members(active: ActiveSets, sid: StreamId): set<UserId>
  {
    if sid in active then active[sid] else {}
  }

  /** The set-add of joinStream. */
  function AddMember(active: ActiveSets, sid: StreamId, u: UserId): (r: ActiveSets)
    ensures Members(r, sid) == Members(active, sid) + {u}
    ensures forall other :: other != sid ==> Members(r, other) == Members(active, other)
  {
    active[sid := Members(active, sid) + {u}]
  }

  /** The set-remove of leaveStream; removing from a missing key does nothing. */
  function RemoveMember(active: ActiveSets, sid: StreamId, u: UserId): (r: ActiveSets)
    ensures Members(r, sid) == Members(active, sid) - {u}
    ensures forall other :: other != sid ==> Members(r, other) == Members(active, other)
  {
    if sid in active then active[sid := active[sid] - {u}] else active
  }

  /** Adding a present member, or removing an absent one, changes no set. */
  lemma MembershipIdempotent(active: ActiveSets, sid: StreamId, u: UserId)
    ensures AddMember(AddMember(active, sid, u), sid, u) == AddMember(active, sid, u)
    ensures u !in Members(active, sid) ==> forall s :: Members(RemoveMember(active, sid, u), s) == Members(active, s)
  {
  }

  /** Join u1, join u2, leave u1 on an empty stream leaves one viewer. */
  lemma JoinJoinLeaveCount(active: ActiveSets, sid: StreamId, u1: UserId, u2: UserId)
    requires Members(active, sid) == {} && u1 != u2
    ensures |Members(RemoveMember(AddMember(AddMember(active, sid, u1), sid, u2), sid, u1), sid)| == 1
  {
    assert Members(RemoveMember(AddMember(AddMember(active, sid, u1), sid, u2), sid, u1), sid) == {u2};
  }

  /** The entry joinStream inserts: open (no left_at), role viewer unless given. */
  function JoinRecord(id: EntryId, sid: StreamId, u: UserId, role: Option<Role>, now: Timestamp): (e: JoinEntry)
    ensures e.id == id && e.streamId == sid && e.userId == u && e.joinedAt == now
    ensures e.leftAt == None
    ensures e.role == (if role.Some? then role.value else Viewer)
  {
    JoinEntry(id, sid, u, now, role.GetOr(Viewer), None)
  }

  predicate Matches(e: JoinEntry, sid: StreamId, u: UserId)
  {
    e.streamId == sid && e.userId == u
  }

  /** The updateWhere of leaveStream: every entry of the pair, open or
      already closed, gets left_at = now; other entries are untouched. */
  function CloseEntries(log: seq<JoinEntry>, sid: StreamId, u: UserId, now: Timestamp): (r: seq<JoinEntry>)
    ensures |r| == |log|
    ensures forall i :: 0 <= i < |log| && Matches(log[i], sid, u) ==> r[i] == log[i].(leftAt := Some(now))
    ensures forall i :: 0 <= i < |log| && !Matches(log[i], sid, u) ==> r[i] == log[i]
  {
    if log == [] then []
    else
      [if Matches(log[0], sid, u) then log[0].(leftAt := Some(now)) else log[0]]
      + CloseEntries(log[1..], sid, u, now)
  }

  /** After a leave no entry of the pair is open. */
  lemma LeaveClosesPair(log: seq<JoinEntry>, sid: StreamId, u: UserId, now: Timestamp)
    ensures forall i :: 0 <= i < |log| && Matches(log[i], sid, u) ==> CloseEntries(log, sid, u, now)[i].leftAt == Some(now)
  {
  }

  /** A second leave restamps every entry of the pair with the later time:
      closing is not idempotent unless the time is the same. */
  lemma SecondLeaveRestamps(log: seq<JoinEntry>, sid: StreamId, u: UserId, first: Timestamp, second: Timestamp)
    ensures CloseEntries(CloseEntries(log, sid, u, first), sid, u, second) == CloseEntries(log, sid, u, second)
  {
  }

  /** Closing commutes with appending: a join followed by a leave closes the
      new entry as well as every earlier entry of the pair. */
  lemma {:induction false} CloseAppend(log: seq<JoinEntry>, e: JoinEntry, sid: StreamId, u: UserId, now: Timestamp)
    ensures CloseEntries(log + [e], sid, u, now)
            == CloseEntries(log, sid, u, now) + CloseEntries([e], sid, u, now)
  {
    var l, r := CloseEntries(log + [e], sid, u, now), CloseEntries(log, sid, u, now) + CloseEntries([e], sid, u, now);
    assert |l| == |r|;
    forall i | 0 <= i < |l| ensures l[i] == r[i] {
      if i < |log| {
        assert (log + [e])[i] == log[i];
      } else {
        assert (log + [e])[i] == e;
      }
    }
  }

  /** join then leave: the entry the join inserted ends up closed at the
      leave's time, and the entries of other pairs do not change. */
  lemma JoinThenLeave(log: seq<JoinEntry>, id: EntryId, sid: StreamId, u: UserId, role: Option<Role>, joined: Timestamp, left: Timestamp)
    ensures var r := CloseEntries(log + [JoinRecord(id, sid, u, role, joined)], sid, u, left);
            && |r| == |log| + 1
            && r[|log|] == JoinRecord(id, sid, u, role, joined).(leftAt := Some(left))
            && forall i :: 0 <= i < |log| && !Matches(log[i], sid, u) ==> r[i] == log[i]
  {
    CloseAppend(log, JoinRecord(id, sid, u, role, joined), sid, u, left);
  }
}
