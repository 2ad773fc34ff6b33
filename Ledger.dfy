/** The tip ledger of one stream: the tips list on the Stream row against the
    tips_total and tip board of its stats row. registerTip appends a tip,
    increments tips_total, and then lets updateTipBoard re-read the row and
    upsert the board. Run one call at a time, these keep the stats row equal
    to what the tips list says. */
module Ledger {
  import opened Records
  import opened TipBoard

  /** The sum of all tip amounts. */
  function TipSum(tips: seq<Tip>): int
  {
    if tips == [] then 0 else TipSum(tips[..|tips| - 1]) + tips[|tips| - 1].amount
  }

  /** The sum of the amounts `u` has tipped. */
  function UserTipSum(tips: seq<Tip>, u: UserId): int
  {
    if tips == [] then 0
    else UserTipSum(tips[..|tips| - 1], u) + (if tips[|tips| - 1].userId == u then tips[|tips| - 1].amount else 0)
  }

  /** The tip registerTip appends; an omitted message is the empty string. */
  function NewTip(u: UserId, amount: int, message: Option<string>, giftId: Option<GiftId>, now: Timestamp): (t: Tip)
    ensures t.userId == u && t.amount == amount && t.giftId == giftId && t.timestamp == now
    ensures t.message == (if message.Some? then message.value else "")
  {
    Tip(u, amount, message.GetOr(""), giftId, now)
  }

  /** The stats row of a stream, or the row the table's defaults describe
      when the stream has none yet. */
  function StatsRow(stats: map<StreamId, Stats>, sid: StreamId): (r: Stats)
    ensures sid in stats ==> r == stats[sid]
    ensures sid !in stats ==> r == DefaultStats() && r.tipsTotal == 0 && BoardOf(r) == []
  {
    if sid in stats then stats[sid] else DefaultStats()
  }

  /** What registerTip does to the stats row: the increment of tips_total,
      then updateTipBoard on the incremented row. */
  function ApplyTip(st: Stats, t: Tip): (r: Stats)
    ensures r.tipsTotal == st.tipsTotal + t.amount
    ensures Sum(BoardOf(r)) == Sum(BoardOf(st)) + t.amount
    ensures |BoardOf(r)| > 0 && r.highestTipper == Some(BoardOf(r)[0].userId)
  {
    TipBoardUpdate(st.(tipsTotal := st.tipsTotal + t.amount), t.userId, t.amount)
  }

  /** The stats row agrees with the tips list: tips_total and the sum of the
      board are the sum of all tips, each tipper appears at most once, and
      each user's board total is the sum of that user's tips. */
  ghost predicate Consistent(tips: seq<Tip>, st: Stats)
  {
    && st.tipsTotal == TipSum(tips)
    && Sum(BoardOf(st)) == TipSum(tips)
    && UniqueIds(BoardOf(st))
    && forall u :: BoardTotal(BoardOf(st), u) == UserTipSum(tips, u)
  }

  /** A stream with no tips and no stats row is consistent. */
  lemma NoTipsConsistent()
    ensures Consistent([], DefaultStats())
  {
  }

  lemma TipSumsAppend(tips: seq<Tip>, t: Tip)
    ensures TipSum(tips + [t]) == TipSum(tips) + t.amount
    ensures forall u :: UserTipSum(tips + [t], u) == UserTipSum(tips, u) + (if t.userId == u then t.amount else 0)
  {
    assert (tips + [t])[..|tips|] == tips;
  }

  /** One registerTip keeps the tips list and the stats row consistent. */
  lemma TipKeepsConsistent(tips: seq<Tip>, st: Stats, t: Tip)
    requires Consistent(tips, st)
    ensures Consistent(tips + [t], ApplyTip(st, t))
  {
    var after := tips + [t];
    var incremented := st.(tipsTotal := st.tipsTotal + t.amount);
    var board := BoardOf(ApplyTip(st, t));
    assert BoardOf(incremented) == BoardOf(st);
    TipSumsAppend(tips, t);
    TipBoardUpdateTotals(incremented, t.userId, t.amount, t.userId);
    forall u ensures BoardTotal(board, u) == UserTipSum(after, u) {
      TipBoardUpdateTotals(incremented, t.userId, t.amount, u);
    }
  }

  /** The stats row left behind by registering `tips` one after another on
      a stream that had no stats row. */
  function Replay(tips: seq<Tip>): Stats
  {
    if tips == [] then DefaultStats() else ApplyTip(Replay(tips[..|tips| - 1]), tips[|tips| - 1])
  }

  /** Whatever tips arrive, one at a time: tips_total is the sum of all
      amounts, each board entry is the sum of its user's amounts, and the
      board is ordered by descending total. */
  lemma {:induction false} ReplayConsistent(tips: seq<Tip>)
    ensures Consistent(tips, Replay(tips))
    ensures tips != [] ==> Sorted(BoardOf(Replay(tips)))
  {
    if tips != [] {
      var front := tips[..|tips| - 1];
      var last := tips[|tips| - 1];
      ReplayConsistent(front);
      TipBoardUpdateSorted(Replay(front).(tipsTotal := Replay(front).tipsTotal + last.amount), last.userId, last.amount);
      TipKeepsConsistent(front, Replay(front), tips[|tips| - 1]);
      assert front + [tips[|tips| - 1]] == tips;
    }
  }
}
