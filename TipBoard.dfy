/** The tip board of a stream's stats row: a list of (tipper, total) entries
    kept in the order of the last sort. updateTipBoard finds the tipper's
    entry, raises it or appends a new one, and re-sorts the list by
    descending total with the engine's stable sort; getTipLeaderboard sorts
    a copy the same way. */
module TipBoard {
  import opened Records

  type Board = seq<BoardEntry>

  /** The index Array.prototype.find stops at: the first entry of `u`, or
      |b| when `u` has no entry. */
  function Find(b: Board, u: UserId): (i: nat)
    ensures i <= |b|
    ensures i < |b| ==> b[i].userId == u
    ensures forall j :: 0 <= j < i ==> b[j].userId != u
  {
    if b == [] then 0
    else if b[0].userId == u then 0
    else 1 + Find(b[1..], u)
  }

  function UserIds(b: Board): set<UserId>
  {
    set i | 0 <= i < |b| :: b[i].userId
  }

  /** No tipper has two entries. */
  predicate UniqueIds(b: Board)
  {
    forall i, j :: 0 <= i < j < |b| ==> b[i].userId != b[j].userId
  }

  /** The total a board records for `u`: that of the entry find returns, or
      0 for a user without an entry. */
  function BoardTotal(b: Board, u: UserId): int
  {
    var i := Find(b, u);
    if i < |b| then b[i].total else 0
  }

  /** The sum of all totals on the board. */
  function Sum(b: Board): int
  {
    if b == [] then 0 else b[0].total + Sum(b[1..])
  }

  /** The board ordered as the comparator `(a, b) => b.total - a.total`
      orders it: non-increasing totals. */
  predicate Sorted(b: Board)
  {
    forall i, j :: 0 <= i < j < |b| ==> b[i].total >= b[j].total
  }

  /** The entries whose total is `t`, in board order. A stable sort keeps
      each of these subsequences as it was. */
  function WithTotal(b: Board, t: int): Board
  {
    if b == [] then []
    else (if b[0].total == t then [b[0]] else []) + WithTotal(b[1..], t)
  }

  lemma FindPresent(b: Board, u: UserId)
    ensures Find(b, u) < |b| <==> u in UserIds(b)
  {
    if u in UserIds(b) {
      var i :| 0 <= i < |b| && b[i].userId == u;
      assert Find(b, u) <= i;
    }
  }

  /** The upsert of updateTipBoard, before the sort: the first entry of `u`
      gains `amount`, or a new entry `{u, amount}` goes at the end. */
  function Upsert(b: Board, u: UserId, amount: int): (r: Board)
    ensures |r| == (if u in UserIds(b) then |b| else |b| + 1)
  {
    FindPresent(b, u);
    var i := Find(b, u);
    if i < |b| then b[i := b[i].(total := b[i].total + amount)]
    else b + [BoardEntry(u, amount)]
  }

  /** Find depends only on the user ids, position by position. */
  lemma {:induction false} FindSameIds(b: Board, c: Board, v: UserId)
    requires |b| == |c|
    requires forall k :: 0 <= k < |b| ==> b[k].userId == c[k].userId
    ensures Find(b, v) == Find(c, v)
  {
    if b != [] {
      assert b[0].userId == c[0].userId;
      FindSameIds(b[1..], c[1..], v);
    }
  }

  lemma {:induction false} FindAppend(b: Board, e: BoardEntry, v: UserId)
    ensures Find(b + [e], v) == (if Find(b, v) < |b| then Find(b, v) else if e.userId == v then |b| else |b| + 1)
  {
    if b != [] {
      assert (b + [e])[1..] == b[1..] + [e];
      FindAppend(b[1..], e, v);
    }
  }

  lemma IdsAppend(b: Board, e: BoardEntry)
    ensures UserIds(b + [e]) == UserIds(b) + {e.userId}
  {
    var w := b + [e];
    forall v | v in UserIds(w) ensures v in UserIds(b) + {e.userId} {
      var k :| 0 <= k < |w| && w[k].userId == v;
      if k < |b| { assert b[k] == w[k]; }
    }
    forall v | v in UserIds(b) + {e.userId} ensures v in UserIds(w) {
      if v in UserIds(b) {
        var k :| 0 <= k < |b| && b[k].userId == v;
        assert w[k].userId == v;
      } else {
        assert w[|b|].userId == v;
      }
    }
  }

  lemma IdsSamePositions(b: Board, c: Board)
    requires |b| == |c|
    requires forall k :: 0 <= k < |b| ==> b[k].userId == c[k].userId
    ensures UserIds(b) == UserIds(c)
  {
    forall v | v in UserIds(b) ensures v in UserIds(c) {
      var k :| 0 <= k < |b| && b[k].userId == v;
      assert c[k].userId == v;
    }
    forall v | v in UserIds(c) ensures v in UserIds(b) {
      var k :| 0 <= k < |c| && c[k].userId == v;
      assert b[k].userId == v;
    }
  }

  /** A user already on the board keeps their position and gains `amount`;
      an absent user gets one new entry at the end with total `amount`;
      everybody else's entry is unchanged. */
  lemma UpsertShape(b: Board, u: UserId, amount: int)
    ensures u in UserIds(b) ==>
      var i := Find(b, u);
      && |Upsert(b, u, amount)| == |b|
      && Upsert(b, u, amount)[i] == BoardEntry(u, b[i].total + amount)
      && forall k :: 0 <= k < |b| && k != i ==> Upsert(b, u, amount)[k] == b[k]
    ensures u !in UserIds(b) ==> Upsert(b, u, amount) == b + [BoardEntry(u, amount)]
  {
    FindPresent(b, u);
  }

  /** The total recorded for `u` grows by exactly `amount`; every other
      user's total is unchanged. */
  lemma UpsertTotals(b: Board, u: UserId, amount: int, v: UserId)
    ensures BoardTotal(Upsert(b, u, amount), v) == BoardTotal(b, v) + (if v == u then amount else 0)
  {
    FindPresent(b, u);
    var r := Upsert(b, u, amount);
    if u in UserIds(b) {
      FindSameIds(b, r, v);
    } else {
      FindAppend(b, BoardEntry(u, amount), v);
    }
  }

  lemma UpsertIds(b: Board, u: UserId, amount: int)
    ensures UserIds(Upsert(b, u, amount)) == UserIds(b) + {u}
  {
    FindPresent(b, u);
    var r := Upsert(b, u, amount);
    if u in UserIds(b) {
      IdsSamePositions(b, r);
    } else {
      IdsAppend(b, BoardEntry(u, amount));
    }
  }

  /** Upserting keeps a board free of duplicate tippers. */
  lemma UpsertUnique(b: Board, u: UserId, amount: int)
    requires UniqueIds(b)
    ensures UniqueIds(Upsert(b, u, amount))
  {
    FindPresent(b, u);
    var r := Upsert(b, u, amount);
    if u !in UserIds(b) {
      forall i, j | 0 <= i < j < |r| ensures r[i].userId != r[j].userId {
        if j == |b| { assert b[i].userId in UserIds(b); }
      }
    }
  }

  lemma {:induction false} SumUpdate(b: Board, i: nat, e: BoardEntry)
    requires i < |b|
    ensures Sum(b[i := e]) == Sum(b) - b[i].total + e.total
  {
    if i > 0 {
      assert b[i := e][1..] == b[1..][i - 1 := e];
      SumUpdate(b[1..], i - 1, e);
    }
  }

  lemma {:induction false} SumAppend(b: Board, e: BoardEntry)
    ensures Sum(b + [e]) == Sum(b) + e.total
  {
    if b != [] {
      assert (b + [e])[1..] == b[1..] + [e];
      SumAppend(b[1..], e);
    }
  }

  /** The sum of the totals grows by exactly the tip. */
  lemma UpsertSum(b: Board, u: UserId, amount: int)
    ensures Sum(Upsert(b, u, amount)) == Sum(b) + amount
  {
    var i := Find(b, u);
    if i < |b| {
      SumUpdate(b, i, b[i].(total := b[i].total + amount));
    } else {
      SumAppend(b, BoardEntry(u, amount));
    }
  }

  // ---------------------------------------------------------------------
  // The stable sort by descending total.

  /** Inserting `x` in front of everything it is not ranked above keeps the
      sort stable: `x` precedes every later entry with the same total. */
  function Insert(x: BoardEntry, s: Board): (r: Board)
    ensures |r| == |s| + 1
  {
    if s == [] || s[0].total <= x.total then [x] + s
    else [s[0]] + Insert(x, s[1..])
  }

  /** Array.prototype.sort with comparator `(a, b) => b.total - a.total`:
      insertion sort from the back, which is stable. */
  function SortByTotalDesc(s: Board): (r: Board)
    ensures |r| == |s|
  {
    if s == [] then [] else Insert(s[0], SortByTotalDesc(s[1..]))
  }

  lemma {:induction false} InsertPermutes(x: BoardEntry, s: Board)
    ensures multiset(Insert(x, s)) == multiset(s) + multiset{x}
  {
    if s != [] && s[0].total > x.total {
      InsertPermutes(x, s[1..]);
      assert s == [s[0]] + s[1..];
    }
  }

  /** The sorted board is a permutation of the board it sorts. */
  lemma {:induction false} SortPermutes(s: Board)
    ensures multiset(SortByTotalDesc(s)) == multiset(s)
  {
    if s != [] {
      SortPermutes(s[1..]);
      InsertPermutes(s[0], SortByTotalDesc(s[1..]));
      assert s == [s[0]] + s[1..];
    }
  }

  lemma {:induction false} InsertSorted(x: BoardEntry, s: Board)
    requires Sorted(s)
    ensures Sorted(Insert(x, s))
  {
    if s != [] && s[0].total > x.total {
      var rest := Insert(x, s[1..]);
      InsertSorted(x, s[1..]);
      InsertPermutes(x, s[1..]);
      forall k | 0 <= k < |rest| ensures s[0].total >= rest[k].total {
        assert rest[k] in multiset(rest);
        if rest[k] != x {
          assert rest[k] in multiset(s[1..]);
          var m :| 0 <= m < |s[1..]| && s[1..][m] == rest[k];
          assert s[m + 1] == rest[k];
        }
      }
    }
  }

  /** The sorted board is ordered non-increasing by total. */
  lemma {:induction false} SortSorts(s: Board)
    ensures Sorted(SortByTotalDesc(s))
  {
    if s != [] {
      SortSorts(s[1..]);
      InsertSorted(s[0], SortByTotalDesc(s[1..]));
    }
  }

  lemma WithTotalCons(e: BoardEntry, s: Board, t: int)
    ensures WithTotal([e] + s, t) == (if e.total == t then [e] else []) + WithTotal(s, t)
  {
    assert ([e] + s)[1..] == s;
  }

  lemma {:induction false} InsertStable(x: BoardEntry, s: Board, t: int)
    ensures WithTotal(Insert(x, s), t) == (if x.total == t then [x] else []) + WithTotal(s, t)
  {
    if s != [] && s[0].total > x.total {
      var rest := Insert(x, s[1..]);
      InsertStable(x, s[1..], t);
      WithTotalCons(s[0], rest, t);
      WithTotalCons(s[0], s[1..], t);
      assert s == [s[0]] + s[1..];
      if x.total == t {
        assert s[0].total != t;
      }
    } else {
      WithTotalCons(x, s, t);
    }
  }

  /** The sort is stable: entries with equal totals keep their relative order. */
  lemma {:induction false} SortStable(s: Board, t: int)
    ensures WithTotal(SortByTotalDesc(s), t) == WithTotal(s, t)
  {
    if s != [] {
      SortStable(s[1..], t);
      InsertStable(s[0], SortByTotalDesc(s[1..]), t);
    }
  }

  lemma {:induction false} WithTotalHas(s: Board, t: int)
    requires WithTotal(s, t) != []
    ensures exists i :: 0 <= i < |s| && s[i].total == t
  {
    if s[0].total != t {
      WithTotalHas(s[1..], t);
      var i :| 0 <= i < |s[1..]| && s[1..][i].total == t;
      assert s[i + 1].total == t;
    }
  }

  /** Sorted plus stable determines the order completely: any board ordered
      non-increasing whose equal-total runs match those of `s` is exactly
      SortByTotalDesc(s). So the model agrees with every stable sort the
      JavaScript engine may use. */
  lemma {:induction false} StableSortIsUnique(r: Board, s: Board)
    requires Sorted(r)
    requires forall t :: WithTotal(r, t) == WithTotal(s, t)
    ensures r == SortByTotalDesc(s)
  {
    var q := SortByTotalDesc(s);
    SortSorts(s);
    forall t ensures WithTotal(r, t) == WithTotal(q, t) {
      SortStable(s, t);
    }
    SortedRunsDetermine(r, q);
  }

  lemma RunOfHead(s: Board)
    requires s != []
    ensures WithTotal(s, s[0].total) != [] && WithTotal(s, s[0].total)[0] == s[0]
  {
  }

  /** Two sorted boards with the same runs start with the same entry. */
  lemma SameRunsSameHead(r: Board, q: Board)
    requires r != [] && q != [] && Sorted(r) && Sorted(q)
    requires WithTotal(r, r[0].total) == WithTotal(q, r[0].total)
    requires WithTotal(r, q[0].total) == WithTotal(q, q[0].total)
    ensures r[0] == q[0]
  {
    RunOfHead(r);
    RunOfHead(q);
    WithTotalHas(q, r[0].total);
    WithTotalHas(r, q[0].total);
    assert r[0].total == q[0].total;
  }

  lemma SameRunsSameTail(r: Board, q: Board, t: int)
    requires r != [] && q != [] && r[0] == q[0]
    requires WithTotal(r, t) == WithTotal(q, t)
    ensures WithTotal(r[1..], t) == WithTotal(q[1..], t)
  {
    var head := if r[0].total == t then [r[0]] else [];
    assert WithTotal(r, t) == head + WithTotal(r[1..], t);
    assert WithTotal(q, t) == head + WithTotal(q[1..], t);
    assert WithTotal(r[1..], t) == (head + WithTotal(r[1..], t))[|head|..];
  }

  lemma {:induction false} SortedRunsDetermine(r: Board, q: Board)
    requires Sorted(r) && Sorted(q)
    requires forall t :: WithTotal(r, t) == WithTotal(q, t)
    ensures r == q
    decreases |r|
  {
    if r == [] {
      if q != [] {
        RunOfHead(q);
        assert false;
      }
    } else if q == [] {
      RunOfHead(r);
      assert false;
    } else {
      SameRunsSameHead(r, q);
      forall t ensures WithTotal(r[1..], t) == WithTotal(q[1..], t) {
        SameRunsSameTail(r, q, t);
      }
      SortedRunsDetermine(r[1..], q[1..]);
      assert r == [r[0]] + r[1..] && q == [q[0]] + q[1..];
    }
  }

  /** Sorting a board already in sorted order leaves it as it is: the stored
      board, which updateTipBoard left sorted, is its own leaderboard. */
  lemma {:induction false} SortKeepsSorted(s: Board)
    requires Sorted(s)
    ensures SortByTotalDesc(s) == s
  {
    if s != [] {
      SortKeepsSorted(s[1..]);
      assert s == [s[0]] + s[1..];
    }
  }

  lemma {:induction false} InsertSum(x: BoardEntry, s: Board)
    ensures Sum(Insert(x, s)) == x.total + Sum(s)
  {
    if s != [] && s[0].total > x.total {
      InsertSum(x, s[1..]);
      assert Insert(x, s)[1..] == Insert(x, s[1..]);
    } else {
      assert ([x] + s)[1..] == s;
    }
  }

  /** Sorting does not change the sum of the totals. */
  lemma {:induction false} SortSum(s: Board)
    ensures Sum(SortByTotalDesc(s)) == Sum(s)
  {
    if s != [] {
      SortSum(s[1..]);
      InsertSum(s[0], SortByTotalDesc(s[1..]));
    }
  }

  lemma PermutationSameIds(a: Board, b: Board)
    requires multiset(a) == multiset(b)
    ensures UserIds(a) == UserIds(b)
  {
    forall v | v in UserIds(a) ensures v in UserIds(b) {
      var i :| 0 <= i < |a| && a[i].userId == v;
      assert a[i] in multiset(b);
      var j :| 0 <= j < |b| && b[j] == a[i];
    }
    forall v | v in UserIds(b) ensures v in UserIds(a) {
      var j :| 0 <= j < |b| && b[j].userId == v;
      assert b[j] in multiset(a);
      var i :| 0 <= i < |a| && a[i] == b[j];
    }
  }

  lemma UniqueCons(e: BoardEntry, t: Board)
    ensures UniqueIds([e] + t) <==> e.userId !in UserIds(t) && UniqueIds(t)
  {
    var s := [e] + t;
    if UniqueIds(s) {
      forall k | 0 <= k < |t| ensures t[k].userId != e.userId {
        assert s[0] == e && s[k + 1] == t[k];
      }
      forall i, j | 0 <= i < j < |t| ensures t[i].userId != t[j].userId {
        assert s[i + 1] == t[i] && s[j + 1] == t[j];
      }
    }
    if e.userId !in UserIds(t) && UniqueIds(t) {
      forall i, j | 0 <= i < j < |s| ensures s[i].userId != s[j].userId {
        if i == 0 {
          assert s[j] == t[j - 1];
        } else {
          assert s[i] == t[i - 1] && s[j] == t[j - 1];
        }
      }
    }
  }

  lemma {:induction false} InsertUnique(x: BoardEntry, s: Board)
    requires UniqueIds(s) && x.userId !in UserIds(s)
    ensures UniqueIds(Insert(x, s))
  {
    if s == [] || s[0].total <= x.total {
      UniqueCons(x, s);
    } else {
      UniqueCons(s[0], s[1..]);
      assert s == [s[0]] + s[1..];
      assert UserIds(s[1..]) <= UserIds(s) by {
        forall v | v in UserIds(s[1..]) ensures v in UserIds(s) {
          var k :| 0 <= k < |s[1..]| && s[1..][k].userId == v;
          assert s[k + 1].userId == v;
        }
      }
      InsertUnique(x, s[1..]);
      InsertPermutes(x, s[1..]);
      PermutationSameIds(Insert(x, s[1..]), s[1..] + [x]);
      IdsAppend(s[1..], x);
      assert s[0].userId != x.userId by {
        assert s[0].userId in UserIds(s);
      }
      UniqueCons(s[0], Insert(x, s[1..]));
    }
  }

  /** Sorting keeps a board free of duplicate tippers. */
  lemma {:induction false} SortUnique(s: Board)
    requires UniqueIds(s)
    ensures UniqueIds(SortByTotalDesc(s))
  {
    if s != [] {
      UniqueCons(s[0], s[1..]);
      assert s == [s[0]] + s[1..];
      SortUnique(s[1..]);
      SortPermutes(s[1..]);
      PermutationSameIds(SortByTotalDesc(s[1..]), s[1..]);
      InsertUnique(s[0], SortByTotalDesc(s[1..]));
    }
  }

  lemma UniqueTotalAt(b: Board, i: nat)
    requires UniqueIds(b) && i < |b|
    ensures BoardTotal(b, b[i].userId) == b[i].total
  {
    var j := Find(b, b[i].userId);
    assert j == i;
  }

  /** On a board without duplicate tippers, sorting keeps every user's total. */
  lemma SortTotals(s: Board, v: UserId)
    requires UniqueIds(s)
    ensures BoardTotal(SortByTotalDesc(s), v) == BoardTotal(s, v)
  {
    var q := SortByTotalDesc(s);
    SortPermutes(s);
    SortUnique(s);
    PermutationSameIds(q, s);
    FindPresent(s, v);
    FindPresent(q, v);
    if v in UserIds(s) {
      var i := Find(s, v);
      assert s[i] in multiset(q);
      var j :| 0 <= j < |q| && q[j] == s[i];
      UniqueTotalAt(q, j);
    }
  }

  // ---------------------------------------------------------------------
  // updateTipBoard and getTipLeaderboard on a stats row.

  /** The board a stats row holds, an absent board read as empty. */
  function BoardOf(st: Stats): (r: Board)
    ensures st.tipBoard.Some? ==> r == st.tipBoard.value
    ensures st.tipBoard.None? ==> r == []
  {
    if st.tipBoard.Some? then st.tipBoard.value else []
  }

  /** The stats row updateTipBoard writes back: the board upserted and
      re-sorted, highest_tipper the user of the first entry. Only the board
      and highest_tipper change, and the board's totals grow by the tip. */
  function TipBoardUpdate(st: Stats, u: UserId, amount: int): (r: Stats)
    ensures r.likes == st.likes && r.tipsTotal == st.tipsTotal && r.toysLog == st.toysLog
    ensures r.tipBoard.Some? && |r.tipBoard.value| > 0
    ensures r.highestTipper == Some(r.tipBoard.value[0].userId)
    ensures Sum(r.tipBoard.value) == Sum(BoardOf(st)) + amount
  {
    var board := Upsert(BoardOf(st), u, amount);
    var sorted := SortByTotalDesc(board);
    SortSum(board);
    UpsertSum(BoardOf(st), u, amount);
    st.(tipBoard := Some(sorted),
        highestTipper := if |sorted| > 0 then Some(sorted[0].userId) else None)
  }

  /** After updateTipBoard the board is the upserted board reordered
      non-increasing by total, and highest_tipper heads it with a total no
      entry exceeds. */
  lemma TipBoardUpdateSorted(st: Stats, u: UserId, amount: int)
    ensures var b := BoardOf(TipBoardUpdate(st, u, amount));
            && Sorted(b)
            && multiset(b) == multiset(Upsert(BoardOf(st), u, amount))
            && forall k :: 0 <= k < |b| ==> b[k].total <= b[0].total
  {
    SortSorts(Upsert(BoardOf(st), u, amount));
    SortPermutes(Upsert(BoardOf(st), u, amount));
  }

  /** Per user, the board after updateTipBoard records exactly `amount` more
      for the tipper and the same as before for everybody else; a board
      free of duplicate tippers stays so. */
  lemma TipBoardUpdateTotals(st: Stats, u: UserId, amount: int, v: UserId)
    requires UniqueIds(BoardOf(st))
    ensures UniqueIds(BoardOf(TipBoardUpdate(st, u, amount)))
    ensures BoardTotal(BoardOf(TipBoardUpdate(st, u, amount)), v) == BoardTotal(BoardOf(st), v) + (if v == u then amount else 0)
  {
    var board := Upsert(BoardOf(st), u, amount);
    UpsertUnique(BoardOf(st), u, amount);
    SortUnique(board);
    SortTotals(board, v);
    UpsertTotals(BoardOf(st), u, amount, v);
  }

  /** The user updateTipBoard names highest_tipper has a total no other
      tipper exceeds. */
  lemma HighestTipperIsMaximal(st: Stats, u: UserId, amount: int, v: UserId)
    ensures var r := TipBoardUpdate(st, u, amount);
            BoardTotal(BoardOf(r), v) <= BoardTotal(BoardOf(r), r.highestTipper.value)
            || (v !in UserIds(BoardOf(r)) && BoardTotal(BoardOf(r), v) == 0)
  {
    TipBoardUpdateSorted(st, u, amount);
    FindPresent(BoardOf(TipBoardUpdate(st, u, amount)), v);
  }

  /** What getTipLeaderboard returns for a stats row. */
  function Leaderboard(st: Stats): (r: Board)
    ensures Sorted(r)
    ensures multiset(r) == multiset(BoardOf(st))
    ensures st.tipBoard.None? ==> r == []
  {
    SortSorts(BoardOf(st));
    SortPermutes(BoardOf(st));
    SortByTotalDesc(BoardOf(st))
  }
}
