/**
 * The leaderboard: each user's entry as read from the `users` snapshot
 * ("Unknown" and 0 when the name or the score is missing or unreadable),
 * ordered by descending score with ties kept in snapshot order (a stable
 * sort, as `OrderByDescending` is), and cut to the first `topCount`.
 */
module Leaderboard {
  import opened Wrappers
  import opened Store
  import Text

  const UnknownName := "Unknown"

  datatype Entry = Entry(uid: Uid, username: string, score: int)

  /** One child of the `users` snapshot as an entry. */
  function EntryOf(child: Snap): (e: Entry)
    ensures e.uid == child.key
    ensures child.Child("username").Exists() ==> e.username == Display(child.Child("username").value.value)
    ensures !child.Child("username").Exists() ==> e.username == UnknownName
    ensures !child.Child("score").Exists() ==> e.score == 0
    ensures Text.Int32Min <= e.score <= Text.Int32Max
  {
    var name := child.Child("username");
    var score := child.Child("score");
    Entry(child.key,
          if name.Exists() then Display(name.value.value) else UnknownName,
          Text.ParseIntOrZero(DisplayOpt(score.value)))
  }

  /** A score stored as a 32-bit integer is read back as itself. */
  lemma EntryOfStoredScore(key: Uid, fields: map<string, Value>, score: int)
    requires Text.Int32Min <= score <= Text.Int32Max
    requires "score" in fields && fields["score"] == Int(score)
    ensures EntryOf(Snap(key, Some(Obj(fields)))).score == score
  {
    Text.TryParseOfIntToString(score);
  }

  /** A score stored as a record reads as 0: its text is the dictionary's type name. */
  lemma EntryOfRecordScore(key: Uid, fields: map<string, Value>, scoreFields: map<string, Value>)
    requires "score" in fields && fields["score"] == Obj(scoreFields)
    ensures EntryOf(Snap(key, Some(Obj(fields)))).score == 0
  {
    DictionaryTextNoNumber();
  }

  /** `f` applied to each element of `s`, in order. */
  function MapSeq<A, B>(f: A -> B, s: seq<A>): (r: seq<B>)
    ensures |r| == |s|
    decreases |s|
  {
    if s == [] then [] else MapSeq(f, s[..|s| - 1]) + [f(s[|s| - 1])]
  }

  lemma {:induction false} MapSeqAt<A, B>(f: A -> B, s: seq<A>, i: nat)
    requires i < |s|
    ensures MapSeq(f, s)[i] == f(s[i])
    decreases |s|
  {
    if i < |s| - 1 {
      MapSeqAt(f, s[..|s| - 1], i);
    }
  }

  /** The entries of all children, in snapshot order. */
  function Collected(children: seq<Snap>): (list: seq<Entry>)
    ensures |list| == |children|
  {
    MapSeq(EntryOf, children)
  }

  /** The `i`-th collected entry is the entry of the `i`-th child. */
  lemma CollectedAt(children: seq<Snap>, i: nat)
    requires i < |children|
    ensures Collected(children)[i] == EntryOf(children[i])
  {
    MapSeqAt(EntryOf, children, i);
  }

  predicate SortedDesc(s: seq<Entry>) {
    forall i, j :: 0 <= i < j < |s| ==> s[i].score >= s[j].score
  }

  /** The entries of `s` with score `k`, in order. */
  function WithScore(s: seq<Entry>, k: int): seq<Entry>
    decreases |s|
  {
    if s == [] then [] else (if s[0].score == k then [s[0]] else []) + WithScore(s[1..], k)
  }

  /** `x` placed after the leading entries that score at least as much. */
  function Insert(t: seq<Entry>, x: Entry): seq<Entry>
    decreases |t|
  {
    if t == [] then [x]
    else if t[0].score >= x.score then [t[0]] + Insert(t[1..], x)
    else [x] + t
  }

  /** `OrderByDescending(score)`: each entry inserted after those before it that score at least as much. */
  function SortDesc(s: seq<Entry>): seq<Entry>
    decreases |s|
  {
    if s == [] then [] else Insert(SortDesc(s[..|s| - 1]), s[|s| - 1])
  }

  /** `Take(n)`: the first `n` entries, none for a negative `n`. */
  function Take(s: seq<Entry>, n: int): (r: seq<Entry>)
    ensures |r| == if n <= 0 then 0 else if n < |s| then n else |s|
    ensures r == s[..|r|]
  {
    if n <= 0 then [] else if n < |s| then s[..n] else s
  }

  /** The ranking shown for a snapshot's children. */
  function Ranking(children: seq<Snap>, topCount: int): seq<Entry> {
    Take(SortDesc(Collected(children)), topCount)
  }

  lemma {:induction false} WithScoreAppend(a: seq<Entry>, b: seq<Entry>, k: int)
    ensures WithScore(a + b, k) == WithScore(a, k) + WithScore(b, k)
    decreases |a|
  {
    if a == [] {
      assert a + b == b;
    } else {
      assert (a + b)[0] == a[0];
      assert (a + b)[1..] == a[1..] + b;
      WithScoreAppend(a[1..], b, k);
    }
  }

  lemma {:induction false} InsertMultiset(t: seq<Entry>, x: Entry)
    ensures multiset(Insert(t, x)) == multiset(t) + multiset{x}
    decreases |t|
  {
    if t != [] && t[0].score >= x.score {
      InsertMultiset(t[1..], x);
      assert t == [t[0]] + t[1..];
    }
  }

  lemma {:induction false} InsertSorted(t: seq<Entry>, x: Entry)
    requires SortedDesc(t)
    ensures SortedDesc(Insert(t, x))
    decreases |t|
  {
    if t != [] && t[0].score >= x.score {
      InsertSorted(t[1..], x);
      var rest := Insert(t[1..], x);
      InsertMultiset(t[1..], x);
      forall j | 0 <= j < |rest|
        ensures t[0].score >= rest[j].score
      {
        assert rest[j] in multiset(rest);
        assert rest[j] in multiset(t[1..]) || rest[j] == x;
        if rest[j] != x {
          var m :| 0 <= m < |t[1..]| && t[1..][m] == rest[j];
          assert t[m + 1] == rest[j];
        }
      }
    }
  }

  /** Inserting into a sorted sequence adds `x` at the end of its score's entries. */
  lemma {:induction false} InsertWithScore(t: seq<Entry>, x: Entry, k: int)
    requires SortedDesc(t)
    ensures WithScore(Insert(t, x), k) == WithScore(t, k) + (if x.score == k then [x] else [])
    decreases |t|
  {
    if t == [] {
      assert WithScore([x], k) == (if x.score == k then [x] else []) + WithScore([], k);
    } else if t[0].score >= x.score {
      InsertWithScore(t[1..], x, k);
      WithScoreAppend([t[0]], Insert(t[1..], x), k);
      WithScoreAppend([t[0]], t[1..], k);
      assert t == [t[0]] + t[1..];
    } else {
      WithScoreAppend([x], t, k);
      if x.score == k {
        NoneScoreAbove(t, k);
      }
    }
  }

  /** In a sorted sequence whose first entry scores below `k`, no entry scores `k`. */
  lemma {:induction false} NoneScoreAbove(t: seq<Entry>, k: int)
    requires SortedDesc(t) && t != [] && t[0].score < k
    ensures WithScore(t, k) == []
    decreases |t|
  {
    if |t| > 1 {
      assert t[1] == t[1..][0];
      NoneScoreAbove(t[1..], k);
    }
  }

  lemma {:induction false} SortDescSorted(s: seq<Entry>)
    ensures SortedDesc(SortDesc(s))
    decreases |s|
  {
    if s != [] {
      SortDescSorted(s[..|s| - 1]);
      InsertSorted(SortDesc(s[..|s| - 1]), s[|s| - 1]);
    }
  }

  lemma {:induction false} SortDescPermutes(s: seq<Entry>)
    ensures multiset(SortDesc(s)) == multiset(s)
    decreases |s|
  {
    if s != [] {
      var init := s[..|s| - 1];
      SortDescPermutes(init);
      InsertMultiset(SortDesc(init), s[|s| - 1]);
      assert s == init + [s[|s| - 1]];
      assert multiset(s) == multiset(init) + multiset{s[|s| - 1]};
    }
  }

  lemma {:induction false} SortDescStable(s: seq<Entry>, k: int)
    ensures WithScore(SortDesc(s), k) == WithScore(s, k)
    decreases |s|
  {
    if s != [] {
      var init := s[..|s| - 1];
      var last := s[|s| - 1];
      SortDescStable(init, k);
      SortDescSorted(init);
      InsertWithScore(SortDesc(init), last, k);
      assert s == init + [last];
      WithScoreAppend(init, [last], k);
      assert WithScore([last], k) == (if last.score == k then [last] else []) + WithScore([], k);
    }
  }

  /**
   * `SortDesc` orders by non-increasing score, is a permutation of its
   * input, and keeps the entries of each score in input order (stability).
   */
  lemma SortDescCorrect(s: seq<Entry>)
    ensures SortedDesc(SortDesc(s))
    ensures multiset(SortDesc(s)) == multiset(s)
    ensures forall k :: WithScore(SortDesc(s), k) == WithScore(s, k)
  {
    SortDescSorted(s);
    SortDescPermutes(s);
    forall k
      ensures WithScore(SortDesc(s), k) == WithScore(s, k)
    {
      SortDescStable(s, k);
    }
  }

  /**
   * The first `n` of the sorted entries: `min(|list|, max(n, 0))` of them,
   * by non-increasing score, each one taken from `list`.
   */
  lemma TopCorrect(list: seq<Entry>, n: int)
    ensures var r := Take(SortDesc(list), n);
            && |r| == (if n <= 0 then 0 else if n < |list| then n else |list|)
            && SortedDesc(r)
            && (forall e :: e in r ==> e in list)
  {
    var sorted := SortDesc(list);
    SortDescCorrect(list);
    assert |multiset(sorted)| == |multiset(list)|;
    var r := Take(sorted, n);
    forall e | e in r
      ensures e in list
    {
      assert e in multiset(sorted);
    }
  }

  /**
   * The entries the cut leaves out: together with the kept ones exactly
   * `list`, and none of them scoring more than any kept one.
   */
  lemma TopSeparates(list: seq<Entry>, n: int)
    ensures var sorted := SortDesc(list);
            var r := Take(sorted, n);
            && multiset(r) + multiset(sorted[|r|..]) == multiset(list)
            && (forall i, j :: 0 <= i < |r| && 0 <= j < |sorted[|r|..]| ==> r[i].score >= sorted[|r|..][j].score)
  {
    var sorted := SortDesc(list);
    SortDescSorted(list);
    SortDescPermutes(list);
    var r := Take(sorted, n);
    assert sorted == r + sorted[|r|..];
    forall i, j | 0 <= i < |r| && 0 <= j < |sorted[|r|..]|
      ensures r[i].score >= sorted[|r|..][j].score
    {
      assert sorted[|r|..][j] == sorted[|r| + j];
      assert r[i] == sorted[i];
    }
  }

  /** When nothing is cut, entries with the same score keep their input order. */
  lemma TopKeepsTies(list: seq<Entry>, n: int, k: int)
    requires n >= |list|
    ensures WithScore(Take(SortDesc(list), n), k) == WithScore(list, k)
  {
    SortDescCorrect(list);
    assert |multiset(SortDesc(list))| == |multiset(list)|;
    assert Take(SortDesc(list), n) == SortDesc(list);
  }

  /** The ranking of a snapshot: the properties of `TopCorrect`, each entry read from one of its children. */
  lemma RankingCorrect(children: seq<Snap>, topCount: int)
    ensures var r := Ranking(children, topCount);
            && |r| == (if topCount <= 0 then 0 else if topCount < |children| then topCount else |children|)
            && SortedDesc(r)
            && (forall e :: e in r ==> exists i :: 0 <= i < |children| && e == EntryOf(children[i]))
  {
    var list := Collected(children);
    TopCorrect(list, topCount);
    forall e | e in Ranking(children, topCount)
      ensures exists i :: 0 <= i < |children| && e == EntryOf(children[i])
    {
      assert e in list;
      var i :| 0 <= i < |list| && list[i] == e;
      CollectedAt(children, i);
    }
  }

  /** Two entries with the same score keep the snapshot's order in a ranking that cuts nothing. */
  lemma TiesKeepSnapshotOrder(children: seq<Snap>, topCount: int, k: int)
    requires topCount >= |children|
    ensures WithScore(Ranking(children, topCount), k) == WithScore(Collected(children), k)
  {
    TopKeepsTies(Collected(children), topCount, k);
  }

  /** The line printed for the entry at position `i`: its rank `i + 1`, name and score. */
  function RankLine(i: nat, e: Entry): (line: string)
    ensures |Text.NatToString(i + 1)| <= |line| && line[..|Text.NatToString(i + 1)|] == Text.NatToString(i + 1)
    ensures Text.DigitsValue(Text.NatToString(i + 1)) == i + 1
  {
    Text.DigitsValueOfNatToString(i + 1);
    Text.NatToString(i + 1) + ". " + e.username + " | " + Text.IntToString(e.score)
  }

  /** The printed ranking: rank `i + 1` on line `i`. */
  function RankLines(ordered: seq<Entry>): (lines: seq<string>)
    ensures |lines| == |ordered|
    ensures forall i :: 0 <= i < |lines| ==> lines[i] == RankLine(i, ordered[i])
  {
    seq(|ordered|, i requires 0 <= i < |ordered| => RankLine(i, ordered[i]))
  }

  /** What the value listener delivers: an error, or the snapshot (existing or not) and its children. */
  datatype ValueEvent = ValueError | ValueDelivered(snapExists: bool, children: seq<Snap>)

  /** The snapshot's entries collected child by child, as the listener's loop does. */
  method CollectEntries(children: seq<Snap>) returns (list: seq<Entry>)
    ensures list == Collected(children)
  {
    list := [];
    var i := 0;
    while i < |children|
      invariant 0 <= i <= |children|
      invariant list == Collected(children[..i])
    {
      assert children[..i + 1][..i] == children[..i];
      list := list + [EntryOf(children[i])];
      i := i + 1;
    }
    assert children[..i] == children;
  }
}

module LeaderBoardManagers {
  import opened Store
  import Text
  import opened Leaderboard

  /** `LeaderBoardManager`: prints the ranking to the log. */
  class LeaderBoardManager {
    const topCount: int
    var queryMade: bool
    var subscribed: bool
    var printed: seq<string>

    constructor (topCount: int)
      ensures this.topCount == topCount && !queryMade && !subscribed && printed == []
    {
      this.topCount := topCount;
      queryMade := false;
      subscribed := false;
      printed := [];
    }

    method Start()
      modifies this
      ensures queryMade && subscribed && printed == old(printed)
    {
      queryMade := true;
      subscribed := true;
    }

    method OnDestroy()
      modifies this
      ensures subscribed == (old(subscribed) && !old(queryMade))
      ensures queryMade == old(queryMade) && printed == old(printed)
    {
      if queryMade {
        subscribed := false;
      }
    }

    /** The loop that prints the ranking, line by line. */
    method PrintRanking(ordered: seq<Entry>) returns (lines: seq<string>)
      ensures lines == RankLines(ordered)
    {
      lines := [];
      var i := 0;
      while i < |ordered|
        invariant 0 <= i <= |ordered|
        invariant |lines| == i
        invariant forall j :: 0 <= j < i ==> lines[j] == RankLine(j, ordered[j])
      {
        lines := lines + [RankLine(i, ordered[i])];
        i := i + 1;
      }
    }

    /**
     * `HandleLeaderboardValueChanged`: an error prints nothing here (its
     * line goes to the error log); a missing snapshot prints the empty
     * notice; otherwise the heading and one line per ranked entry.
     */
    method HandleLeaderboardValueChanged(ev: ValueEvent)
      modifies this
      ensures ev.ValueError? ==> printed == old(printed)
      ensures ev.ValueDelivered? && !ev.snapExists ==> printed == old(printed) + [EmptyNotice]
      ensures ev.ValueDelivered? && ev.snapExists ==>
                printed == old(printed) + [Heading(topCount)] + RankLines(Ranking(ev.children, topCount))
      ensures queryMade == old(queryMade) && subscribed == old(subscribed)
    {
      if ev.ValueError? {
        return;
      }
      if !ev.snapExists {
        printed := printed + [EmptyNotice];
        return;
      }
      var list := CollectEntries(ev.children);
      var ordered := Take(SortDesc(list), topCount);
      var lines := PrintRanking(ordered);
      printed := printed + [Heading(topCount)] + lines;
    }
  }

  /** The line printed for a missing or empty snapshot. */
  const EmptyNotice := "Leaderboard vacío."

  function Heading(topCount: int): string {
    "=== Leaderboard Top " + Text.IntToString(topCount) + " ==="
  }
}

module LeaderboardUI {
  import opened Store
  import Text
  import opened Leaderboard

  /** A spawned entry: its two texts filled, or left blank when the prefab lacks them. */
  datatype EntryView = Blank | Filled(usernameText: string, scoreText: string)

  function ViewOf(hasTexts: bool, e: Entry): (v: EntryView)
    ensures hasTexts ==> v == Filled(e.username, Text.IntToString(e.score))
    ensures !hasTexts ==> v.Blank?
  {
    if hasTexts then Filled(e.username, Text.IntToString(e.score)) else Blank
  }

  /** `LeaderboardUIManager`: shows the ranking as spawned entries. */
  class LeaderboardUIManager {
    const topCount: int
    const prefabHasTexts: bool          // the entry prefab holds at least two texts
    var queryMade: bool
    var subscribed: bool
    var spawnedEntries: seq<EntryView>
    var destroyedEntries: nat           // entries destroyed so far

    constructor (topCount: int, prefabHasTexts: bool)
      ensures this.topCount == topCount && this.prefabHasTexts == prefabHasTexts
      ensures !queryMade && !subscribed && spawnedEntries == [] && destroyedEntries == 0
    {
      this.topCount := topCount;
      this.prefabHasTexts := prefabHasTexts;
      queryMade := false;
      subscribed := false;
      spawnedEntries := [];
      destroyedEntries := 0;
    }

    method Start()
      modifies this
      ensures queryMade && subscribed
      ensures spawnedEntries == old(spawnedEntries) && destroyedEntries == old(destroyedEntries)
    {
      queryMade := true;
      subscribed := true;
    }

    method OnDestroy()
      modifies this
      ensures subscribed == (old(subscribed) && !old(queryMade))
      ensures queryMade == old(queryMade)
      ensures spawnedEntries == old(spawnedEntries) && destroyedEntries == old(destroyedEntries)
    {
      if queryMade {
        subscribed := false;
      }
    }

    /** `ClearEntries`: destroy every spawned entry, then forget them. */
    method ClearEntries()
      modifies this
      ensures spawnedEntries == []
      ensures destroyedEntries == old(destroyedEntries) + |old(spawnedEntries)|
      ensures queryMade == old(queryMade) && subscribed == old(subscribed)
    {
      var i := 0;
      while i < |spawnedEntries|
        invariant 0 <= i <= |spawnedEntries|
        invariant spawnedEntries == old(spawnedEntries)
        invariant destroyedEntries == old(destroyedEntries) + i
        invariant queryMade == old(queryMade) && subscribed == old(subscribed)
      {
        destroyedEntries := destroyedEntries + 1;
        i := i + 1;
      }
      spawnedEntries := [];
    }

    /** `UpdateLeaderboardUI`: clear the old entries, then spawn one per ranked item, in order. */
    method UpdateLeaderboardUI(ordered: seq<Entry>)
      modifies this
      ensures |spawnedEntries| == |ordered|
      ensures forall i :: 0 <= i < |ordered| ==> spawnedEntries[i] == ViewOf(prefabHasTexts, ordered[i])
      ensures destroyedEntries == old(destroyedEntries) + |old(spawnedEntries)|
      ensures queryMade == old(queryMade) && subscribed == old(subscribed)
    {
      ClearEntries();
      var i := 0;
      while i < |ordered|
        invariant 0 <= i <= |ordered|
        invariant |spawnedEntries| == i
        invariant forall j :: 0 <= j < i ==> spawnedEntries[j] == ViewOf(prefabHasTexts, ordered[j])
        invariant destroyedEntries == old(destroyedEntries) + |old(spawnedEntries)|
        invariant queryMade == old(queryMade) && subscribed == old(subscribed)
      {
        var view := ViewOf(prefabHasTexts, ordered[i]);
        spawnedEntries := spawnedEntries + [view];
        i := i + 1;
      }
    }

    /**
     * `HandleLeaderboardValueChanged`: an error changes nothing; a missing
     * snapshot clears the entries; otherwise the entries show the ranking.
     */
    method HandleLeaderboardValueChanged(ev: ValueEvent)
      modifies this
      ensures ev.ValueError? ==> spawnedEntries == old(spawnedEntries) && destroyedEntries == old(destroyedEntries)
      ensures ev.ValueDelivered? && !ev.snapExists ==> spawnedEntries == []
      ensures ev.ValueDelivered? && ev.snapExists ==>
                var r := Ranking(ev.children, topCount);
                && |spawnedEntries| == |r|
                && forall i :: 0 <= i < |r| ==> spawnedEntries[i] == ViewOf(prefabHasTexts, r[i])
      ensures ev.ValueDelivered? ==> destroyedEntries == old(destroyedEntries) + |old(spawnedEntries)|
      ensures queryMade == old(queryMade) && subscribed == old(subscribed)
    {
      if ev.ValueError? {
        return;
      }
      if !ev.snapExists {
        ClearEntries();
        return;
      }
      var list := CollectEntries(ev.children);
      var ordered := Take(SortDesc(list), topCount);
      UpdateLeaderboardUI(ordered);
    }
  }
}
