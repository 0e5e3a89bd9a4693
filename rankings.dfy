/** The leaderboards of the rankings tab (`populate_rankings`): for uploads,
    downloads and deletions, the users of the rows whose event names that
    action, counted, sorted by count, cut to the first ten, and stored in a new
    leaderboard buffer with ranks 1, 2, ... and each user's name and e-mail. */
module Rankings {
  import opened Common
  import opened Sheets
  import RankingLogs

  /** The search term of each leaderboard and the kind it is stored under. */
  const Categories: seq<(string, string)> := [("上傳", "upload"), ("下載", "download"), ("刪除", "delete")]

  /** How many places a leaderboard has. */
  const Places: nat := 10

  // ---------------------------------------------------------------- the user directory

  /** What the directory keeps of a user. */
  datatype Contact = Contact(description: Json, email: Json)

  /** The contact a user record gives: "N/A" for a field it lacks. */
  function ContactFields(user: Record): Contact
  {
    Contact(Get(user, "description", JStr("N/A")), Get(user, "email", JStr("N/A")))
  }

  /** The names of the listed users, in list order. */
  function Names(users: seq<Record>): (names: seq<Json>)
    requires forall i :: 0 <= i < |users| ==> "name" in users[i]
    ensures |names| == |users| && forall i :: 0 <= i < |users| ==> names[i] == users[i]["name"]
  {
    seq(|users|, i requires 0 <= i < |users| => users[i]["name"])
  }

  /** The dictionary from user name to contact; a user without a name raises
      KeyError 'name', and a later user with the same name replaces an earlier one. */
  function Directory(users: seq<Record>): (r: Result<map<Json, Contact>, Error>)
    ensures r.Success? <==> forall i :: 0 <= i < |users| ==> "name" in users[i]
    ensures r.Failure? ==> r.error == Raised(KeyErrorText("name"))
    ensures r.Success? ==> forall k :: k in r.value <==> k in Names(users)
  {
    if users == [] then Success(map[])
    else
      var last := users[|users| - 1];
      match Directory(users[..|users| - 1])
      case Failure(e) => Failure(e)
      case Success(dir) =>
        if "name" !in last then Failure(Raised(KeyErrorText("name")))
        else
          assert Names(users) == Names(users[..|users| - 1]) + [last["name"]];
          Success(dir[last["name"] := ContactFields(last)])
  }

  /** A name maps to the contact of the last user listed under it. */
  lemma {:induction false} LastUserWins(users: seq<Record>, i: nat)
    requires Directory(users).Success? && i < |users|
    requires forall j :: i < j < |users| ==> users[j]["name"] != users[i]["name"]
    ensures Directory(users).value[users[i]["name"]] == ContactFields(users[i])
  {
    var init := users[..|users| - 1];
    if i < |users| - 1 {
      assert forall j :: i < j < |init| ==> init[j] == users[j];
      LastUserWins(init, i);
    }
  }

  /** `user_info_dict.get(x, {}).get(...)`: a user the directory lacks gets blanks. */
  function ContactOf(dir: map<Json, Contact>, user: Json): Contact
  {
    if user in dir then dir[user] else Contact(JStr(""), JStr(""))
  }

  // ---------------------------------------------------------------- counting

  /** `df["事件"].str.contains(term, na=False)`: a row whose event is text containing the term. */
  predicate Matches(e: Entry, term: string)
  {
    match Get(e, "事件", JNull)
    case JStr(event) => Contains(event, term)
    case _ => false
  }

  /** The users of the matching rows, in row order; `groupby` drops rows without a user. */
  function Matching(rows: seq<Entry>, term: string): (users: seq<Json>)
    ensures |users| <= |rows| && JNull !in users
  {
    if rows == [] then []
    else
      var last := rows[|rows| - 1];
      var user := Get(last, "使用者", JNull);
      Matching(rows[..|rows| - 1], term) + if Matches(last, term) && user != JNull then [user] else []
  }

  predicate NoDuplicates(s: seq<Json>)
  {
    forall i, j :: 0 <= i < j < |s| ==> s[i] != s[j]
  }

  /** The distinct users, in order of first appearance. */
  function Distinct(users: seq<Json>): (d: seq<Json>)
    ensures forall u :: u in d <==> u in users
    ensures NoDuplicates(d)
  {
    if users == [] then []
    else
      var init := Distinct(users[..|users| - 1]);
      var last := users[|users| - 1];
      assert forall u :: u in users <==> u in users[..|users| - 1] || u == last;
      if last in init then init else init + [last]
  }

  /** A user and the number of matching rows that name them. */
  datatype Standing = Standing(user: Json, count: nat)

  /** `groupby("使用者").size()`: every distinct user with their count. */
  function Tally(users: seq<Json>): (t: seq<Standing>)
    ensures |t| == |Distinct(users)|
    ensures forall i :: 0 <= i < |t| ==> t[i] == Standing(Distinct(users)[i], multiset(users)[Distinct(users)[i]])
  {
    var d := Distinct(users);
    seq(|d|, i requires 0 <= i < |d| => Standing(d[i], multiset(users)[d[i]]))
  }

  // ---------------------------------------------------------------- sorting

  predicate Descending(t: seq<Standing>)
  {
    forall i, j :: 0 <= i < j < |t| ==> t[i].count >= t[j].count
  }

  predicate DistinctUsers(t: seq<Standing>)
  {
    forall i, j :: 0 <= i < j < |t| ==> t[i].user != t[j].user
  }

  /** Places a standing after every standing with at least its count. */
  function Insert(s: Standing, sorted: seq<Standing>): (r: seq<Standing>)
    ensures multiset(r) == multiset(sorted) + multiset{s}
  {
    if sorted == [] then [s]
    else if sorted[0].count >= s.count then
      assert sorted == [sorted[0]] + sorted[1..];
      [sorted[0]] + Insert(s, sorted[1..])
    else [s] + sorted
  }

  /** Every standing of an insertion is the inserted one or was there before. */
  lemma InsertMembers(s: Standing, sorted: seq<Standing>, x: Standing)
    requires x in Insert(s, sorted)
    ensures x == s || x in sorted
  {
    assert x in multiset(Insert(s, sorted));
  }

  /** Inserting keeps a descending list descending. */
  lemma {:induction false} InsertDescending(s: Standing, sorted: seq<Standing>)
    requires Descending(sorted)
    ensures Descending(Insert(s, sorted))
  {
    if sorted != [] && sorted[0].count >= s.count {
      var tail := sorted[1..];
      var rest := Insert(s, tail);
      InsertDescending(s, tail);
      var r := Insert(s, sorted);
      assert r == [sorted[0]] + rest;
      forall i, j | 0 <= i < j < |r| ensures r[i].count >= r[j].count {
        if i == 0 {
          assert r[j] == rest[j - 1];
          InsertMembers(s, tail, r[j]);
          if r[j] != s {
            var k :| 0 <= k < |tail| && tail[k] == r[j];
            assert tail[k] == sorted[k + 1];
          }
        } else {
          assert r[i] == rest[i - 1] && r[j] == rest[j - 1];
        }
      }
    }
  }

  /** Inserting a user not yet listed keeps the users distinct. */
  lemma {:induction false} InsertDistinct(s: Standing, sorted: seq<Standing>)
    requires DistinctUsers(sorted) && forall x :: x in sorted ==> x.user != s.user
    ensures DistinctUsers(Insert(s, sorted))
  {
    if sorted != [] && sorted[0].count >= s.count {
      var tail := sorted[1..];
      var rest := Insert(s, tail);
      assert forall x :: x in tail ==> x in sorted;
      InsertDistinct(s, tail);
      var r := Insert(s, sorted);
      assert r == [sorted[0]] + rest;
      forall i, j | 0 <= i < j < |r| ensures r[i].user != r[j].user {
        if i == 0 {
          assert r[j] == rest[j - 1];
          InsertMembers(s, tail, r[j]);
          if r[j] != s {
            var k :| 0 <= k < |tail| && tail[k] == r[j];
            assert tail[k] == sorted[k + 1];
          }
        } else {
          assert r[i] == rest[i - 1] && r[j] == rest[j - 1];
        }
      }
    }
  }

  /** `sort_values(ascending=False)`: the standings by count, largest first; this
      order keeps tied users in tally order. */
  function SortByCount(t: seq<Standing>): (r: seq<Standing>)
    ensures multiset(r) == multiset(t) && |r| == |t|
  {
    if t == [] then []
    else
      assert t == [t[0]] + t[1..];
      Insert(t[0], SortByCount(t[1..]))
  }

  /** The sorted tally is descending and, like the tally, lists each user once. */
  lemma {:induction false} SortByCountSorted(t: seq<Standing>)
    ensures Descending(SortByCount(t))
    ensures DistinctUsers(t) ==> DistinctUsers(SortByCount(t))
  {
    if t != [] {
      var rest := SortByCount(t[1..]);
      SortByCountSorted(t[1..]);
      InsertDescending(t[0], rest);
      if DistinctUsers(t) {
        assert t == [t[0]] + t[1..];
        forall x | x in rest ensures x.user != t[0].user {
          assert x in multiset(rest);
          assert x in t[1..];
        }
        InsertDistinct(t[0], rest);
      }
    }
  }

  /** `head(10)` of the sorted tally: the leaderboard of some users. */
  function Top(users: seq<Json>): (board: seq<Standing>)
    ensures |board| <= Places
  {
    var sorted := SortByCount(Tally(users));
    if |sorted| <= Places then sorted else sorted[..Places]
  }

  /** What makes a list a leaderboard of `users`, whatever the order of ties:
      each place names a user with their count, no user twice, counts never
      rise, there are as many places as users up to ten, and every user left off
      counts no more than the last place. */
  predicate IsLeaderboard(board: seq<Standing>, users: seq<Json>)
  {
    && (forall i :: 0 <= i < |board| ==> board[i].user in users && board[i].count == multiset(users)[board[i].user])
    && DistinctUsers(board)
    && Descending(board)
    && |board| == (if |Distinct(users)| <= Places then |Distinct(users)| else Places)
    && (forall u :: u in users && (forall i :: 0 <= i < |board| ==> board[i].user != u) ==>
          |board| == Places && multiset(users)[u] <= board[Places - 1].count)
  }

  /** The tally lists each user once, with their count. */
  lemma TallyFacts(users: seq<Json>)
    ensures DistinctUsers(Tally(users))
    ensures forall x :: x in Tally(users) ==> x.user in users && x.count == multiset(users)[x.user]
    ensures forall u :: u in users ==> Standing(u, multiset(users)[u]) in Tally(users)
  {
    var t, d := Tally(users), Distinct(users);
    forall u | u in users ensures Standing(u, multiset(users)[u]) in t {
      var k :| 0 <= k < |d| && d[k] == u;
      assert t[k] == Standing(u, multiset(users)[u]);
    }
  }

  /** A user missing from the board sits at place ten or later of the sorted tally. */
  lemma ExcludedRanksLow(users: seq<Json>, u: Json)
    requires u in users
    requires forall i :: 0 <= i < |Top(users)| ==> Top(users)[i].user != u
    ensures |Top(users)| == Places && multiset(users)[u] <= Top(users)[Places - 1].count
  {
    var sorted := SortByCount(Tally(users));
    TallyFacts(users);
    var s := Standing(u, multiset(users)[u]);
    assert s in multiset(Tally(users));
    assert s in multiset(sorted);
    var m :| 0 <= m < |sorted| && sorted[m] == s;
    SortByCountSorted(Tally(users));
    if m < |Top(users)| {
      assert false;
    }
    assert sorted[Places - 1].count >= sorted[m].count;
  }

  /** Each place holds a matching user with their count. */
  lemma TopCounts(users: seq<Json>)
    ensures forall i :: 0 <= i < |Top(users)| ==>
      Top(users)[i].user in users && Top(users)[i].count == multiset(users)[Top(users)[i].user]
  {
    var sorted := SortByCount(Tally(users));
    var board := Top(users);
    TallyFacts(users);
    forall i | 0 <= i < |board|
      ensures board[i].user in users && board[i].count == multiset(users)[board[i].user]
    {
      assert board[i] == sorted[i];
      assert sorted[i] in multiset(Tally(users));
    }
  }

  /** The places are a prefix of the sorted tally, so no user appears twice and
      counts never rise. */
  lemma TopOrdered(users: seq<Json>)
    ensures DistinctUsers(Top(users)) && Descending(Top(users))
  {
    var sorted := SortByCount(Tally(users));
    TallyFacts(users);
    SortByCountSorted(Tally(users));
    assert forall i :: 0 <= i < |Top(users)| ==> Top(users)[i] == sorted[i];
  }

  /** The pipeline's result is a leaderboard of the matching users. */
  lemma TopIsLeaderboard(users: seq<Json>)
    ensures IsLeaderboard(Top(users), users)
  {
    var board := Top(users);
    TopCounts(users);
    TopOrdered(users);
    forall u | u in users && (forall i :: 0 <= i < |board| ==> board[i].user != u)
      ensures |board| == Places && multiset(users)[u] <= board[Places - 1].count
    {
      ExcludedRanksLow(users, u);
    }
  }

  // ---------------------------------------------------------------- the stored leaderboards

  /** The rows `add_log` stores for one leaderboard: rank `idx + 1`, the user,
      the count, and the directory's name and e-mail for the user. */
  function BoardEntries(kind: string, board: seq<Standing>, dir: map<Json, Contact>): (entries: seq<Entry>)
    ensures |entries| == |board|
    ensures forall i :: 0 <= i < |board| ==> entries[i] == RankingLogs.RankingEntry(kind, i + 1, board[i].user,
              board[i].count, ContactOf(dir, board[i].user).description, ContactOf(dir, board[i].user).email)
  {
    seq(|board|, i requires 0 <= i < |board| => RankingLogs.RankingEntry(kind, i + 1, board[i].user,
        board[i].count, ContactOf(dir, board[i].user).description, ContactOf(dir, board[i].user).email))
  }

  /** The leaderboard of one category over the rankings tab's rows. */
  function CategoryBoard(rows: seq<Entry>, c: nat): seq<Standing>
    requires c < |Categories|
  {
    Top(Matching(rows, Categories[c].0))
  }

  /** What the buffer holds after the first `c` categories. */
  function Leaderboards(rows: seq<Entry>, dir: map<Json, Contact>, c: nat): seq<Entry>
    requires c <= |Categories|
  {
    if c == 0 then []
    else Leaderboards(rows, dir, c - 1) + BoardEntries(Categories[c - 1].1, CategoryBoard(rows, c - 1), dir)
  }

  /** The stored rows are ranked 1, 2, ... without gaps, and show the user, the
      count, and the user's name and e-mail, blank for a user the directory lacks. */
  lemma StoredRows(kind: string, board: seq<Standing>, dir: map<Json, Contact>, i: nat)
    requires i < |board|
    ensures var e := BoardEntries(kind, board, dir)[i];
      && Row(e, RankingLogs.RankingColumns)
         == [JStr(IntText(i + 1)), board[i].user, JStr(IntText(board[i].count)),
             ContactOf(dir, board[i].user).description, ContactOf(dir, board[i].user).email]
      && RankingLogs.KindOf(e) == JStr(kind)
    ensures board[i].user !in dir ==> ContactOf(dir, board[i].user) == Contact(JStr(""), JStr(""))
  {
    var c := ContactOf(dir, board[i].user);
    RankingLogs.RankingEntryFields(kind, i + 1, board[i].user, board[i].count, c.description, c.email);
  }

  /** Selecting a kind keeps all of a leaderboard of that kind and none of another. */
  lemma OfKindBoard(kind: string, other: string, board: seq<Standing>, dir: map<Json, Contact>)
    ensures RankingLogs.OfKind(BoardEntries(kind, board, dir), kind) == BoardEntries(kind, board, dir)
    ensures other != kind ==> RankingLogs.OfKind(BoardEntries(kind, board, dir), other) == []
  {
    var entries := BoardEntries(kind, board, dir);
    forall i | 0 <= i < |entries| ensures RankingLogs.KindOf(entries[i]) == JStr(kind) {
      var c := ContactOf(dir, board[i].user);
      RankingLogs.RowOfFields(JStr(IntText(i + 1)), board[i].user, JStr(IntText(board[i].count)),
                              c.description, c.email, JStr(kind));
    }
    OfKindUniform(entries, kind, other);
  }

  /** Rows that all have one kind are all selected by it and none by another. */
  lemma {:induction false} OfKindUniform(entries: seq<Entry>, kind: string, other: string)
    requires forall i :: 0 <= i < |entries| ==> RankingLogs.KindOf(entries[i]) == JStr(kind)
    ensures RankingLogs.OfKind(entries, kind) == entries
    ensures other != kind ==> RankingLogs.OfKind(entries, other) == []
  {
    if entries != [] {
      var init := entries[..|entries| - 1];
      OfKindUniform(init, kind, other);
      assert entries == init + [entries[|entries| - 1]];
    }
  }

  lemma LeaderboardsUnfold(rows: seq<Entry>, dir: map<Json, Contact>)
    ensures Leaderboards(rows, dir, |Categories|)
      == BoardEntries(Categories[0].1, CategoryBoard(rows, 0), dir)
       + BoardEntries(Categories[1].1, CategoryBoard(rows, 1), dir)
       + BoardEntries(Categories[2].1, CategoryBoard(rows, 2), dir)
  {
    assert Leaderboards(rows, dir, 1) == BoardEntries(Categories[0].1, CategoryBoard(rows, 0), dir);
    assert Leaderboards(rows, dir, 2) == Leaderboards(rows, dir, 1) + BoardEntries(Categories[1].1, CategoryBoard(rows, 1), dir);
    assert Leaderboards(rows, dir, 3) == Leaderboards(rows, dir, 2) + BoardEntries(Categories[2].1, CategoryBoard(rows, 2), dir);
  }

  lemma KindsDistinct()
    ensures Categories[0].1 != Categories[1].1 && Categories[1].1 != Categories[2].1 && Categories[0].1 != Categories[2].1
  {
    assert Categories[0].1[0] == 'u' && Categories[1].1[2] == 'w' && Categories[2].1[2] == 'l';
  }

  /** Selecting one kind from three leaderboards of distinct kinds gives that one. */
  lemma SelectOneOfThree(k0: string, k1: string, k2: string, b0: seq<Standing>, b1: seq<Standing>, b2: seq<Standing>,
                         dir: map<Json, Contact>, kind: string)
    requires k0 != k1 && k1 != k2 && k0 != k2 && (kind == k0 || kind == k1 || kind == k2)
    ensures var e0, e1, e2 := BoardEntries(k0, b0, dir), BoardEntries(k1, b1, dir), BoardEntries(k2, b2, dir);
      && (kind == k0 ==> RankingLogs.OfKind(e0 + e1 + e2, kind) == e0)
      && (kind == k1 ==> RankingLogs.OfKind(e0 + e1 + e2, kind) == e1)
      && (kind == k2 ==> RankingLogs.OfKind(e0 + e1 + e2, kind) == e2)
  {
    var e0, e1, e2 := BoardEntries(k0, b0, dir), BoardEntries(k1, b1, dir), BoardEntries(k2, b2, dir);
    RankingLogs.OfKindAppend(e0 + e1, e2, kind);
    RankingLogs.OfKindAppend(e0, e1, kind);
    OfKindBoard(k0, kind, b0, dir);
    OfKindBoard(k1, kind, b1, dir);
    OfKindBoard(k2, kind, b2, dir);
  }

  /** Each leaderboard's worksheet shows exactly that category's leaderboard. */
  lemma SheetShowsItsBoard(rows: seq<Entry>, dir: map<Json, Contact>, c: nat)
    requires c < |Categories|
    ensures RankingLogs.OfKind(Leaderboards(rows, dir, |Categories|), Categories[c].1)
      == BoardEntries(Categories[c].1, CategoryBoard(rows, c), dir)
  {
    LeaderboardsUnfold(rows, dir);
    KindsDistinct();
    var k0, k1, k2 := Categories[0].1, Categories[1].1, Categories[2].1;
    var b0, b1, b2 := CategoryBoard(rows, 0), CategoryBoard(rows, 1), CategoryBoard(rows, 2);
    SelectOneOfThree(k0, k1, k2, b0, b1, b2, dir, Categories[c].1);
    if c == 0 {
      assert Categories[c].1 == k0 && CategoryBoard(rows, c) == b0;
    } else if c == 1 {
      assert Categories[c].1 == k1 && CategoryBoard(rows, c) == b1;
    } else {
      assert Categories[c].1 == k2 && CategoryBoard(rows, c) == b2;
    }
  }

  /** One more place of a leaderboard adds one row at the end. */
  lemma BoardEntriesSnoc(kind: string, board: seq<Standing>, dir: map<Json, Contact>, idx: nat)
    requires idx < |board|
    ensures BoardEntries(kind, board[..idx + 1], dir) == BoardEntries(kind, board[..idx], dir)
      + [RankingLogs.RankingEntry(kind, idx + 1, board[idx].user, board[idx].count,
                                  ContactOf(dir, board[idx].user).description, ContactOf(dir, board[idx].user).email)]
  {
    var x, y := BoardEntries(kind, board[..idx + 1], dir), BoardEntries(kind, board[..idx], dir);
    assert forall i :: 0 <= i < idx ==> board[..idx + 1][i] == board[..idx][i];
  }

  /** `populate_rankings`: builds the directory, then a new leaderboard buffer
      filled category by category; a directory error ends it before any buffer. */
  method PopulateRankings(rows: seq<Entry>, users: seq<Record>, home: string, now: Clock)
    returns (r: Result<RankingLogs.RankingLog, Error>)
    ensures r.Failure? <==> Directory(users).Failure?
    ensures r.Failure? ==> r.error == Raised(KeyErrorText("name"))
    ensures r.Success? ==> fresh(r.value) && r.value.logs == Leaderboards(rows, Directory(users).value, |Categories|)
  {
    var found := Directory(users);
    if found.Failure? {
      return Failure(found.error);
    }
    var dir := found.value;
    var ranking := new RankingLogs.RankingLog(home, now);
    for c := 0 to |Categories|
      invariant fresh(ranking)
      invariant ranking.logs == Leaderboards(rows, dir, c)
    {
      var (term, kind) := Categories[c];
      var board := Top(Matching(rows, term));
      StoreBoard(ranking, kind, board, dir);
    }
    return Success(ranking);
  }

  /** The inner loop of `populate_rankings`: one `add_log` per place, in rank order. */
  method StoreBoard(ranking: RankingLogs.RankingLog, kind: string, board: seq<Standing>, dir: map<Json, Contact>)
    modifies ranking
    ensures ranking.logs == old(ranking.logs) + BoardEntries(kind, board, dir)
  {
    for idx := 0 to |board|
      invariant ranking.logs == old(ranking.logs) + BoardEntries(kind, board[..idx], dir)
    {
      var contact := ContactOf(dir, board[idx].user);
      BoardEntriesSnoc(kind, board, dir, idx);
      ranking.AddLog(kind, idx + 1, board[idx].user, board[idx].count, contact.description, contact.email);
    }
    assert board[..|board|] == board;
  }
}
