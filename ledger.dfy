/** The suggestion ledger's two helpers: looking up the latest stored
    suggestion for a (user, file) pair, and building a new ledger entry. */
module Ledger {
  import opened Lists
  import opened Text
  import opened Values
  import opened ChartTypes

  /** The entry belongs to this user and this file. */
  predicate Matches(c: StoredConfig, userId: string, fileName: string)
  {
    c.userId == userId && c.fileName == fileName
  }

  /** The entries for one (user, file) pair, in ledger order. */
  function EntriesFor(store: seq<StoredConfig>, userId: string, fileName: string): (r: seq<StoredConfig>)
    ensures forall c :: c in r <==> c in store && Matches(c, userId, fileName)
  {
    Filter(store, (c: StoredConfig) => Matches(c, userId, fileName))
  }

  /** The pair's entries keep their ledger order and their multiplicity:
      each matching record occurs as often as in the ledger, others never. */
  lemma EntriesKeepOrder(store: seq<StoredConfig>, userId: string, fileName: string)
    ensures IsSubsequence(EntriesFor(store, userId, fileName), store)
    ensures forall c :: multiset(EntriesFor(store, userId, fileName))[c]
                        == if Matches(c, userId, fileName) then multiset(store)[c] else 0
  {
    FilterKeepsOrder(store, (c: StoredConfig) => Matches(c, userId, fileName));
  }

  /** Newest first: no entry is newer than one before it. */
  predicate NewestFirst(s: seq<StoredConfig>)
  {
    forall i, j :: 0 <= i < j < |s| ==> s[i].createdAt >= s[j].createdAt
  }

  /** An entry at least as new as the head of a newest-first list can go
      in front of it. */
  lemma PrependNewest(h: StoredConfig, rest: seq<StoredConfig>)
    ensures NewestFirst(rest) && (rest == [] || h.createdAt >= rest[0].createdAt) ==> NewestFirst([h] + rest)
  {
    if NewestFirst(rest) && (rest == [] || h.createdAt >= rest[0].createdAt) {
      var s := [h] + rest;
      forall i, j | 0 <= i < j < |s| ensures s[i].createdAt >= s[j].createdAt {
        if i == 0 && j > 1 {
          assert s[j] == rest[j - 1] && rest[0].createdAt >= rest[j - 1].createdAt;
        } else if i > 0 {
          assert s[i] == rest[i - 1] && s[j] == rest[j - 1];
        }
      }
    }
  }

  /** Places `x` into a newest-first list before every entry that is not
      newer than it. Used on an entry that comes earlier in the ledger than
      all of `t`, this keeps entries with equal times in ledger order, as
      the stable `Array.prototype.sort` does. */
  function Insert(x: StoredConfig, t: seq<StoredConfig>): (r: seq<StoredConfig>)
    ensures |r| == |t| + 1
    ensures r[0] == if t == [] || x.createdAt >= t[0].createdAt then x else t[0]
  {
    if t == [] || x.createdAt >= t[0].createdAt then [x] + t
    else [t[0]] + Insert(x, t[1..])
  }

  /** Insertion adds `x` and loses nothing. */
  lemma {:induction false} InsertPermutes(x: StoredConfig, t: seq<StoredConfig>)
    ensures multiset(Insert(x, t)) == multiset(t) + multiset{x}
  {
    if t != [] && x.createdAt < t[0].createdAt {
      InsertPermutes(x, t[1..]);
      assert t == [t[0]] + t[1..];
    }
  }

  /** Insertion into a newest-first list keeps it newest first. */
  lemma {:induction false} InsertKeepsOrder(x: StoredConfig, t: seq<StoredConfig>)
    requires NewestFirst(t)
    ensures NewestFirst(Insert(x, t))
  {
    if t == [] || x.createdAt >= t[0].createdAt {
      PrependNewest(x, t);
    } else {
      assert NewestFirst(t[1..]);
      InsertKeepsOrder(x, t[1..]);
      PrependNewest(t[0], Insert(x, t[1..]));
    }
  }

  /** `sort((a, b) => b.createdAt - a.createdAt)`: newest first, and among
      entries created at the same time, the earlier ledger entry first. */
  function SortByRecency(s: seq<StoredConfig>): (r: seq<StoredConfig>)
    ensures |r| == |s|
    ensures multiset(r) == multiset(s)
    ensures NewestFirst(r)
  {
    if s == [] then []
    else
      var rest := SortByRecency(s[1..]);
      assert s == [s[0]] + s[1..];
      InsertPermutes(s[0], rest);
      InsertKeepsOrder(s[0], rest);
      Insert(s[0], rest)
  }

  /** Index `k` holds the newest entry of `s`, and no earlier index holds one
      as new. */
  predicate IsFirstNewest(s: seq<StoredConfig>, k: int)
  {
    && 0 <= k < |s|
    && (forall j :: 0 <= j < |s| ==> s[j].createdAt <= s[k].createdAt)
    && (forall j :: 0 <= j < k ==> s[j].createdAt < s[k].createdAt)
  }

  /** Index `k` of the ledger holds the entry findUserConfig answers with:
      the newest entry for the pair, the earliest one if several share that
      time. */
  predicate IsFirstLatest(store: seq<StoredConfig>, userId: string, fileName: string, k: int)
  {
    && 0 <= k < |store|
    && Matches(store[k], userId, fileName)
    && (forall j :: 0 <= j < |store| && Matches(store[j], userId, fileName) ==> store[j].createdAt <= store[k].createdAt)
    && (forall j :: 0 <= j < k && Matches(store[j], userId, fileName) ==> store[j].createdAt < store[k].createdAt)
  }

  /** At most one index is the first newest. */
  lemma FirstLatestUnique(store: seq<StoredConfig>, userId: string, fileName: string, k1: int, k2: int)
    requires IsFirstLatest(store, userId, fileName, k1) && IsFirstLatest(store, userId, fileName, k2)
    ensures k1 == k2
  {
  }

  /** An entry at least as new as the first newest of the entries after it
      is the first newest of all. */
  lemma FirstNewestStays(s: seq<StoredConfig>, k': int)
    requires s != [] && IsFirstNewest(s[1..], k') && s[0].createdAt >= s[1..][k'].createdAt
    ensures IsFirstNewest(s, 0)
  {
    forall j | 0 < j < |s| ensures s[j].createdAt <= s[0].createdAt {
      assert s[j] == s[1..][j - 1];
    }
  }

  /** An entry older than the first newest of the entries after it leaves
      that one the first newest of all. */
  lemma FirstNewestMoves(s: seq<StoredConfig>, k': int)
    requires s != [] && IsFirstNewest(s[1..], k') && s[0].createdAt < s[1..][k'].createdAt
    ensures IsFirstNewest(s, k' + 1) && s[k' + 1] == s[1..][k']
  {
    forall j | 0 < j < |s| ensures s[j] == s[1..][j - 1] {
    }
  }

  /** The stable sort puts the first newest entry at the head. */
  lemma {:induction false} SortHead(s: seq<StoredConfig>) returns (k: nat)
    requires s != []
    ensures IsFirstNewest(s, k) && SortByRecency(s)[0] == s[k]
  {
    var t := s[1..];
    if t == [] {
      k := 0;
    } else {
      var k' := SortHead(t);
      assert SortByRecency(s) == Insert(s[0], SortByRecency(t));
      if s[0].createdAt >= t[k'].createdAt {
        FirstNewestStays(s, k');
        k := 0;
      } else {
        FirstNewestMoves(s, k');
        k := k' + 1;
      }
    }
  }

  /** Past a first newest entry at a later index, the rest of the list
      keeps it as its first newest, and the first entry is older. */
  lemma FirstNewestOfTail(s: seq<StoredConfig>, k: int)
    requires IsFirstNewest(s, k) && k > 0
    ensures IsFirstNewest(s[1..], k - 1) && s[1..][k - 1] == s[k] && s[0].createdAt < s[k].createdAt
  {
    forall j | 0 <= j < |s| - 1 ensures s[1..][j] == s[j + 1] {
    }
  }

  /** The first latest entry of the ledger past its first entry stays the
      first latest when that entry is for another pair or older. */
  lemma FirstLatestShift(store: seq<StoredConfig>, userId: string, fileName: string, k: int)
    requires store != [] && IsFirstLatest(store[1..], userId, fileName, k)
    requires Matches(store[0], userId, fileName) ==> store[0].createdAt < store[1..][k].createdAt
    ensures IsFirstLatest(store, userId, fileName, k + 1) && store[k + 1] == store[1..][k]
  {
    forall j | 0 < j < |store| ensures store[j] == store[1..][j - 1] {
    }
  }

  /** The first newest entry among a pair's entries is the first newest
      entry for that pair in the whole ledger. */
  lemma {:induction false} FirstNewestOfEntries(store: seq<StoredConfig>, userId: string, fileName: string, k': int)
    returns (k: nat)
    requires IsFirstNewest(EntriesFor(store, userId, fileName), k')
    ensures IsFirstLatest(store, userId, fileName, k)
    ensures store[k] == EntriesFor(store, userId, fileName)[k']
  {
    var mine := EntriesFor(store, userId, fileName);
    var rest := store[1..];
    var mineRest := EntriesFor(rest, userId, fileName);
    assert store == [store[0]] + rest;
    if Matches(store[0], userId, fileName) {
      assert mine == [store[0]] + mineRest;
      if k' == 0 {
        k := 0;
        forall j | 0 <= j < |store| && Matches(store[j], userId, fileName)
          ensures store[j].createdAt <= store[0].createdAt
        {
          assert store[j] in mine;
        }
      } else {
        FirstNewestOfTail(mine, k');
        assert mine[1..] == mineRest;
        var k0 := FirstNewestOfEntries(rest, userId, fileName, k' - 1);
        FirstLatestShift(store, userId, fileName, k0);
        k := k0 + 1;
      }
    } else {
      assert mine == mineRest;
      var k0 := FirstNewestOfEntries(rest, userId, fileName, k');
      FirstLatestShift(store, userId, fileName, k0);
      k := k0 + 1;
    }
  }

  /** The head of a pair's sorted entries is the pair's first latest entry. */
  lemma SortedEntriesHead(store: seq<StoredConfig>, userId: string, fileName: string)
    requires EntriesFor(store, userId, fileName) != []
    ensures exists k :: IsFirstLatest(store, userId, fileName, k)
                     && SortByRecency(EntriesFor(store, userId, fileName))[0] == store[k]
  {
    var k' := SortHead(EntriesFor(store, userId, fileName));
    var k := FirstNewestOfEntries(store, userId, fileName, k');
  }

  /** What findUserConfig returns: the suggestion, if there is one, and the
      feedback count stored with it. */
  datatype LatestConfig = LatestConfig(suggestion: Option<Suggestion>, feedbackCount: int)

  /** findUserConfig: the entries for the pair, sorted newest first; the
      head's suggestion and feedback count, or no suggestion and a count of
      zero. The stored count is always a number, so `|| 0` leaves it as it
      is. */
  function FindUserConfig(userId: string, fileName: string, store: seq<StoredConfig>): (r: LatestConfig)
    ensures r.suggestion.None? <==> forall i :: 0 <= i < |store| ==> !Matches(store[i], userId, fileName)
    ensures r.suggestion.None? ==> r.feedbackCount == 0
    ensures r.suggestion.Some? ==>
              exists k :: IsFirstLatest(store, userId, fileName, k)
                       && r.suggestion.value == store[k].suggestion
                       && r.feedbackCount == store[k].feedbackCount
  {
    var mine := EntriesFor(store, userId, fileName);
    var sorted := SortByRecency(mine);
    if |sorted| > 0 then
      SortedEntriesHead(store, userId, fileName);
      LatestConfig(Some(sorted[0].suggestion), sorted[0].feedbackCount)
    else
      assert forall i :: 0 <= i < |store| ==> store[i] !in mine;
      LatestConfig(None, 0)
  }

  /** The identifier `chart_${now}_${userId}`. */
  function ConfigId(now: nat, userId: string): string
  {
    "chart_" + NatToString(now) + "_" + userId
  }

  /** createChartConfig, with both clock readings taken as `now`
      (milliseconds since the epoch). */
  function CreateChartConfig(userId: string, fileName: string, suggestion: Suggestion, feedbackCount: int, now: nat): (r: StoredConfig)
    ensures r.id == ConfigId(now, userId)
    ensures Matches(r, userId, fileName)
    ensures r.suggestion == suggestion && r.feedbackCount == feedbackCount && r.createdAt == now
  {
    StoredConfig(ConfigId(now, userId), userId, fileName, suggestion, now, feedbackCount)
  }

  /** The identifier gives back the time and the user it was built from: no
      two entries made at different times, or for different users, share
      an identifier. */
  lemma ConfigIdInjective(now1: nat, user1: string, now2: nat, user2: string)
    requires ConfigId(now1, user1) == ConfigId(now2, user2)
    ensures now1 == now2 && user1 == user2
  {
    var a := NatToString(now1);
    var b := NatToString(now2);
    assert ConfigId(now1, user1) == "chart_" + (a + ['_'] + user1);
    assert ConfigId(now2, user2) == "chart_" + (b + ['_'] + user2);
    assert a + ['_'] + user1 == b + ['_'] + user2 by {
      assert a + ['_'] + user1 == ConfigId(now1, user1)[6..];
      assert b + ['_'] + user2 == ConfigId(now2, user2)[6..];
    }
    DigitsThenSeparator(a, user1, b, user2, '_');
    NatToStringRoundTrip(now1);
    NatToStringRoundTrip(now2);
  }

  /** Entries for other pairs do not change a lookup. */
  lemma LookupIgnoresOthers(userId: string, fileName: string, store: seq<StoredConfig>, c: StoredConfig)
    requires !Matches(c, userId, fileName)
    ensures FindUserConfig(userId, fileName, store + [c]) == FindUserConfig(userId, fileName, store)
  {
    var p := (c: StoredConfig) => Matches(c, userId, fileName);
    FilterAppend(store, [c], p);
    assert Filter([c], p) == [];
    assert EntriesFor(store + [c], userId, fileName) == EntriesFor(store, userId, fileName) + [];
    assert EntriesFor(store, userId, fileName) + [] == EntriesFor(store, userId, fileName);
  }

  /** An entry newer than every entry already in the ledger is what the next
      lookup for its pair returns. */
  lemma LatestAfterAppend(store: seq<StoredConfig>, c: StoredConfig)
    requires forall i :: 0 <= i < |store| ==> store[i].createdAt < c.createdAt
    ensures FindUserConfig(c.userId, c.fileName, store + [c]) == LatestConfig(Some(c.suggestion), c.feedbackCount)
  {
    var s := store + [c];
    var r := FindUserConfig(c.userId, c.fileName, s);
    assert s[|store|] == c;
    var k :| IsFirstLatest(s, c.userId, c.fileName, k)
          && r.suggestion.value == s[k].suggestion
          && r.feedbackCount == s[k].feedbackCount;
    assert IsFirstLatest(s, c.userId, c.fileName, |store|);
    FirstLatestUnique(s, c.userId, c.fileName, k, |store|);
  }

  /** An entry made in the same millisecond as the newest entry for its pair
      does not replace it: the lookup keeps returning the earlier entry. */
  lemma SameTimeKeepsEarlier(store: seq<StoredConfig>, k: int, c: StoredConfig)
    requires IsFirstLatest(store, c.userId, c.fileName, k)
    requires c.createdAt == store[k].createdAt
    ensures FindUserConfig(c.userId, c.fileName, store + [c])
         == LatestConfig(Some(store[k].suggestion), store[k].feedbackCount)
  {
    var s := store + [c];
    var r := FindUserConfig(c.userId, c.fileName, s);
    assert s[k] == store[k] && s[|store|] == c;
    assert r.suggestion.Some?;
    var k2 :| IsFirstLatest(s, c.userId, c.fileName, k2)
           && r.suggestion.value == s[k2].suggestion
           && r.feedbackCount == s[k2].feedbackCount;
    assert IsFirstLatest(s, c.userId, c.fileName, k) by {
      forall j | 0 <= j < |s| && Matches(s[j], c.userId, c.fileName)
        ensures s[j].createdAt <= s[k].createdAt
      {
        if j < |store| { assert s[j] == store[j]; }
      }
      forall j | 0 <= j < k && Matches(s[j], c.userId, c.fileName)
        ensures s[j].createdAt < s[k].createdAt
      {
        assert s[j] == store[j];
      }
    }
    FirstLatestUnique(s, c.userId, c.fileName, k, k2);
  }
}
