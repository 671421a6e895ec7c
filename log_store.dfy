/**
 * The logs collection behind the repository (src/modules/logs/infra/MongoLogRepository.js),
 * held in memory as a sequence of stored records in insertion order. Identifiers
 * are serial numbers; their 24-digit hexadecimal form is what a client sends back.
 * The match between a search term and a text (a case-insensitive regular
 * expression in the source) is the parameter `matches`.
 */
module LogStorage {
  import opened Wrappers
  import opened JsValues
  import opened Errors
  import opened ObjectIds
  import opened LogEntities

  /** A document of the collection: the entity as built, plus the identifier the insert assigned. */
  datatype StoredLog = StoredLog(id: nat, log: LogEntity)

  /** What `findPaginated` returns. */
  datatype Page = Page(data: seq<StoredLog>, currentPage: int, totalPages: int)

  /** `matches(term, text)`: whether the search term, read as a pattern, occurs in the text. */
  type Matcher = (string, string) -> bool

  const InvalidIdMessage: string := "ID inválido."

  predicate Live(x: StoredLog) {
    !x.log.isDeleted
  }

  /** An empty term selects everything; otherwise the title, the content or one tag must match. */
  predicate SearchHit(term: string, matches: Matcher, log: LogEntity) {
    || term == ""
    || matches(term, log.title)
    || matches(term, log.content)
    || exists i :: 0 <= i < |log.tags| && matches(term, log.tags[i])
  }

  predicate Selected(x: StoredLog, term: string, matches: Matcher) {
    Live(x) && SearchHit(term, matches, x.log)
  }

  /** The documents the query filter `{ isDeleted: false, ...searchFilter }` selects, in collection order. */
  function Matching(records: seq<StoredLog>, term: string, matches: Matcher): (r: seq<StoredLog>)
    ensures |r| <= |records|
    ensures forall x :: x in r <==> x in records && Selected(x, term, matches)
  {
    if records == [] then []
    else
      (if Selected(records[0], term, matches) then [records[0]] else [])
      + Matching(records[1..], term, matches)
  }

  /** Ordered by `createdAt`, newest first (`sort({ createdAt: -1 })`). */
  predicate NewestFirst(s: seq<StoredLog>) {
    forall i, j :: 0 <= i < j < |s| ==> s[i].log.createdAt >= s[j].log.createdAt
  }

  function InsertByNewest(x: StoredLog, s: seq<StoredLog>): (r: seq<StoredLog>)
    requires NewestFirst(s)
    ensures |r| == |s| + 1 && multiset(r) == multiset(s) + multiset{x}
    ensures NewestFirst(r)
    ensures r[0] == x || (s != [] && r[0] == s[0])
  {
    if s == [] || x.log.createdAt >= s[0].log.createdAt then
      NewestFirstCons(x, s);
      [x] + s
    else
      assert s == [s[0]] + s[1..];
      var rest := InsertByNewest(x, s[1..]);
      assert rest[0] == x || rest[0] == s[1];
      assert s[0].log.createdAt >= rest[0].log.createdAt;
      NewestFirstCons(s[0], rest);
      assert multiset([s[0]] + rest) == multiset{s[0]} + multiset(rest);
      [s[0]] + rest
  }

  /** A document no older than the head of an ordered sequence can go in front of it. */
  lemma NewestFirstCons(y: StoredLog, t: seq<StoredLog>)
    requires NewestFirst(t)
    requires t == [] || y.log.createdAt >= t[0].log.createdAt
    ensures NewestFirst([y] + t)
  {
  }

  /** The documents reordered newest first; ties keep their collection order. */
  function SortNewestFirst(s: seq<StoredLog>): (r: seq<StoredLog>)
    ensures |r| == |s| && multiset(r) == multiset(s)
    ensures NewestFirst(r)
  {
    if s == [] then []
    else
      assert s == [s[0]] + s[1..];
      InsertByNewest(s[0], SortNewestFirst(s[1..]))
  }

  /** `.skip(skip).limit(limit)` */
  function Window(s: seq<StoredLog>, skip: nat, limit: nat): (r: seq<StoredLog>)
    ensures |r| <= limit
    ensures skip >= |s| ==> r == []
    ensures forall k :: 0 <= k < |r| ==> skip + k < |s| && r[k] == s[skip + k]
    ensures skip + limit <= |s| ==> |r| == limit
    ensures skip < |s| ==> |r| == Min(limit, |s| - skip)
  {
    s[Min(skip, |s|)..Min(skip + limit, |s|)]
  }

  /** The matching documents in the order the listing shows them. */
  function Listing(records: seq<StoredLog>, term: string, matches: Matcher): seq<StoredLog> {
    SortNewestFirst(Matching(records, term, matches))
  }

  /**
   * `findPaginated({ page, limit, searchTerm })` on the collection: skip the first
   * `(page - 1) * limit` documents of the listing and keep the next `limit`; the
   * page count is the number of matching documents over the limit, rounded up.
   * Its only caller passes a page of at least 1 and a limit of 5.
   */
  function FindPaginated(records: seq<StoredLog>, page: int, limit: int, term: string, matches: Matcher): (p: Page)
    requires page >= 1 && limit >= 1
    ensures p.currentPage == page
    ensures p.totalPages == CeilDiv(|Matching(records, term, matches)|, limit)
    ensures p.data == Window(Listing(records, term, matches), (page - 1) * limit, limit)
  {
    Page(Window(Listing(records, term, matches), (page - 1) * limit, limit),
         page,
         CeilDiv(|Matching(records, term, matches)|, limit))
  }

  /** A window of a newest-first listing is itself newest first. */
  lemma WindowNewestFirst(s: seq<StoredLog>, skip: nat, limit: nat)
    requires NewestFirst(s)
    ensures NewestFirst(Window(s, skip, limit))
  {
    var w := Window(s, skip, limit);
    forall i, j | 0 <= i < j < |w|
      ensures w[i].log.createdAt >= w[j].log.createdAt
    {
      assert w[i] == s[skip + i] && w[j] == s[skip + j];
    }
  }

  /** The listing holds exactly the live documents the search selects. */
  lemma InListing(records: seq<StoredLog>, term: string, matches: Matcher, x: StoredLog)
    ensures x in Listing(records, term, matches) <==> x in records && Selected(x, term, matches)
  {
    var m := Matching(records, term, matches);
    assert x in m <==> x in multiset(m);
    assert x in Listing(records, term, matches) <==> x in multiset(Listing(records, term, matches));
  }

  /** A page holds at most `limit` documents, newest first. */
  lemma PageIsNewestFirst(records: seq<StoredLog>, page: int, limit: int, term: string, matches: Matcher)
    requires page >= 1 && limit >= 1
    ensures var p := FindPaginated(records, page, limit, term, matches);
            |p.data| <= limit && NewestFirst(p.data)
  {
    WindowNewestFirst(Listing(records, term, matches), (page - 1) * limit, limit);
  }

  /** Every document on a page is a live document of the collection that the search selects. */
  lemma PageHoldsOnlySelected(records: seq<StoredLog>, page: int, limit: int, term: string, matches: Matcher)
    requires page >= 1 && limit >= 1
    ensures forall x :: x in FindPaginated(records, page, limit, term, matches).data ==>
              x in records && Selected(x, term, matches)
  {
    var listing := Listing(records, term, matches);
    WindowWithin(listing, (page - 1) * limit, limit);
    forall x | x in listing
      ensures x in records && Selected(x, term, matches)
    {
      InListing(records, term, matches, x);
    }
  }

  /** A window holds only elements of the sequence it is cut from. */
  lemma WindowWithin(s: seq<StoredLog>, skip: nat, limit: nat)
    ensures forall x :: x in Window(s, skip, limit) ==> x in s
  {
    var w := Window(s, skip, limit);
    forall x | x in w
      ensures x in s
    {
      var k :| 0 <= k < |w| && w[k] == x;
      assert s[skip + k] == x;
    }
  }

  /** A page number past the page count yields no documents. */
  lemma {:induction false} PageBeyondLastIsEmpty(records: seq<StoredLog>, page: int, limit: int, term: string, matches: Matcher)
    requires limit >= 1 && page > CeilDiv(|Matching(records, term, matches)|, limit)
    ensures page >= 1 ==> FindPaginated(records, page, limit, term, matches).data == []
  {
    var total := |Matching(records, term, matches)|;
    if page >= 1 {
      SkipPastTotal(total, page, limit);
    }
  }

  lemma SkipPastTotal(total: nat, page: int, limit: int)
    requires limit >= 1 && page >= 1 && page > CeilDiv(total, limit)
    ensures (page - 1) * limit >= total
  {
    var pages := CeilDiv(total, limit);
    assert (page - 1) * limit >= pages * limit;
  }

  /**
   * Pages cut the listing in order: the document of rank `k` (counting from 0) is
   * the `k % limit`-th of page `k / limit + 1`.
   */
  lemma {:induction false} RankDeterminesPage(records: seq<StoredLog>, limit: int, term: string, matches: Matcher, k: nat)
    requires limit >= 1 && k < |Matching(records, term, matches)|
    ensures var p := FindPaginated(records, k / limit + 1, limit, term, matches);
            k % limit < |p.data| && p.data[k % limit] == Listing(records, term, matches)[k]
  {
    RankSplit(k, limit);
    var q, r := k / limit, k % limit;
    var skip := q * limit;
    assert (q + 1 - 1) * limit == skip;
    WindowAt(Listing(records, term, matches), skip, r, limit);
  }

  /** The `r`-th document of a window is the `skip + r`-th of the whole, while that exists. */
  lemma WindowAt(s: seq<StoredLog>, skip: nat, r: nat, limit: nat)
    requires r < limit && skip + r < |s|
    ensures r < |Window(s, skip, limit)| && Window(s, skip, limit)[r] == s[skip + r]
  {
  }

  lemma PositionOf(s: seq<StoredLog>, x: StoredLog) returns (k: nat)
    requires x in s
    ensures k < |s| && s[k] == x
  {
    k :| 0 <= k < |s| && s[k] == x;
  }

  lemma RankSplit(k: nat, limit: int)
    requires limit >= 1
    ensures k / limit >= 0 && 0 <= k % limit < limit && (k / limit) * limit + k % limit == k
  {
  }

  /** Paging loses nothing: each live document the search selects is on some page. */
  lemma EveryMatchIsOnAPage(records: seq<StoredLog>, limit: int, term: string, matches: Matcher, x: StoredLog)
    requires limit >= 1 && x in records && Selected(x, term, matches)
    ensures exists page :: page >= 1 && x in FindPaginated(records, page, limit, term, matches).data
  {
    var listing := Listing(records, term, matches);
    InListing(records, term, matches, x);
    var k := PositionOf(listing, x);
    RankDeterminesPage(records, limit, term, matches, k);
    RankSplit(k, limit);
    var page := k / limit + 1;
    var p := FindPaginated(records, page, limit, term, matches);
    assert page >= 1 && p.data[k % limit] == x;
    assert x in p.data;
  }

  predicate IdsBelow(records: seq<StoredLog>, bound: nat) {
    forall x :: x in records ==> x.id < bound
  }

  predicate DistinctIds(records: seq<StoredLog>) {
    forall i, j :: 0 <= i < j < |records| ==> records[i].id != records[j].id
  }

  predicate LiveWithId(x: StoredLog, n: nat) {
    x.id == n && Live(x)
  }

  /** The first position of a live document with identifier `n`, if any. */
  function IndexOfLive(records: seq<StoredLog>, n: nat): (r: Option<nat>)
    ensures r.Some? ==> r.value < |records| && LiveWithId(records[r.value], n)
    ensures r.Some? ==> forall j :: 0 <= j < r.value ==> !LiveWithId(records[j], n)
    ensures r.None? ==> forall j :: 0 <= j < |records| ==> !LiveWithId(records[j], n)
  {
    if records == [] then None
    else if LiveWithId(records[0], n) then Some(0)
    else
      match IndexOfLive(records[1..], n)
      case None => None
      case Some(i) => Some(i + 1)
  }

  /** The `$set` of a soft delete: flagged deleted, with deletion and update time `now`. */
  function MarkDeleted(x: StoredLog, now: int): (y: StoredLog)
    ensures y.id == x.id && y.log.isDeleted && y.log.deletedAt == Some(now) && y.log.updatedAt == now
    ensures y.log.title == x.log.title && y.log.content == x.log.content
    ensures y.log.tags == x.log.tags && y.log.createdAt == x.log.createdAt
  {
    StoredLog(x.id, x.log.(isDeleted := true, deletedAt := Some(now), updatedAt := now))
  }

  /**
   * `updateOne({ _id, isDeleted: false }, { $set: ... })` and `matchedCount > 0`: the
   * first live document with the identifier is marked deleted, and the answer is
   * whether there was one. Nothing else changes.
   */
  function SoftDeleted(records: seq<StoredLog>, n: nat, now: int): (r: (seq<StoredLog>, bool))
    ensures r.1 <==> exists j :: 0 <= j < |records| && LiveWithId(records[j], n)
    ensures |r.0| == |records|
    ensures forall j :: 0 <= j < |records| ==>
              r.0[j] == records[j] || (LiveWithId(records[j], n) && r.0[j] == MarkDeleted(records[j], now))
    ensures !r.1 ==> r.0 == records
    ensures r.1 ==> exists j :: 0 <= j < |records| && LiveWithId(records[j], n) &&
                               (forall i :: 0 <= i < j ==> !LiveWithId(records[i], n)) &&
                               r.0 == records[j := MarkDeleted(records[j], now)]
  {
    match IndexOfLive(records, n)
    case None => (records, false)
    case Some(i) => (records[i := MarkDeleted(records[i], now)], true)
  }

  /**
   * A live document appended under an identifier above every other is the one a
   * soft delete of that identifier marks; the documents before it stay as they were.
   */
  lemma SoftDeleteAppended(records: seq<StoredLog>, x: StoredLog, now: int)
    requires IdsBelow(records, x.id) && Live(x)
    ensures SoftDeleted(records + [x], x.id, now) == (records + [MarkDeleted(x, now)], true)
  {
    var all := records + [x];
    forall j | 0 <= j < |records|
      ensures !LiveWithId(all[j], x.id)
    {
      assert all[j] in records;
    }
    assert LiveWithId(all[|records|], x.id);
    assert IndexOfLive(all, x.id) == Some(|records|);
    assert all[|records| := MarkDeleted(x, now)] == records + [MarkDeleted(x, now)];
  }

  /** With identifiers unique, a second soft delete of the same document finds nothing and changes nothing. */
  lemma SoftDeleteTwiceFindsNothing(records: seq<StoredLog>, n: nat, t1: int, t2: int)
    requires DistinctIds(records)
    ensures SoftDeleted(SoftDeleted(records, n, t1).0, n, t2) == (SoftDeleted(records, n, t1).0, false)
  {
    var after := SoftDeleted(records, n, t1).0;
    var found := IndexOfLive(records, n);
    forall j | 0 <= j < |after|
      ensures !LiveWithId(after[j], n)
    {
      if found.Some? && j != found.value {
        assert records[found.value].id != records[j].id;
      }
    }
  }

  /** Once soft-deleted, a document (identifiers being unique) is left out of every listing. */
  lemma SoftDeletedIsNotListed(records: seq<StoredLog>, n: nat, now: int, term: string, matches: Matcher)
    requires DistinctIds(records)
    ensures forall x :: x in Matching(SoftDeleted(records, n, now).0, term, matches) ==> x.id != n
  {
    SoftDeleteTwiceFindsNothing(records, n, now, now);
  }

  /** The retention filter `{ isDeleted: true, deletedAt: { $lte: cutoff } }`. */
  predicate Expired(x: StoredLog, cutoff: int) {
    x.log.isDeleted && x.log.deletedAt.Some? && x.log.deletedAt.value <= cutoff
  }

  /** `deleteMany` with the retention filter: every other document stays, in order. */
  function Purged(records: seq<StoredLog>, cutoff: int): (r: seq<StoredLog>)
    ensures |r| <= |records|
    ensures forall x :: x in r <==> x in records && !Expired(x, cutoff)
  {
    if records == [] then []
    else (if Expired(records[0], cutoff) then [] else [records[0]]) + Purged(records[1..], cutoff)
  }

  lemma PurgedStep(records: seq<StoredLog>, i: nat, cutoff: int)
    requires i < |records|
    ensures Purged(records[i..], cutoff)
            == (if Expired(records[i], cutoff) then [] else [records[i]]) + Purged(records[i + 1..], cutoff)
  {
    assert records[i..][1..] == records[i + 1..];
  }

  /** A purge only removes documents: identifiers stay unique. */
  lemma {:induction false} PurgedDistinct(records: seq<StoredLog>, cutoff: int)
    requires DistinctIds(records)
    ensures DistinctIds(Purged(records, cutoff))
  {
    if records != [] {
      var rest := Purged(records[1..], cutoff);
      PurgedDistinct(records[1..], cutoff);
      if !Expired(records[0], cutoff) {
        var r := [records[0]] + rest;
        forall i, j | 0 <= i < j < |r|
          ensures r[i].id != r[j].id
        {
          if i == 0 {
            assert r[j] in records[1..];
            var m :| 0 <= m < |records[1..]| && records[1..][m] == r[j];
            assert records[m + 1] == r[j];
          } else {
            assert r[i] == rest[i - 1] && r[j] == rest[j - 1];
          }
        }
      }
    }
  }

  lemma PurgedValid(records: seq<StoredLog>, cutoff: int, bound: nat)
    requires IdsBelow(records, bound) && DistinctIds(records)
    ensures IdsBelow(Purged(records, cutoff), bound) && DistinctIds(Purged(records, cutoff))
  {
    PurgedDistinct(records, cutoff);
  }

  /** A purge removes only soft-deleted documents, so no listing changes. */
  lemma {:induction false} PurgeKeepsListing(records: seq<StoredLog>, cutoff: int, term: string, matches: Matcher)
    ensures Matching(Purged(records, cutoff), term, matches) == Matching(records, term, matches)
  {
    if records != [] {
      PurgeKeepsListing(records[1..], cutoff, term, matches);
      var r := Purged(records, cutoff);
      var m := Matching(records[1..], term, matches);
      if Expired(records[0], cutoff) {
        assert r == Purged(records[1..], cutoff);
        assert Matching(records, term, matches) == [] + m;
      } else {
        assert r[0] == records[0] && r[1..] == Purged(records[1..], cutoff);
      }
    }
  }

  /** A document soft-deleted at `t` is removed by the first purge whose cutoff is not earlier than `t`. */
  lemma SoftDeletedIsPurged(records: seq<StoredLog>, n: nat, t: int, cutoff: int)
    requires DistinctIds(records) && t <= cutoff
    ensures forall x :: x in Purged(SoftDeleted(records, n, t).0, cutoff) ==> x.id != n || !SoftDeleted(records, n, t).1
  {
    var (after, found) := SoftDeleted(records, n, t);
    if found {
      var i := IndexOfLive(records, n).value;
      forall j | 0 <= j < |after| && j != i
        ensures after[j].id != n
      {
        assert records[i].id != records[j].id;
      }
      assert Expired(after[i], cutoff);
    }
  }

  /** The documents the retention purge keeps, collected one by one from the back. */
  method Unexpired(records: seq<StoredLog>, cutoff: int) returns (kept: seq<StoredLog>)
    ensures kept == Purged(records, cutoff)
  {
    kept := [];
    var i := |records|;
    while i > 0
      invariant 0 <= i <= |records|
      invariant kept == Purged(records[i..], cutoff)
    {
      i := i - 1;
      PurgedStep(records, i, cutoff);
      if !Expired(records[i], cutoff) {
        kept := [records[i]] + kept;
      }
    }
    assert records[0..] == records;
  }

  /** The collection as the process holds it. */
  class LogStore {
    var records: seq<StoredLog>
    var nextId: nat

    /** Every identifier was handed out by an earlier insert, and no two documents share one. */
    ghost predicate Valid()
      reads this
    {
      IdsBelow(records, nextId) && DistinctIds(records)
    }

    constructor (firstId: nat)
      ensures Valid() && records == [] && nextId == firstId
    {
      records := [];
      nextId := firstId;
    }

    /** `create(logEntity)`: inserts the entity unchanged under a fresh identifier and returns it with that identifier. */
    method Create(entity: LogEntity) returns (stored: StoredLog)
      requires Valid()
      modifies this
      ensures Valid()
      ensures stored == StoredLog(old(nextId), entity) && records == old(records) + [stored]
      ensures nextId == old(nextId) + 1
    {
      stored := StoredLog(nextId, entity);
      records := records + [stored];
      nextId := nextId + 1;
    }

    /**
     * `softDeleteById(id)`: text that is not a 24-digit hexadecimal identifier is
     * refused with INVALID_ID and the collection is untouched; otherwise the first
     * live document with the identifier, if any, is marked deleted, and the answer
     * is whether one was found.
     */
    method SoftDeleteById(id: string, now: int) returns (r: Result<bool, AppError>)
      requires Valid()
      modifies this
      ensures Valid() && nextId == old(nextId)
      ensures ParseObjectId(id).None? ==>
                r == Err(Raise(InvalidIdMessage, 400, INVALID_ID)) && records == old(records)
      ensures ParseObjectId(id).Some? ==>
                r.Ok? && (records, r.value) == SoftDeleted(old(records), ParseObjectId(id).value, now)
    {
      var parsed := ParseObjectId(id);
      if parsed.None? {
        return Err(Raise(InvalidIdMessage, 400, INVALID_ID));
      }
      var n := parsed.value;
      var i := 0;
      while i < |records|
        invariant 0 <= i <= |records|
        invariant forall j :: 0 <= j < i ==> !LiveWithId(records[j], n)
      {
        if records[i].id == n && !records[i].log.isDeleted {
          records := records[i := MarkDeleted(records[i], now)];
          return Ok(true);
        }
        i := i + 1;
      }
      return Ok(false);
    }

    /** The retention purge: removes every expired document and reports how many went. */
    method PurgeDeleted(cutoff: int) returns (deletedCount: nat)
      requires Valid()
      modifies this
      ensures Valid() && nextId == old(nextId)
      ensures records == Purged(old(records), cutoff)
      ensures deletedCount == |old(records)| - |records|
    {
      var all := records;
      var kept := Unexpired(all, cutoff);
      PurgedValid(all, cutoff, nextId);
      deletedCount := |all| - |kept|;
      records := kept;
    }
  }
}
