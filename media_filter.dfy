/**
 * The search-and-filter rule shared by the Library page and the media-library
 * dialog: a media item is listed when its lower-cased name contains the
 * lower-cased query and each of the status and uploader filters is either
 * "all" or equal to the item's field. Also the uploader list offered by the
 * uploader filter, built as `[...new Set(items.map(item => item.uploader))]`.
 */
module MediaFilter {
  import opened Seqs

  /** A media record; size, date and thumbnail are display-only and left out. */
  datatype MediaItem = MediaItem(id: int, name: string, kind: string, status: string, uploader: string)

  /** The wildcard value of the status and uploader filters. */
  const All: string := "all"

  /** ASCII lower-casing of one character. */
  function LowerChar(c: char): char {
    if 'A' <= c <= 'Z' then (c as int + 32) as char else c
  }

  /** `toLowerCase`, restricted to ASCII letters: no capital is left and every other character is kept. */
  function Lower(s: string): (r: string)
    ensures |r| == |s|
    ensures forall k :: 0 <= k < |r| ==> !('A' <= r[k] <= 'Z')
    ensures forall k :: 0 <= k < |s| && !('A' <= s[k] <= 'Z') ==> r[k] == s[k]
    ensures forall k :: 0 <= k < |s| && 'A' <= s[k] <= 'Z' ==> r[k] as int == s[k] as int + 32
  {
    seq(|s|, k requires 0 <= k < |s| => LowerChar(s[k]))
  }

  predicate StartsWith(s: string, p: string) {
    |p| <= |s| && s[..|p|] == p
  }

  /** `s.includes(p)`: `p` occurs somewhere in `s`; the empty string occurs everywhere. */
  function Includes(s: string, p: string): (b: bool)
    ensures p == [] ==> b
    ensures StartsWith(s, p) ==> b
    ensures b ==> |p| <= |s|
    decreases |s|
  {
    StartsWith(s, p) || (s != [] && Includes(s[1..], p))
  }

  ghost predicate OccursAt(s: string, p: string, i: int) {
    0 <= i && i + |p| <= |s| && s[i..i + |p|] == p
  }

  /** The recursive search agrees with the positional definition of a substring. */
  lemma IncludesIffOccurs(s: string, p: string)
    ensures Includes(s, p) <==> exists i :: OccursAt(s, p, i)
  {
    if exists i :: OccursAt(s, p, i) {
      var i :| OccursAt(s, p, i);
      OccurrenceIsIncluded(s, p, i);
    }
    if Includes(s, p) {
      IncludedHasOccurrence(s, p);
    }
  }

  lemma {:induction false} OccurrenceIsIncluded(s: string, p: string, i: int)
    requires OccursAt(s, p, i)
    ensures Includes(s, p)
    decreases i
  {
    if i == 0 {
      assert StartsWith(s, p);
    } else {
      assert s[1..][i - 1..i - 1 + |p|] == s[i..i + |p|];
      OccurrenceIsIncluded(s[1..], p, i - 1);
    }
  }

  lemma {:induction false} IncludedHasOccurrence(s: string, p: string)
    requires Includes(s, p)
    ensures exists i :: OccursAt(s, p, i)
    decreases |s|
  {
    if StartsWith(s, p) {
      assert OccursAt(s, p, 0);
    } else {
      IncludedHasOccurrence(s[1..], p);
      var i :| OccursAt(s[1..], p, i);
      assert s[1..][i..i + |p|] == s[i + 1..i + 1 + |p|];
      assert OccursAt(s, p, i + 1);
    }
  }

  /** The three-way keep condition of `filteredMedia`. */
  function Matches(item: MediaItem, query: string, statusFilter: string, uploaderFilter: string): (m: bool)
    ensures m <==> && (exists i :: OccursAt(Lower(item.name), Lower(query), i))
                   && (statusFilter == All || item.status == statusFilter)
                   && (uploaderFilter == All || item.uploader == uploaderFilter)
  {
    IncludesIffOccurs(Lower(item.name), Lower(query));
    && Includes(Lower(item.name), Lower(query))
    && (statusFilter == All || item.status == statusFilter)
    && (uploaderFilter == All || item.uploader == uploaderFilter)
  }

  /** `items.filter(item => Matches(item, ...))`. */
  function FilterMedia(items: seq<MediaItem>, query: string, statusFilter: string, uploaderFilter: string): (r: seq<MediaItem>)
    ensures forall x :: x in r <==> x in items && Matches(x, query, statusFilter, uploaderFilter)
    ensures IsSubsequence(r, items)
    ensures |r| <= |items|
    ensures forall x :: multiset(r)[x] == if Matches(x, query, statusFilter, uploaderFilter) then multiset(items)[x] else 0
  {
    if items == [] then []
    else
      assert items == [items[0]] + items[1..];
      if Matches(items[0], query, statusFilter, uploaderFilter) then
        [items[0]] + FilterMedia(items[1..], query, statusFilter, uploaderFilter)
      else
        FilterMedia(items[1..], query, statusFilter, uploaderFilter)
  }

  /** With an empty query and both filters at "all", every item is listed, in order. */
  lemma {:induction false} FilterWithoutCriteria(items: seq<MediaItem>)
    ensures FilterMedia(items, [], All, All) == items
  {
    if items != [] {
      assert Lower([]) == [];
      FilterWithoutCriteria(items[1..]);
    }
  }

  /** An item is dropped exactly when some criterion rejects it. */
  lemma {:induction false} FilterKeepsAllIff(items: seq<MediaItem>, query: string, statusFilter: string, uploaderFilter: string)
    ensures FilterMedia(items, query, statusFilter, uploaderFilter) == items
        <==> forall k :: 0 <= k < |items| ==> Matches(items[k], query, statusFilter, uploaderFilter)
  {
    if items != [] {
      FilterKeepsAllIff(items[1..], query, statusFilter, uploaderFilter);
      var rest := FilterMedia(items[1..], query, statusFilter, uploaderFilter);
      if !Matches(items[0], query, statusFilter, uploaderFilter) {
        assert |rest| <= |items[1..]| < |items|;
      } else {
        assert ([items[0]] + rest == items) <==> (rest == items[1..]) by {
          if [items[0]] + rest == items {
            assert ([items[0]] + rest)[1..] == rest;
          }
        }
        forall k | 0 <= k < |items[1..]| ensures items[1..][k] == items[k + 1] {}
      }
    }
  }

  /** The uploader of every item, in order. */
  function Uploaders(items: seq<MediaItem>): (r: seq<string>)
    ensures |r| == |items|
    ensures forall k :: 0 <= k < |items| ==> r[k] == items[k].uploader
  {
    seq(|items|, k requires 0 <= k < |items| => items[k].uploader)
  }

  /** The de-duplicated uploaders are exactly the uploaders of some item. */
  lemma UploadersOfItems(items: seq<MediaItem>)
    ensures forall u :: u in Distinct(Uploaders(items)) <==> exists k :: 0 <= k < |items| && items[k].uploader == u
  {
    var us := Uploaders(items);
    forall u ensures u in us <==> exists k :: 0 <= k < |items| && items[k].uploader == u {
      if u in us {
        var k :| 0 <= k < |us| && us[k] == u;
        assert items[k].uploader == u;
      }
    }
  }

  /** Some item of `u` comes before every item of `v`. */
  predicate UploadsFirst(items: seq<MediaItem>, u: string, v: string) {
    exists k :: 0 <= k < |items| && items[k].uploader == u && forall m :: 0 <= m < k ==> items[m].uploader != v
  }

  /** Two uploaders are offered in the order in which each first uploads an item. */
  lemma UploadersInFirstOccurrenceOrder(items: seq<MediaItem>, r: seq<string>)
    requires r == Distinct(Uploaders(items))
    ensures forall i, j :: 0 <= i < j < |r| ==> UploadsFirst(items, r[i], r[j])
  {
    var us := Uploaders(items);
    DistinctFirstOccurrenceOrder(us);
    forall i, j | 0 <= i < j < |r| ensures UploadsFirst(items, r[i], r[j]) {
      var k :| 0 <= k < |us| && us[k] == r[i] && r[j] !in us[..k];
      forall m | 0 <= m < k ensures items[m].uploader != r[j] {
        assert us[..k][m] == us[m];
      }
    }
  }

  /** `[...new Set(items.map(item => item.uploader))]`. */
  function UniqueUploaders(items: seq<MediaItem>): (r: seq<string>)
    ensures NoDuplicates(r)
    ensures forall u :: u in r <==> exists k :: 0 <= k < |items| && items[k].uploader == u
    ensures IsSubsequence(r, Uploaders(items))
    ensures forall i, j :: 0 <= i < j < |r| ==> UploadsFirst(items, r[i], r[j])
  {
    var r := Distinct(Uploaders(items));
    DistinctIsSubsequence(Uploaders(items));
    UploadersInFirstOccurrenceOrder(items, r);
    UploadersOfItems(items);
    r
  }
}
