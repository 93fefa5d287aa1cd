/**
 * The media Library page: a search query, a status filter and an uploader
 * filter over a fixed list of media records, a checkbox selection of record
 * ids, and the hint shown when no record passes the filters.
 */
module Library {
  import opened Seqs
  import opened MediaFilter
  import Selection

  /** The media records the page lists (size and date are display-only and left out). */
  const MockMedia: seq<MediaItem> := [
    MediaItem(1, "summer-promo-video.mp4", "video", "launched", "John Doe"),
    MediaItem(2, "product-hero-image.jpg", "image", "not-launched", "Jane Smith"),
    MediaItem(3, "brand-logo-animation.gif", "animation", "launched", "Mike Johnson"),
    MediaItem(4, "testimonial-carousel.mp4", "video", "not-launched", "Sarah Wilson"),
    MediaItem(5, "feature-comparison.png", "image", "launched", "John Doe"),
    MediaItem(6, "call-to-action-banner.jpg", "image", "not-launched", "Emma Davis")
  ]

  /** The two texts of the empty-state paragraph. */
  datatype Hint = AdjustFilters | UploadFirst

  /** "Try adjusting your filters…" when a query or a filter is set, otherwise "Upload your first media file…". */
  function EmptyStateHint(query: string, statusFilter: string, uploaderFilter: string): (h: Hint)
    ensures h == UploadFirst <==> query == [] && statusFilter == All && uploaderFilter == All
  {
    if query != [] || statusFilter != All || uploaderFilter != All then AdjustFilters else UploadFirst
  }

  /**
   * The upload hint is only given when no criterion is set, and then every
   * record is listed; so an empty grid under the upload hint means an empty
   * library, and an empty grid over a non-empty library always shows the
   * filter hint.
   */
  lemma EmptyStateHintIsAccurate(items: seq<MediaItem>, query: string, statusFilter: string, uploaderFilter: string)
    ensures EmptyStateHint(query, statusFilter, uploaderFilter) == UploadFirst
        ==> FilterMedia(items, query, statusFilter, uploaderFilter) == items
    ensures FilterMedia(items, query, statusFilter, uploaderFilter) == [] && items != []
        ==> EmptyStateHint(query, statusFilter, uploaderFilter) == AdjustFilters
  {
  }

  /**
   * The checkbox's `onChange` updater: checked appends the id, unchecked
   * removes every occurrence of it and keeps the other ids in order.
   */
  function CheckboxUpdate(prev: seq<int>, itemId: int, checked: bool): (next: seq<int>)
    ensures itemId in next <==> checked
    ensures forall id :: id != itemId ==> (id in next <==> id in prev)
    ensures checked ==> |next| == |prev| + 1 && next[..|prev|] == prev && next[|prev|] == itemId
    ensures !checked ==> IsSubsequence(next, prev)
    ensures !checked ==> next == Selection.RemoveAll(prev, itemId) && multiset(next) == multiset(prev)[itemId := 0]
  {
    Selection.RemoveAllMultiset(prev, itemId);
    if checked then prev + [itemId] else Selection.RemoveAll(prev, itemId)
  }

  /**
   * The checkbox is controlled by `selectedItems.includes(id)`, so a click
   * reports `checked` as the negation of that; the update is then exactly a
   * toggle and keeps a duplicate-free selection duplicate-free.
   */
  lemma CheckboxClickIsToggle(prev: seq<int>, itemId: int, checked: bool)
    requires checked <==> itemId !in prev
    ensures CheckboxUpdate(prev, itemId, checked) == Selection.Toggle(prev, itemId)
    ensures NoDuplicates(prev) ==> NoDuplicates(CheckboxUpdate(prev, itemId, checked))
  {
  }

  /** Checking a box that is already checked would list its id twice. */
  lemma CheckingTwiceDuplicates(prev: seq<int>, itemId: int)
    requires itemId in prev
    ensures !NoDuplicates(CheckboxUpdate(prev, itemId, true))
  {
  }

  class LibraryPage {
    var searchQuery: string
    var statusFilter: string
    var uploaderFilter: string
    var selectedItems: seq<int>

    constructor ()
      ensures searchQuery == [] && statusFilter == All && uploaderFilter == All && selectedItems == []
      ensures FilteredMedia() == MockMedia && Hint() == UploadFirst
    {
      searchQuery, statusFilter, uploaderFilter := [], All, All;
      selectedItems := [];
      new;
      ListsAllWithoutCriteria(this);
    }

    /** With no query and both filters at "all", the page lists every record and shows the upload hint. */
    static lemma ListsAllWithoutCriteria(p: LibraryPage)
      requires p.searchQuery == [] && p.statusFilter == All && p.uploaderFilter == All
      ensures p.FilteredMedia() == MockMedia && p.Hint() == UploadFirst
    {
      FilterWithoutCriteria(MockMedia);
    }

    /** `filteredMedia` under the current query and filters. */
    function FilteredMedia(): (r: seq<MediaItem>)
      reads this
      ensures r == FilterMedia(MockMedia, searchQuery, statusFilter, uploaderFilter)
    {
      FilterMedia(MockMedia, searchQuery, statusFilter, uploaderFilter)
    }

    /**
     * The hint under "No media found". The page's library is not empty, so
     * whenever that message shows, the hint is to adjust the filters.
     */
    function Hint(): (h: Hint)
      reads this
      ensures FilteredMedia() == [] ==> h == AdjustFilters
    {
      EmptyStateHintIsAccurate(MockMedia, searchQuery, statusFilter, uploaderFilter);
      EmptyStateHint(searchQuery, statusFilter, uploaderFilter)
    }

    method SetSearchQuery(query: string)
      modifies this
      ensures searchQuery == query
      ensures statusFilter == old(statusFilter) && uploaderFilter == old(uploaderFilter)
      ensures selectedItems == old(selectedItems)
    {
      searchQuery := query;
    }

    method SetStatusFilter(status: string)
      modifies this
      ensures statusFilter == status
      ensures searchQuery == old(searchQuery) && uploaderFilter == old(uploaderFilter)
      ensures selectedItems == old(selectedItems)
    {
      statusFilter := status;
    }

    method SetUploaderFilter(uploader: string)
      modifies this
      ensures uploaderFilter == uploader
      ensures searchQuery == old(searchQuery) && statusFilter == old(statusFilter)
      ensures selectedItems == old(selectedItems)
    {
      uploaderFilter := uploader;
    }

    /** The checkbox `onChange` of the record with id `itemId`. */
    method OnCheckboxChange(itemId: int, checked: bool)
      modifies this
      ensures selectedItems == CheckboxUpdate(old(selectedItems), itemId, checked)
      ensures searchQuery == old(searchQuery) && statusFilter == old(statusFilter)
      ensures uploaderFilter == old(uploaderFilter)
    {
      selectedItems := CheckboxUpdate(selectedItems, itemId, checked);
    }
  }
}
