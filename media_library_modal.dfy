/**
 * The media-library dialog. It receives the current media selection from the
 * Launch page as a read-only property, keeps its own search query and
 * filters, and on a click hands one new selection list to the page's
 * `onSelectionChange` callback without changing the list it was given.
 */
module MediaLibraryModal {
  import opened Seqs
  import opened MediaFilter
  import Selection

  /** The media records the dialog lists (display-only fields left out). */
  const MockMediaLibrary: seq<MediaItem> := [
    MediaItem(1, "summer-promo-video.mp4", "video", "launched", "John Doe"),
    MediaItem(2, "product-hero-image.jpg", "image", "not-launched", "Jane Smith"),
    MediaItem(3, "brand-logo-animation.gif", "animation", "launched", "Mike Johnson"),
    MediaItem(4, "testimonial-carousel.mp4", "video", "not-launched", "Sarah Wilson"),
    MediaItem(5, "feature-comparison.png", "image", "launched", "John Doe"),
    MediaItem(6, "call-to-action-banner.jpg", "image", "not-launched", "Emma Davis"),
    MediaItem(7, "pricing-infographic.svg", "image", "launched", "Mike Johnson"),
    MediaItem(8, "demo-walkthrough.mp4", "video", "not-launched", "Sarah Wilson")
  ]

  class MediaLibraryDialog {
    /** The `selectedMedia` property: the dialog never writes it. */
    const selectedMedia: seq<int>
    var searchQuery: string
    var statusFilter: string
    var uploaderFilter: string

    constructor (selectedMedia: seq<int>)
      ensures this.selectedMedia == selectedMedia
      ensures searchQuery == [] && statusFilter == All && uploaderFilter == All
      ensures FilteredMedia() == MockMediaLibrary
    {
      this.selectedMedia := selectedMedia;
      searchQuery := [];
      statusFilter := All;
      uploaderFilter := All;
      new;
      ListsAllWithoutCriteria(this);
    }

    /** The records listed under the current query and filters. */
    function FilteredMedia(): (r: seq<MediaItem>)
      reads this
      ensures r == FilterMedia(MockMediaLibrary, searchQuery, statusFilter, uploaderFilter)
    {
      FilterMedia(MockMediaLibrary, searchQuery, statusFilter, uploaderFilter)
    }

    /** With no query and both filters at "all", the dialog lists its whole library. */
    static lemma ListsAllWithoutCriteria(d: MediaLibraryDialog)
      requires d.searchQuery == [] && d.statusFilter == All && d.uploaderFilter == All
      ensures d.FilteredMedia() == MockMediaLibrary
    {
      FilterWithoutCriteria(MockMediaLibrary);
    }

    method SetSearchQuery(query: string)
      modifies this
      ensures searchQuery == query
      ensures statusFilter == old(statusFilter) && uploaderFilter == old(uploaderFilter)
    {
      searchQuery := query;
    }

    method SetStatusFilter(status: string)
      modifies this
      ensures statusFilter == status
      ensures searchQuery == old(searchQuery) && uploaderFilter == old(uploaderFilter)
    {
      statusFilter := status;
    }

    method SetUploaderFilter(uploader: string)
      modifies this
      ensures uploaderFilter == uploader
      ensures searchQuery == old(searchQuery) && statusFilter == old(statusFilter)
    {
      uploaderFilter := uploader;
    }

    /**
     * `toggleSelection`: the list handed to `onSelectionChange`. Only the
     * membership of `mediaId` flips; a duplicate-free selection stays so.
     */
    method ToggleSelection(mediaId: int) returns (newSelection: seq<int>)
      ensures mediaId in newSelection <==> mediaId !in selectedMedia
      ensures forall id :: id != mediaId ==> (id in newSelection <==> id in selectedMedia)
      ensures mediaId !in selectedMedia ==> newSelection == selectedMedia + [mediaId]
      ensures mediaId in selectedMedia ==> newSelection == Selection.RemoveAll(selectedMedia, mediaId)
      ensures mediaId in selectedMedia ==> IsSubsequence(newSelection, selectedMedia)
      ensures NoDuplicates(selectedMedia) ==> NoDuplicates(newSelection)
    {
      if mediaId in selectedMedia {
        newSelection := Selection.RemoveAll(selectedMedia, mediaId);
      } else {
        newSelection := selectedMedia + [mediaId];
      }
      assert newSelection == Selection.Toggle(selectedMedia, mediaId);
    }
  }
}
