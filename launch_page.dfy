/**
 * The Launch page: three selections (ad sets, copy templates, media), the
 * flags that open the media-library and launch-progress dialogs, the launch
 * gate, and the preview of the selected media.
 */
module Launch {
  import opened Seqs
  import Selection
  import MediaLibraryModal

  /** `canLaunch`: every one of the three selections is non-empty. */
  function CanLaunch(adSets: seq<int>, templates: seq<int>, media: seq<int>): (ok: bool)
    ensures ok <==> adSets != [] && templates != [] && media != []
  {
    |adSets| > 0 && |templates| > 0 && |media| > 0
  }

  /** The condition `handleLaunch` tests (truthy lengths); it is the same as `canLaunch`. */
  function LaunchGate(adSets: seq<int>, templates: seq<int>, media: seq<int>): (open: bool)
    ensures open <==> CanLaunch(adSets, templates, media)
  {
    |adSets| != 0 && |templates| != 0 && |media| != 0
  }

  /** The media preview: one badge per id for at most five ids, and a "+N more" badge. */
  datatype Preview = Preview(badges: seq<int>, more: Option<nat>)

  /** `selectedMedia.slice(0, 5)` and, when more than five are selected, `+(length - 5) more`. */
  function MediaPreview(selected: seq<int>): (p: Preview)
    ensures |p.badges| == if |selected| < 5 then |selected| else 5
    ensures p.badges == selected[..|p.badges|]
    ensures p.more.Some? <==> |selected| > 5
    ensures |p.badges| + (if p.more.Some? then p.more.value else 0) == |selected|
  {
    var shown := if |selected| < 5 then |selected| else 5;
    Preview(selected[..shown], if |selected| > 5 then Some(|selected| - 5) else None)
  }

  /** The "Selected Files" panel with its preview is shown only when some media is selected. */
  function SelectedFilesPanel(selected: seq<int>): (panel: Option<Preview>)
    ensures panel.None? <==> selected == []
    ensures panel.Some? ==> panel.value == MediaPreview(selected) && |panel.value.badges| > 0
  {
    if |selected| > 0 then Some(MediaPreview(selected)) else None
  }

  class LaunchPage {
    var selectedAdSets: seq<int>
    var selectedTemplates: seq<int>
    var selectedMedia: seq<int>
    var showMediaModal: bool
    var showProgressModal: bool

    /** Toggling keeps every selection duplicate-free. */
    ghost predicate Valid()
      reads this
    {
      NoDuplicates(selectedAdSets) && NoDuplicates(selectedTemplates) && NoDuplicates(selectedMedia)
    }

    constructor ()
      ensures Valid()
      ensures selectedAdSets == [] && selectedTemplates == [] && selectedMedia == []
      ensures !showMediaModal && !showProgressModal
    {
      selectedAdSets, selectedTemplates, selectedMedia := [], [], [];
      showMediaModal, showProgressModal := false, false;
    }

    /** Clicking an ad-set card. */
    method ToggleAdSet(id: int)
      requires Valid()
      modifies this
      ensures Valid()
      ensures selectedAdSets == Selection.Toggle(old(selectedAdSets), id)
      ensures selectedTemplates == old(selectedTemplates) && selectedMedia == old(selectedMedia)
      ensures showMediaModal == old(showMediaModal) && showProgressModal == old(showProgressModal)
    {
      selectedAdSets := Selection.Toggle(selectedAdSets, id);
    }

    /** Clicking a copy-template card. */
    method ToggleTemplate(id: int)
      requires Valid()
      modifies this
      ensures Valid()
      ensures selectedTemplates == Selection.Toggle(old(selectedTemplates), id)
      ensures selectedAdSets == old(selectedAdSets) && selectedMedia == old(selectedMedia)
      ensures showMediaModal == old(showMediaModal) && showProgressModal == old(showProgressModal)
    {
      selectedTemplates := Selection.Toggle(selectedTemplates, id);
    }

    /** Clicking the media drop zone or "Manage". */
    method OpenMediaModal()
      modifies this
      ensures showMediaModal
      ensures selectedAdSets == old(selectedAdSets) && selectedTemplates == old(selectedTemplates)
      ensures selectedMedia == old(selectedMedia) && showProgressModal == old(showProgressModal)
    {
      showMediaModal := true;
    }

    /** The media-library dialog's `onClose`. */
    method CloseMediaModal()
      modifies this
      ensures !showMediaModal
      ensures selectedAdSets == old(selectedAdSets) && selectedTemplates == old(selectedTemplates)
      ensures selectedMedia == old(selectedMedia) && showProgressModal == old(showProgressModal)
    {
      showMediaModal := false;
    }

    /**
     * A click on a media card in the dialog, which was given this page's
     * selection: the dialog's new list is stored by `onSelectionChange`.
     */
    method ToggleMediaInDialog(dialog: MediaLibraryModal.MediaLibraryDialog, mediaId: int)
      requires Valid() && showMediaModal && dialog.selectedMedia == selectedMedia
      modifies this
      ensures Valid()
      ensures selectedMedia == Selection.Toggle(old(selectedMedia), mediaId)
      ensures selectedAdSets == old(selectedAdSets) && selectedTemplates == old(selectedTemplates)
      ensures showMediaModal == old(showMediaModal) && showProgressModal == old(showProgressModal)
    {
      var newSelection := dialog.ToggleSelection(mediaId);
      selectedMedia := newSelection;
    }

    /** `handleLaunch`: opens the progress dialog when the gate is open, and otherwise changes nothing. */
    method HandleLaunch()
      modifies this
      ensures showProgressModal == (old(showProgressModal) || CanLaunch(selectedAdSets, selectedTemplates, selectedMedia))
      ensures selectedAdSets == old(selectedAdSets) && selectedTemplates == old(selectedTemplates)
      ensures selectedMedia == old(selectedMedia) && showMediaModal == old(showMediaModal)
    {
      if LaunchGate(selectedAdSets, selectedTemplates, selectedMedia) {
        showProgressModal := true;
      }
    }

    /** The progress dialog's `onClose`. */
    method CloseProgressModal()
      modifies this
      ensures !showProgressModal
      ensures selectedAdSets == old(selectedAdSets) && selectedTemplates == old(selectedTemplates)
      ensures selectedMedia == old(selectedMedia) && showMediaModal == old(showMediaModal)
    {
      showProgressModal := false;
    }
  }
}
