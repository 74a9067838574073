/**
 * The customer dashboard frame: the list of uploaded screenshots it fetches,
 * appends to and filters, the upload dialog's open and busy flags, and which
 * side-bar link is highlighted.
 */
module DashboardLayout {
  import opened Wrappers
  import opened Http
  import UploadModal

  type Screenshot = UploadModal.Screenshot

  const DashboardHref: string := "/user/dashboard"
  const RewardsHref: string := "/user/rewards"
  const UploadFailed: string := "Failed to upload screenshot"
  const DeleteFailed: string := "Failed to delete screenshot"

  /** The body of GET `/api/screenshots`. */
  datatype ListReply = ListReply(success: bool, screenshots: Option<seq<Screenshot>>)

  /** The body of POST `/api/screenshots`. */
  datatype UploadReply = UploadReply(success: bool, message: Option<string>, screenShot: Option<Screenshot>)

  /** The body of DELETE `/api/screenshots/{id}`. */
  datatype DeleteReply = DeleteReply(success: bool, message: Option<string>)

  datatype Toast = Success(text: string) | Error(text: string)

  /** `list.filter(s => s._id !== id)`. */
  function Without(list: seq<Screenshot>, id: string): (r: seq<Screenshot>)
    ensures |r| <= |list|
    ensures forall s :: s in r <==> s in list && s.id != id
  {
    if list == [] then []
    else (if list[0].id != id then [list[0]] else []) + Without(list[1..], id)
  }

  /** Filtering works piece by piece, so the kept screenshots stay in their order. */
  lemma {:induction false} WithoutDistributes(a: seq<Screenshot>, b: seq<Screenshot>, id: string)
    ensures Without(a + b, id) == Without(a, id) + Without(b, id)
  {
    if a == [] {
      assert a + b == b;
    } else {
      assert (a + b)[0] == a[0];
      assert (a + b)[1..] == a[1..] + b;
      WithoutDistributes(a[1..], b, id);
    }
  }

  /** A list without that id is left exactly as it was. */
  lemma {:induction false} WithoutAbsent(list: seq<Screenshot>, id: string)
    requires forall k :: 0 <= k < |list| ==> list[k].id != id
    ensures Without(list, id) == list
  {
    if list != [] {
      WithoutAbsent(list[1..], id);
    }
  }

  /** Deleting the screenshot just uploaded (with a fresh id) gives back the list before the upload. */
  lemma {:induction false} DeleteUndoesUpload(list: seq<Screenshot>, s: Screenshot)
    requires forall k :: 0 <= k < |list| ==> list[k].id != s.id
    ensures Without(list + [s], s.id) == list
  {
    WithoutDistributes(list, [s], s.id);
    WithoutAbsent(list, s.id);
    assert Without([s], s.id) == [] by {
      assert [s][1..] == [];
    }
  }

  /** A side-bar link is highlighted when the path equals its `href`, exactly. */
  predicate NavActive(pathname: string, href: string)
    ensures NavActive(pathname, href) ==> !StartsWith(pathname, href + "/")
  {
    pathname == href
  }

  /** At most one of the two links is highlighted, and a sub-page highlights neither. */
  lemma NavActiveExclusive(pathname: string)
    ensures !(NavActive(pathname, DashboardHref) && NavActive(pathname, RewardsHref))
    ensures !NavActive(DashboardHref + "/x", DashboardHref)
  {
  }

  class Layout {
    var uploadedScreenshots: seq<Screenshot>
    var isUploading: bool
    var isUploadModalOpen: bool

    constructor ()
      ensures uploadedScreenshots == [] && !isUploading && !isUploadModalOpen
    {
      uploadedScreenshots := [];
      isUploading := false;
      isUploadModalOpen := false;
    }

    /** `fetchScreenshots`: a `success` reply replaces the list, or empties it when the list is absent. */
    method FetchScreenshots(reply: Call<ListReply>)
      modifies this`uploadedScreenshots
      ensures reply.Replied? && reply.reply.success ==>
                uploadedScreenshots == reply.reply.screenshots.GetOr([])
      ensures !(reply.Replied? && reply.reply.success) ==> uploadedScreenshots == old(uploadedScreenshots)
    {
      if reply.Replied? && reply.reply.success {
        uploadedScreenshots := reply.reply.screenshots.GetOr([]);
      }
    }

    /** The "Upload Screenshot" menu item. */
    method OpenUploadModal()
      modifies this`isUploadModalOpen
      ensures isUploadModalOpen
    {
      isUploadModalOpen := true;
    }

    /** The dialog's close button. */
    method CloseUploadModal()
      modifies this`isUploadModalOpen
      ensures !isUploadModalOpen
    {
      isUploadModalOpen := false;
    }

    /**
     * `handleUpload`: a `success` reply appends the returned screenshot (when
     * there is one) at the end and closes the dialog; anything else raises an
     * error toast and keeps list and dialog. `isUploading` ends false.
     */
    method HandleUpload(reply: Call<UploadReply>) returns (toast: Toast)
      modifies this`uploadedScreenshots, this`isUploading, this`isUploadModalOpen
      ensures !isUploading
      ensures toast.Success? <==> reply.Replied? && reply.reply.success
      ensures toast.Success? ==>
                uploadedScreenshots == old(uploadedScreenshots) +
                  (if reply.reply.screenShot.Some? then [reply.reply.screenShot.value] else []) &&
                !isUploadModalOpen
      ensures toast.Error? ==>
                uploadedScreenshots == old(uploadedScreenshots) && isUploadModalOpen == old(isUploadModalOpen)
      ensures reply.Threw? ==> toast == Error(UploadFailed)
      ensures reply.Replied? && !reply.reply.success ==> toast == Error(Or(reply.reply.message, UploadFailed))
    {
      isUploading := true;
      match reply {
        case Threw(_) =>
          toast := Error(UploadFailed);
        case Replied(data) =>
          if data.success {
            if data.screenShot.Some? {
              uploadedScreenshots := uploadedScreenshots + [data.screenShot.value];
            }
            toast := Success("Screenshot uploaded successfully!");
            isUploadModalOpen := false;
          } else {
            toast := Error(Or(data.message, UploadFailed));
          }
      }
      isUploading := false;
    }

    /**
     * `handleDeleteScreenshot`: `confirmed` is the answer to the browser's
     * confirm dialog. A declined confirm does nothing; a `success` reply
     * removes every screenshot with that id; anything else raises an error toast.
     */
    method HandleDeleteScreenshot(id: string, confirmed: bool, reply: Call<DeleteReply>) returns (toast: Option<Toast>)
      modifies this`uploadedScreenshots
      ensures !confirmed ==> toast == None && uploadedScreenshots == old(uploadedScreenshots)
      ensures confirmed && reply.Replied? && reply.reply.success ==>
                toast == Some(Success("Screenshot deleted successfully!")) &&
                uploadedScreenshots == Without(old(uploadedScreenshots), id)
      ensures confirmed && reply.Replied? && !reply.reply.success ==>
                toast == Some(Error(Or(reply.reply.message, DeleteFailed))) &&
                uploadedScreenshots == old(uploadedScreenshots)
      ensures confirmed && reply.Threw? ==>
                toast == Some(Error(Or(reply.error, DeleteFailed))) &&
                uploadedScreenshots == old(uploadedScreenshots)
    {
      if !confirmed {
        return None;
      }
      match reply {
        case Threw(m) =>
          toast := Some(Error(Or(m, DeleteFailed)));
        case Replied(data) =>
          if data.success {
            uploadedScreenshots := Without(uploadedScreenshots, id);
            toast := Some(Success("Screenshot deleted successfully!"));
          } else {
            toast := Some(Error(Or(data.message, DeleteFailed)));
          }
      }
    }
  }
}
