/** The bounty board's proof upload and review (sections/TargetList.tsx): a
    submitter collects at most five screenshots, each at most 5 MiB, and sends them
    as one JSON-encoded proof; an admin approves or rejects a pending submission. */
module TargetList {
  import opened Types
  import opened Text
  import opened ProofCodec

  const MaxImages := 5
  const MaxImageBytes := 5 * 1024 * 1024
  const MaxTotalLength := 5 * 1024 * 1024

  const TooManyImages := "Maximum 5 images allowed."
  const TotalTooLarge := "Total file size too large! Please remove some images or use smaller screenshots."
  const Uploaded := "Intel uploaded to secure server."
  const UploadFailed := "Upload failed."
  const ApprovedFeedback := "Good hunting."
  const RejectedFeedback := "Intel insufficient."
  const UnknownTarget := "Unknown Target"

  function TooLargeAlert(name: string): string {
    name + " is too large (Max 5MB per image)"
  }

  /** A picked file: its name, its size in bytes and the data URL its reader yields. */
  datatype ImageFile = ImageFile(name: string, size: nat, dataUrl: string)

  predicate Fits(f: ImageFile) {
    f.size <= MaxImageBytes
  }

  /** The data URLs a batch contributes, in file order: every file within the
      per-image limit. */
  function Accepted(batch: seq<ImageFile>): (r: seq<string>)
    ensures |r| <= |batch|
  {
    if batch == [] then []
    else
      var last := batch[|batch| - 1];
      Accepted(batch[..|batch| - 1]) + (if Fits(last) then [last.dataUrl] else [])
  }

  /** The alerts a batch raises: one per oversized file, in file order. */
  function Refusals(batch: seq<ImageFile>): (r: seq<string>)
    ensures |r| <= |batch|
  {
    if batch == [] then []
    else
      var last := batch[|batch| - 1];
      Refusals(batch[..|batch| - 1]) + (if Fits(last) then [] else [TooLargeAlert(last.name)])
  }

  /** An oversized file is skipped and the rest of the batch still goes through:
      a data URL comes in exactly when some file within the limit carries it, and
      every file is either taken or answered by an alert. */
  lemma {:induction false} AcceptedIff(batch: seq<ImageFile>, url: string)
    ensures url in Accepted(batch) <==> exists i :: 0 <= i < |batch| && Fits(batch[i]) && batch[i].dataUrl == url
    ensures |Accepted(batch)| + |Refusals(batch)| == |batch|
    decreases |batch|
  {
    if batch != [] {
      var init := batch[..|batch| - 1];
      AcceptedIff(init, url);
      assert forall i :: 0 <= i < |init| ==> init[i] == batch[i];
    }
  }

  /** What one upload leaves: the image list and the alerts raised. */
  datatype UploadOutcome = UploadOutcome(images: seq<string>, alerts: seq<string>)

  /** `handleImageUpload`: no file list changes nothing; a full list refuses the
      upload; otherwise only the first `5 - held` files are looked at, and of those
      the ones within the per-image limit are appended. */
  function Upload(held: seq<string>, files: Option<seq<ImageFile>>): (r: UploadOutcome)
    ensures files.None? ==> r == UploadOutcome(held, [])
    ensures files.Some? && |held| >= MaxImages ==> r == UploadOutcome(held, [TooManyImages])
    ensures |r.images| >= |held| && r.images[..|held|] == held
    ensures |held| <= MaxImages ==> |r.images| <= MaxImages
    ensures files.Some? && |held| < MaxImages ==>
      var taken := files.value[..Min(MaxImages - |held|, |files.value|)];
      r.images[|held|..] == Accepted(taken) && r.alerts == Refusals(taken)
  {
    match files
    case None => UploadOutcome(held, [])
    case Some(fs) =>
      var remaining := MaxImages - |held|;
      if remaining <= 0 then UploadOutcome(held, [TooManyImages])
      else
        var taken := fs[..Min(remaining, |fs|)];
        assert (held + Accepted(taken))[..|held|] == held;
        assert (held + Accepted(taken))[|held|..] == Accepted(taken);
        UploadOutcome(held + Accepted(taken), Refusals(taken))
  }

  /** What the modal lets the submitter do to the list. */
  datatype ImageEdit = UploadFiles(files: Option<seq<ImageFile>>) | RemoveImageAt(idx: int)

  function ApplyImageEdit(images: seq<string>, e: ImageEdit): seq<string> {
    match e
    case UploadFiles(files) => Upload(images, files).images
    case RemoveImageAt(idx) => RemoveAt(images, idx)
  }

  function ApplyImageEdits(images: seq<string>, edits: seq<ImageEdit>): seq<string>
    decreases |edits|
  {
    if edits == [] then images else ApplyImageEdits(ApplyImageEdit(images, edits[0]), edits[1..])
  }

  /** Uploads and removals handled one after another never hold more than five
      images. */
  lemma {:induction false} ImageCountStaysBounded(images: seq<string>, edits: seq<ImageEdit>)
    requires |images| <= MaxImages
    ensures |ApplyImageEdits(images, edits)| <= MaxImages
    decreases |edits|
  {
    if edits != [] {
      ImageCountStaysBounded(ApplyImageEdit(images, edits[0]), edits[1..]);
    }
  }

  /** `proofImages.reduce((acc, img) => acc + img.length, 0)`. */
  function TotalLength(images: seq<string>): (total: nat)
    ensures forall i :: 0 <= i < |images| ==> |images[i]| <= total
  {
    if images == [] then 0 else |images[0]| + TotalLength(images[1..])
  }

  /** The sum taken from the back: adding one more image adds its length. */
  lemma {:induction false} TotalLengthSnoc(images: seq<string>, img: string)
    ensures TotalLength(images + [img]) == TotalLength(images) + |img|
  {
    if images != [] {
      assert (images + [img])[1..] == images[1..] + [img];
      TotalLengthSnoc(images[1..], img);
    }
  }

  /** What `handleSubmitProof` sends to the store. */
  datatype SubmissionRequest = SubmissionRequest(
    id: Id,
    bountyId: Id,
    userId: Id,
    proof: string,
    status: SubmissionStatus)

  datatype Submit = NotReady | OverLimit | Request(request: SubmissionRequest)

  /** The submit button: nothing without a selected bounty (an empty id counts as
      none) or without images; an alert above the total limit; otherwise a pending
      submission whose proof reads back as exactly the images. */
  function PrepareSubmission(bountyId: Option<Id>, images: seq<string>, userId: Id, id: Id): (r: Submit)
    ensures r == NotReady <==> bountyId.None? || bountyId.value == [] || images == []
    ensures r == OverLimit <==> !(bountyId.None? || bountyId.value == [] || images == []) && TotalLength(images) > MaxTotalLength
    ensures r.Request? ==>
      && r.request.id == id && r.request.bountyId == bountyId.value && r.request.userId == userId
      && r.request.status == SubmissionPending
      && ParseProof(r.request.proof) == images
      && 0 < |images| && TotalLength(images) <= MaxTotalLength
  {
    if bountyId.None? || bountyId.value == [] || images == [] then NotReady
    else if TotalLength(images) > MaxTotalLength then OverLimit
    else
      ProofRoundTrip(images);
      Request(SubmissionRequest(id, bountyId.value, userId, EncodeProof(images), SubmissionPending))
  }

  /** The submitter's side of the board: the bounty whose modal is open and the
      images collected so far. */
  class ProofDraft {
    var selectedBountyId: Option<Id>
    var proofImages: seq<string>

    constructor ()
      ensures selectedBountyId.None? && proofImages == []
    {
      selectedBountyId := None;
      proofImages := [];
    }

    /** "SUBMIT INTEL" on a bounty card opens the modal for it. */
    method SelectBounty(id: Id)
      modifies this
      ensures selectedBountyId == Some(id) && proofImages == old(proofImages)
    {
      selectedBountyId := Some(id);
    }

    /** "CANCEL" closes the modal and drops the collected images. */
    method Cancel()
      modifies this
      ensures selectedBountyId.None? && proofImages == []
    {
      selectedBountyId := None;
      proofImages := [];
    }

    /** `handleImageUpload`, each reader's result appended in file order; returns
        the alerts raised. */
    method UploadImages(files: Option<seq<ImageFile>>) returns (alerts: seq<string>)
      modifies this
      ensures UploadOutcome(proofImages, alerts) == Upload(old(proofImages), files)
      ensures selectedBountyId == old(selectedBountyId)
      ensures |old(proofImages)| <= MaxImages ==> |proofImages| <= MaxImages
    {
      alerts := [];
      if files.None? {
        return;
      }
      var remaining := 5 - |proofImages|;
      if remaining <= 0 {
        alerts := [TooManyImages];
        return;
      }
      var fs := files.value;
      var toProcess := fs[..Min(remaining, |fs|)];
      ghost var held := proofImages;
      var i := 0;
      while i < |toProcess|
        invariant 0 <= i <= |toProcess|
        invariant proofImages == held + Accepted(toProcess[..i])
        invariant alerts == Refusals(toProcess[..i])
        invariant selectedBountyId == old(selectedBountyId)
      {
        var file := toProcess[i];
        assert toProcess[..i + 1][..i] == toProcess[..i];
        if file.size > 5 * 1024 * 1024 {
          alerts := alerts + [TooLargeAlert(file.name)];
        } else {
          proofImages := proofImages + [file.dataUrl];
        }
        i := i + 1;
      }
      assert toProcess[..i] == toProcess;
    }

    /** `removeImage(index)`: drops that position, keeping the others in order. */
    method RemoveImage(index: int)
      modifies this
      ensures proofImages == RemoveAt(old(proofImages), index)
      ensures selectedBountyId == old(selectedBountyId)
    {
      proofImages := RemoveAt(proofImages, index);
    }

    /** `handleSubmitProof`; `stored` is whether the store accepted the request. A
        stored submission closes the modal and clears the images; a failed one keeps
        both. */
    method SubmitProof(userId: Id, id: Id, stored: bool) returns (request: Option<SubmissionRequest>, alert: Option<string>)
      modifies this
      ensures match PrepareSubmission(old(selectedBountyId), old(proofImages), userId, id)
        case NotReady =>
          request.None? && alert.None?
          && selectedBountyId == old(selectedBountyId) && proofImages == old(proofImages)
        case OverLimit =>
          request.None? && alert == Some(TotalTooLarge)
          && selectedBountyId == old(selectedBountyId) && proofImages == old(proofImages)
        case Request(req) =>
          request == Some(req)
          && (stored ==> selectedBountyId.None? && proofImages == [] && alert == Some(Uploaded))
          && (!stored ==> selectedBountyId == old(selectedBountyId) && proofImages == old(proofImages) && alert == Some(UploadFailed))
    {
      request, alert := None, None;
      if selectedBountyId.None? || selectedBountyId.value == [] || |proofImages| == 0 {
        return;
      }
      if TotalLength(proofImages) > 5 * 1024 * 1024 {
        alert := Some(TotalTooLarge);
        return;
      }
      var req := SubmissionRequest(id, selectedBountyId.value, userId, EncodeProof(proofImages), SubmissionPending);
      request := Some(req);
      if stored {
        selectedBountyId := None;
        proofImages := [];
        alert := Some(Uploaded);
      } else {
        alert := Some(UploadFailed);
      }
    }
  }

  // ------------------------------------------------------------- review

  /** `bounties.find(b => b.id === id)`: the first bounty with that id. */
  function FindBounty(bounties: seq<Bounty>, id: Id): (r: Option<Bounty>)
    ensures r.Some? ==> r.value.id == id
    ensures r.Some? ==> exists i :: 0 <= i < |bounties| && bounties[i] == r.value && forall j :: 0 <= j < i ==> bounties[j].id != id
    ensures r.None? <==> forall b :: b in bounties ==> b.id != id
  {
    if bounties == [] then None
    else if bounties[0].id == id then Some(bounties[0])
    else FindBounty(bounties[1..], id)
  }

  /** A review card's title: the related bounty's, or "Unknown Target" when there
      is none or its title is empty. */
  function CardTitle(bounties: seq<Bounty>, sub: BountySubmission): (title: string)
    ensures title != []
    ensures FindBounty(bounties, sub.bountyId).None? ==> title == UnknownTarget
    ensures FindBounty(bounties, sub.bountyId).Some? && FindBounty(bounties, sub.bountyId).value.title != [] ==>
      title == FindBounty(bounties, sub.bountyId).value.title
  {
    match FindBounty(bounties, sub.bountyId)
    case Some(b) => if b.title != [] then b.title else UnknownTarget
    case None => UnknownTarget
  }

  datatype Verdict = Approve | Reject

  /** What `handleVerify` sends to the store. */
  datatype VerifyRequest = VerifyRequest(
    submissionId: Id,
    status: SubmissionStatus,
    feedback: string,
    bountyId: Id,
    userId: Id,
    reward: int)

  /** The review buttons, shown only on a pending submission; `confirmed` is the
      answer to the confirmation dialog. Approval passes the related bounty's reward
      (0 when no bounty has that id), rejection always 0. */
  function Verify(bounties: seq<Bounty>, sub: BountySubmission, verdict: Verdict, confirmed: bool): (r: Option<VerifyRequest>)
    ensures r.Some? <==> sub.status == SubmissionPending && confirmed
    ensures r.Some? ==>
      && r.value.submissionId == sub.id && r.value.bountyId == sub.bountyId && r.value.userId == sub.userId
      && (verdict == Reject ==> r.value.status == Rejected && r.value.reward == 0 && r.value.feedback == RejectedFeedback)
      && (verdict == Approve ==>
            && r.value.status == Approved && r.value.feedback == ApprovedFeedback
            && (FindBounty(bounties, sub.bountyId).None? ==> r.value.reward == 0)
            && (FindBounty(bounties, sub.bountyId).Some? ==> r.value.reward == FindBounty(bounties, sub.bountyId).value.reward))
  {
    if sub.status != SubmissionPending || !confirmed then None
    else
      match verdict
      case Reject => Some(VerifyRequest(sub.id, Rejected, RejectedFeedback, sub.bountyId, sub.userId, 0))
      case Approve =>
        var reward := match FindBounty(bounties, sub.bountyId) case Some(b) => b.reward case None => 0;
        Some(VerifyRequest(sub.id, Approved, ApprovedFeedback, sub.bountyId, sub.userId, reward))
  }
}
