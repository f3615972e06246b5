/** The pending-attachment rules of the chat input bar (components/ChatInput.tsx):
    the document MIME allow-list, the outcome of the image and document pickers,
    and the remove button. */
module ChatInput {
  import opened Wrappers

  datatype AttachmentKind = Image | File

  /** `ChatAttachment`: kind, local URI, optional display name and MIME type. */
  datatype ChatAttachment = ChatAttachment(
    kind: AttachmentKind,
    uri: string,
    name: Option<string>,
    mimeType: Option<string>)

  const PdfType := "application/pdf"
  const MsWordType := "application/msword"
  // The OOXML word-processing type, spelt in pieces so that the verifier can see its characters.
  const DocxType := "application/" + "vnd.openxmlformats-" + "officedocument." + "wordprocessingml.document"
  const TextTypePrefix := "text/"

  /** `supportedTypes`, in order; each entry is matched as a prefix. */
  const SupportedTypes: seq<string> := [PdfType, MsWordType, DocxType, TextTypePrefix]

  const DefaultFileName := "unknown"
  const UnsupportedFormatMessage := "Wybrany format pliku nie jest obsługiwany."

  /** `types.some(t => s.startsWith(t))`. */
  function SomePrefixOf(types: seq<string>, s: string): (b: bool)
    ensures b <==> exists i :: 0 <= i < |types| && types[i] <= s
    decreases |types|
  {
    if types == [] then false
    else if types[0] <= s then true
    else
      var b := SomePrefixOf(types[1..], s);
      assert forall i :: 1 <= i < |types| ==> types[i] == types[1..][i - 1];
      b
  }

  /** `isSupported`: the optional chaining `file.mimeType?.startsWith(t)` yields
      undefined, hence false, for a missing MIME type. */
  function IsSupported(mimeType: Option<string>): (b: bool)
    ensures b <==> mimeType.Some? &&
                   (PdfType <= mimeType.value || MsWordType <= mimeType.value ||
                    DocxType <= mimeType.value || TextTypePrefix <= mimeType.value)
  {
    if mimeType.None? then false
    else
      var b := SomePrefixOf(SupportedTypes, mimeType.value);
      assert SupportedTypes == [PdfType, MsWordType, DocxType, TextTypePrefix];
      assert b <==> SupportedTypes[0] <= mimeType.value || SupportedTypes[1] <= mimeType.value ||
                    SupportedTypes[2] <= mimeType.value || SupportedTypes[3] <= mimeType.value;
      b
  }

  /** `prefix` is not a prefix of `s` when they differ at a position both have. */
  lemma DiffersAt(prefix: string, s: string, i: nat)
    requires i < |prefix| && i < |s| && prefix[i] != s[i]
    ensures !(prefix <= s)
  {
  }

  /** Acceptance is by prefix: every allowed entry followed by anything is accepted,
      so in particular every type under `text/`. */
  lemma AcceptedByPrefix(t: string, rest: string)
    requires t in SupportedTypes
    ensures IsSupported(Some(t + rest))
  {
    assert t <= t + rest;
  }

  /** A few concrete rejections: no MIME type, an image type, and a type that only
      shares a shorter head with an allowed one. */
  lemma RejectedExamples()
    ensures !IsSupported(None)
    ensures !IsSupported(Some("image/png"))
    ensures !IsSupported(Some("application/ms"))
    ensures !IsSupported(Some("text"))
  {
    DiffersAt(PdfType, "image/png", 0);
    DiffersAt(MsWordType, "image/png", 0);
    DiffersAt(DocxType, "image/png", 0);
    DiffersAt(TextTypePrefix, "image/png", 0);
    DiffersAt(PdfType, "application/ms", 12);
    DiffersAt(DocxType, "application/ms", 12);
    DiffersAt(TextTypePrefix, "application/ms", 0);
    DiffersAt(PdfType, "text", 0);
    DiffersAt(MsWordType, "text", 0);
    DiffersAt(DocxType, "text", 0);
  }

  // ---------------------------------------------------------------------------
  // Picker outcomes

  datatype ImageAsset = ImageAsset(uri: string)
  datatype DocumentAsset = DocumentAsset(uri: string, name: Option<string>, mimeType: Option<string>)

  /** A picker's result: `canceled` and the optional `assets` array. */
  datatype PickerResult<A> = PickerResult(canceled: bool, assets: Option<seq<A>>)

  /** A picker call either returns a result or throws; `error` is `String(error)`. */
  datatype PickOutcome<A> = Returned(result: PickerResult<A>) | Threw(error: string)

  /** `!result.canceled && result.assets?.length`. */
  predicate HasSelection<A>(r: PickerResult<A>) {
    !r.canceled && r.assets.Some? && |r.assets.value| > 0
  }

  /** What a handler does: replace the pending attachment, leave it, or invoke the
      error callback (with the attachment left as it was). */
  datatype Decision = Replace(attachment: ChatAttachment) | Keep | ReportError(message: string)

  /** `handlePickImage`: the first asset becomes an image attachment with no name
      and no MIME type. */
  function ImagePickDecision(outcome: PickOutcome<ImageAsset>): (d: Decision)
    ensures outcome.Threw? ==> d == ReportError(outcome.error)
    ensures d == Keep <==> outcome.Returned? && !HasSelection(outcome.result)
    ensures d.Replace? <==> outcome.Returned? && HasSelection(outcome.result)
    ensures d.Replace? ==>
              d.attachment == ChatAttachment(Image, outcome.result.assets.value[0].uri, None, None)
  {
    match outcome
    case Threw(e) => ReportError(e)
    case Returned(r) =>
      if HasSelection(r) then Replace(ChatAttachment(Image, r.assets.value[0].uri, None, None)) else Keep
  }

  /** `handlePickFile`: the first asset is checked against the allow-list; an accepted
      one becomes a file attachment named `name || "unknown"` with type `mimeType || ""`. */
  function FilePickDecision(outcome: PickOutcome<DocumentAsset>): (d: Decision)
    ensures outcome.Threw? ==> d == ReportError(outcome.error)
    ensures d == Keep <==> outcome.Returned? && !HasSelection(outcome.result)
    ensures outcome.Returned? && HasSelection(outcome.result) ==>
              var file := outcome.result.assets.value[0];
              && (!IsSupported(file.mimeType) <==> d == ReportError(UnsupportedFormatMessage))
              && (IsSupported(file.mimeType) <==> d.Replace?)
    ensures d.Replace? ==>
              var file := outcome.result.assets.value[0];
              && d.attachment.kind == File
              && d.attachment.uri == file.uri
              && d.attachment.name == Some(OrElse(file.name, DefaultFileName))
              && d.attachment.name.value != ""
              && d.attachment.mimeType == file.mimeType
              && SomePrefixOf(SupportedTypes, d.attachment.mimeType.value)
              && d.attachment.mimeType.value != ""
  {
    match outcome
    case Threw(e) => ReportError(e)
    case Returned(r) =>
      if !HasSelection(r) then Keep
      else
        var file := r.assets.value[0];
        if !IsSupported(file.mimeType) then ReportError(UnsupportedFormatMessage)
        else
          assert file.mimeType.value != "" by {
            assert SomePrefixOf(SupportedTypes, file.mimeType.value);
            var i :| 0 <= i < |SupportedTypes| && SupportedTypes[i] <= file.mimeType.value;
            assert |SupportedTypes[i]| > 0;
          }
          Replace(ChatAttachment(File, file.uri, Some(OrElse(file.name, DefaultFileName)),
                                 Some(OrElse(file.mimeType, ""))))
  }

  /** An attachment that came from a picker: images carry neither name nor MIME type;
      files carry a non-empty name and an allowed MIME type. */
  predicate PickedAttachment(a: ChatAttachment) {
    match a.kind
    case Image => a.name.None? && a.mimeType.None?
    case File => a.name.Some? && a.name.value != "" && IsSupported(a.mimeType)
  }

  /** Whatever a picker yields keeps the pending attachment a picked one. */
  lemma DecisionsPick(image: PickOutcome<ImageAsset>, file: PickOutcome<DocumentAsset>)
    ensures ImagePickDecision(image).Replace? ==> PickedAttachment(ImagePickDecision(image).attachment)
    ensures FilePickDecision(file).Replace? ==> PickedAttachment(FilePickDecision(file).attachment)
  {
  }

  // ---------------------------------------------------------------------------
  // The pending attachment

  /** The single pending attachment that the input bar updates through `setAttachment`. */
  class PendingAttachment {
    var attachment: Option<ChatAttachment>

    ghost predicate Valid()
      reads this
    {
      attachment.Some? ==> PickedAttachment(attachment.value)
    }

    constructor ()
      ensures attachment == None && Valid()
    {
      attachment := None;
    }

    /** `handlePickImage`; returns the message passed to `onPickImageError`, if it is invoked. */
    method HandlePickImage(outcome: PickOutcome<ImageAsset>) returns (imageError: Option<string>)
      requires Valid()
      modifies this
      ensures Valid()
      ensures attachment == (match ImagePickDecision(outcome)
                             case Replace(a) => Some(a)
                             case _ => old(attachment))
      ensures imageError == (match ImagePickDecision(outcome)
                             case ReportError(m) => Some(m)
                             case _ => None)
    {
      imageError := None;
      match outcome {
        case Threw(e) =>
          imageError := Some(e);
        case Returned(result) =>
          if !result.canceled && result.assets.Some? && |result.assets.value| > 0 {
            attachment := Some(ChatAttachment(Image, result.assets.value[0].uri, None, None));
          }
      }
    }

    /** `handlePickFile`; returns the message passed to `onPickFileError`, if it is invoked. */
    method HandlePickFile(outcome: PickOutcome<DocumentAsset>) returns (fileError: Option<string>)
      requires Valid()
      modifies this
      ensures Valid()
      ensures attachment == (match FilePickDecision(outcome)
                             case Replace(a) => Some(a)
                             case _ => old(attachment))
      ensures fileError == (match FilePickDecision(outcome)
                            case ReportError(m) => Some(m)
                            case _ => None)
    {
      fileError := None;
      match outcome {
        case Threw(e) =>
          fileError := Some(e);
        case Returned(result) =>
          if !result.canceled && result.assets.Some? && |result.assets.value| > 0 {
            var file := result.assets.value[0];
            var isSupported := SomePrefixOf(SupportedTypes, file.mimeType.GetOr(""));
            if file.mimeType.None? || !isSupported {
              fileError := Some(UnsupportedFormatMessage);
              return;
            }
            attachment := Some(ChatAttachment(File, file.uri, Some(OrElse(file.name, DefaultFileName)),
                                              Some(OrElse(file.mimeType, ""))));
          }
      }
    }

    /** The remove button of either preview: the attachment is cleared whatever its kind,
        which is the never-picked state. */
    method RemoveAttachment()
      modifies this
      ensures attachment == None && Valid()
    {
      attachment := None;
    }
  }
}
