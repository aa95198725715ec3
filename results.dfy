/**
 * `save_image_result`: accept only a COMPLETED result that carries a non-empty image,
 * strip a data-URI header, decode the base64 text and write the bytes.
 *
 * The base64 decoder and the filesystem are injected: `decode` returns None where
 * `base64.b64decode` raises, and `fsAccepts` says whether creating the parent directory
 * and writing the file succeed.
 */
module Results {
  import opened Wrappers
  import opened Text
  import opened Poller

  type Bytes = seq<bv8>

  /** What `edit_single_image` / `edit_dual_image` return: an error record or the poller's result. */
  datatype EditResult = EditError(message: string) | Job(result: JobResult)

  /** The payload after the first comma, when there is one; otherwise the whole text. */
  function StripDataUri(image: string): (payload: string)
    ensures ',' !in image ==> payload == image
    ensures ',' in image ==>
      && |payload| < |image|
      && payload == image[|image| - |payload|..]
      && image[|image| - |payload| - 1] == ','
      && ',' !in image[..|image| - |payload| - 1]
  {
    var i := Find(image, ',');
    if i >= 0 then image[i + 1..] else image
  }

  /** A data URI's header ends at its first comma, so stripping leaves the base64 payload intact. */
  lemma StripDataUriOfDataUri(header: string, payload: string)
    requires ',' !in header
    ensures StripDataUri(header + "," + payload) == payload
  {
    FindAfterPrefix(header, ',', payload);
    assert (header + "," + payload)[|header| + 1..] == payload;
  }

  /** One call of `save_image_result`: its return value and the bytes written, if any. */
  datatype Save = Save(saved: bool, written: Option<Bytes>)

  /** The image text of a COMPLETED result, when its output carries a non-empty one. */
  function ImageOf(r: EditResult): (image: Option<string>)
    ensures image.Some? ==> image.value != ""
    ensures image.Some? ==>
      r.Job? && r.result.Completed? && r.result.output.Some? && r.result.output.value.image == image
    ensures (r.Job? && r.result.Completed? && r.result.output.Some? &&
             r.result.output.value.image.Some? && r.result.output.value.image.value != "") ==> image.Some?
  {
    if r.Job? && r.result.Completed? && r.result.output.Some? &&
       r.result.output.value.image.Some? && r.result.output.value.image.value != ""
    then r.result.output.value.image
    else None
  }

  function SaveImageResult(r: EditResult, decode: string -> Option<Bytes>, fsAccepts: bool): (s: Save)
    ensures s.saved <==> s.written.Some?
    ensures !(r.Job? && r.result.Completed?) ==> !s.saved
    ensures ImageOf(r) == None ==> !s.saved
    ensures s.saved <==> ImageOf(r).Some? && fsAccepts && decode(StripDataUri(ImageOf(r).value)).Some?
    ensures s.saved ==> s.written == decode(StripDataUri(ImageOf(r).value))
  {
    match ImageOf(r)
    case None => Save(false, None)
    case Some(image) =>
      if !fsAccepts then Save(false, None)
      else
        match decode(StripDataUri(image))
        case None => Save(false, None)
        case Some(bytes) => Save(true, Some(bytes))
  }

  /**
   * For a completed result whose image is a data URI, the bytes written are the decoding
   * of the payload after the header.
   */
  lemma SaveWritesDecodedPayload(output: Output, jobId: string, header: string, payload: string,
                                 decode: string -> Option<Bytes>)
    requires ',' !in header
    requires output.image == Some(header + "," + payload)
    requires decode(payload).Some?
    ensures SaveImageResult(Job(Completed(Some(output), jobId)), decode, true) ==
      Save(true, decode(payload))
  {
    StripDataUriOfDataUri(header, payload);
  }

  /** For a completed result whose image is plain base64 text, the whole text is decoded. */
  lemma SaveWritesDecodedText(output: Output, jobId: string, text: string, decode: string -> Option<Bytes>)
    requires ',' !in text && text != ""
    requires output.image == Some(text)
    ensures SaveImageResult(Job(Completed(Some(output), jobId)), decode, true) == Save(decode(text).Some?, decode(text))
  {
  }
}
