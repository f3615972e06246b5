/** The recording session of the voice input (hooks/useSpeechToText.ts): the permission
    gate on start, the metering callback with its synthetic fallback, the stop that
    resets the session and submits the audio, and the transcription result rule.
    Device, permission and network outcomes are parameters; so is the random draw
    `Math.random() * 20 - 10` of the metering fallback. */
module SpeechToText {
  import opened Wrappers

  /** The metering value of an idle session (dB). */
  const MeteringFloor: real := -160.0
  /** The range of the synthetic metering walk (dB). */
  const FallbackMin: real := -60.0
  const FallbackMax: real := 0.0

  const GrantedStatus := "granted"
  const SpeechEndpoint := "https://ai-chat-api-production.up.railway.app/api/openai/speech"
  const UploadFileName := "recording.m4a"
  const UploadMimeType := "audio/mp4"

  /** An opaque handle for a device recording. */
  datatype Recording = Recording(handle: nat)

  /** A recording status update; `metering` is present when it is a number. */
  datatype RecordingStatus = RecordingStatus(metering: Option<real>)

  /** The transcription request's outcome: `fetch` or `resp.json()` threw, a non-2xx
      response, or a 2xx response whose JSON `text` field is given. */
  datatype TranscriptionResponse = RequestFailed | NotOk(errorText: string) | Ok(text: string)

  /** The multipart form of the upload: one `file` field. */
  datatype UploadForm = UploadForm(url: string, uri: string, fileName: string, mimeType: string)

  function Min(a: real, b: real): real { if a <= b then a else b }
  function Max(a: real, b: real): real { if a >= b then a else b }

  /** The fallback walk: `max(min(prev + delta, 0), -60)`. */
  function FallbackMetering(prev: real, delta: real): (m: real)
    ensures FallbackMin <= m <= FallbackMax
    ensures FallbackMin <= prev + delta <= FallbackMax ==> m == prev + delta
    ensures prev + delta > FallbackMax ==> m == FallbackMax
    ensures prev + delta < FallbackMin ==> m == FallbackMin
  {
    Max(Min(prev + delta, FallbackMax), FallbackMin)
  }

  /** The status callback's new metering: a numeric metering value verbatim (unclamped),
      otherwise the fallback walk from the previous value. */
  function NextMetering(prev: real, status: RecordingStatus, delta: real): real {
    match status.metering
    case Some(m) => m
    case None => FallbackMetering(prev, delta)
  }

  /** One delivery of the status callback, with the random draw it would use. */
  datatype Tick = Tick(status: RecordingStatus, delta: real)

  /** The metering value after a sequence of status updates. */
  function MeteringAfter(prev: real, ticks: seq<Tick>): real
    decreases |ticks|
  {
    if ticks == [] then prev
    else MeteringAfter(NextMetering(prev, ticks[0].status, ticks[0].delta), ticks[1..])
  }

  /** After any non-empty run of status updates the metering is the last update's numeric
      value when it has one, and lies in [-60, 0] otherwise, whatever came before. */
  lemma {:induction false} MeteringAfterLast(prev: real, ticks: seq<Tick>)
    requires ticks != []
    ensures var last := ticks[|ticks| - 1];
            last.status.metering.Some? ==> MeteringAfter(prev, ticks) == last.status.metering.value
    ensures var last := ticks[|ticks| - 1];
            last.status.metering.None? ==> FallbackMin <= MeteringAfter(prev, ticks) <= FallbackMax
    decreases |ticks|
  {
    if |ticks| > 1 {
      var next := NextMetering(prev, ticks[0].status, ticks[0].delta);
      MeteringAfterLast(next, ticks[1..]);
      assert ticks[1..][|ticks[1..]| - 1] == ticks[|ticks| - 1];
    }
  }

  /** `sendAudioForTranscription`'s result: the `text` of a 2xx response, "" for a
      non-2xx response or for anything that throws. */
  function TranscriptionText(response: TranscriptionResponse): (text: string)
    ensures !response.Ok? ==> text == ""
    ensures response.Ok? ==> text == response.text
  {
    match response
    case Ok(t) => t
    case NotOk(_) => ""
    case RequestFailed => ""
  }

  /** `sendAudioForTranscription(uri)`: the form posted and the text returned. */
  method SendAudioForTranscription(uri: string, response: TranscriptionResponse)
    returns (form: UploadForm, text: string)
    ensures form == UploadForm(SpeechEndpoint, uri, UploadFileName, UploadMimeType)
    ensures text == TranscriptionText(response)
  {
    form := UploadForm(SpeechEndpoint, uri, UploadFileName, UploadMimeType);
    text := TranscriptionText(response);
  }

  /** The four state variables of the hook. */
  class SpeechSession {
    var recording: Option<Recording>
    var isRecording: bool
    var transcription: string
    var currentMetering: real

    /** A session is recording exactly when it holds a recording. */
    ghost predicate Valid()
      reads this
    {
      isRecording <==> recording.Some?
    }

    constructor ()
      ensures recording == None && !isRecording && transcription == "" && currentMetering == MeteringFloor
      ensures Valid()
    {
      recording := None;
      isRecording := false;
      transcription := "";
      currentMetering := MeteringFloor;
    }

    /** `startRecording`. `permissionStatus` is the permission request's status; `created`
        is the new recording, None when setting the audio mode or creating the recording
        threw. Any failure is logged and changes nothing. An earlier recording is
        replaced, not stopped. */
    method StartRecording(permissionStatus: string, created: Option<Recording>)
      requires Valid()
      modifies this
      ensures Valid()
      ensures permissionStatus != GrantedStatus ==> unchanged(this)
      ensures created.None? ==> unchanged(this)
      ensures permissionStatus == GrantedStatus && created.Some? ==>
                recording == created && isRecording
                && transcription == old(transcription) && currentMetering == old(currentMetering)
    {
      if permissionStatus != GrantedStatus {
        return;
      }
      match created {
        case None =>
        case Some(r) =>
          recording := Some(r);
          isRecording := true;
      }
    }

    /** The recording status callback. */
    method OnRecordingStatusUpdate(status: RecordingStatus, delta: real)
      modifies this
      ensures currentMetering == NextMetering(old(currentMetering), status, delta)
      ensures status.metering.None? ==> FallbackMin <= currentMetering <= FallbackMax
      ensures recording == old(recording) && isRecording == old(isRecording)
      ensures transcription == old(transcription)
    {
      if status.metering.Some? {
        currentMetering := status.metering.value;
      } else {
        var newVal := currentMetering + delta;
        currentMetering := Max(Min(newVal, FallbackMax), FallbackMin);
      }
    }

    /** `stopRecording`. `stopSucceeded` tells whether stopping and unloading succeeded,
        `uri` is the recording's URI, `response` the transcription request's outcome.
        Returns the form uploaded, if any. */
    method StopRecording(stopSucceeded: bool, uri: Option<string>, response: TranscriptionResponse)
      returns (upload: Option<UploadForm>)
      requires Valid()
      modifies this
      ensures Valid()
      ensures old(recording).None? || !stopSucceeded ==> unchanged(this) && upload.None?
      ensures old(recording).Some? && stopSucceeded ==>
                && recording.None? && !isRecording && currentMetering == MeteringFloor
                && (Truthy(uri) ==>
                      upload == Some(UploadForm(SpeechEndpoint, uri.value, UploadFileName, UploadMimeType))
                      && transcription == TranscriptionText(response))
                && (!Truthy(uri) ==> upload.None? && transcription == old(transcription))
    {
      upload := None;
      if recording.None? {
        return;
      }
      if !stopSucceeded {
        // the error is logged
        return;
      }
      isRecording := false;
      recording := None;
      currentMetering := MeteringFloor;
      if Truthy(uri) {
        var form, text := SendAudioForTranscription(uri.value, response);
        upload := Some(form);
        transcription := text;
      }
    }
  }
}
