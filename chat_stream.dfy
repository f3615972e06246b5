/** The streaming reply accumulator of the chat screen (hooks/useChatStream.ts).

    One call of `streamChatGPT` resets the reply buffer, raises the loading flag,
    builds the request body and opens a server-sent-event connection; the
    connection's handlers then append text fragments to the buffer until a
    `[DONE]` frame, an `end` event or an `error` event closes it. */
module ChatStream {
  import opened Wrappers

  const ChatEndpoint := "https://ai-chat-api-production.up.railway.app/api/openai/chat"
  const ModelName := "gpt-4o-mini"
  const DoneMarker := "[DONE]"
  const ImageDataPrefix := "data:image/jpeg;base64,"
  const ImageDetail := "high"

  // ---------------------------------------------------------------------------
  // The request

  /** One element of the user message's `content` array. */
  datatype ContentPart =
    | TextPart(text: string)
    | ImageUrlPart(url: string, detail: string)

  datatype ChatMessage = ChatMessage(role: string, content: seq<ContentPart>)

  /** The JSON object that is serialised into the POST body. */
  datatype RequestBody = RequestBody(model: string, messages: seq<ChatMessage>, stream: bool)

  /** The options handed to the event source together with the URL. */
  datatype SseRequest = SseRequest(
    url: string,
    httpMethod: string,
    contentType: string,
    body: RequestBody,
    withCredentials: bool)

  /** The `content` array: a text part with the prompt, then an image part when
      the (optional) base64 payload is truthy, i.e. present and non-empty. */
  function ContentParts(prompt: string, imageBase64: Option<string>): (parts: seq<ContentPart>)
    ensures 1 <= |parts| <= 2
    ensures parts[0] == TextPart(prompt)
    ensures |parts| == 2 <==> Truthy(imageBase64)
    ensures |parts| == 2 ==> parts[1] == ImageUrlPart(ImageDataPrefix + imageBase64.value, ImageDetail)
  {
    [TextPart(prompt)] +
    if Truthy(imageBase64) then [ImageUrlPart(ImageDataPrefix + imageBase64.value, ImageDetail)] else []
  }

  /** The body payload: fixed model, exactly one message with role "user", streaming on. */
  function BuildRequestBody(prompt: string, imageBase64: Option<string>): RequestBody {
    RequestBody(ModelName, [ChatMessage("user", ContentParts(prompt, imageBase64))], true)
  }

  /** What the endpoint accepts: the fixed model, streaming, one user message whose
      content begins with a text part and has at most one further part, an image
      carried as a JPEG data URI with detail "high". */
  predicate WellFormedBody(body: RequestBody) {
    && body.model == ModelName
    && body.stream
    && |body.messages| == 1
    && body.messages[0].role == "user"
    && var content := body.messages[0].content;
       && 1 <= |content| <= 2
       && content[0].TextPart?
       && (|content| == 2 ==>
             content[1].ImageUrlPart? && ImageDataPrefix <= content[1].url && content[1].detail == ImageDetail)
  }

  /** The prompt a body carries (reading the request back, as the endpoint does). */
  function PromptOf(body: RequestBody): Option<string> {
    if |body.messages| == 1 && |body.messages[0].content| >= 1 && body.messages[0].content[0].TextPart?
    then Some(body.messages[0].content[0].text)
    else None
  }

  /** The base64 image payload a body carries, with the data-URI prefix removed. */
  function ImageOf(body: RequestBody): Option<string> {
    if |body.messages| == 1 && |body.messages[0].content| == 2
       && body.messages[0].content[1].ImageUrlPart?
       && ImageDataPrefix <= body.messages[0].content[1].url
    then Some(body.messages[0].content[1].url[|ImageDataPrefix|..])
    else None
  }

  /** Every body the hook builds is well formed, and reading it back yields the
      prompt and exactly the truthy image payload (none for a missing or empty one). */
  lemma RequestBodyRoundTrip(prompt: string, imageBase64: Option<string>)
    ensures WellFormedBody(BuildRequestBody(prompt, imageBase64))
    ensures PromptOf(BuildRequestBody(prompt, imageBase64)) == Some(prompt)
    ensures ImageOf(BuildRequestBody(prompt, imageBase64)) == if Truthy(imageBase64) then imageBase64 else None
  {
  }

  // ---------------------------------------------------------------------------
  // Events and their effect

  /** The `type` of an `error` event; every kind ends the stream. */
  datatype ErrorKind = ConnectionError | Exception | OtherError

  /** Events the connection dispatches to the hook's listeners. A `message` carries
      the frame's `data`, which may be missing. */
  datatype StreamEvent =
    | Opened
    | Message(data: Option<string>)
    | End
    | Error(kind: ErrorKind)

  /** What the `message` handler does with one frame. */
  datatype FrameAction = Close | Append(content: string) | Skip

  /** The `message` handler's decision. `parse` stands for `JSON.parse(text).content || ""`
      and yields None where that expression throws; it is applied to `data || ""`. */
  function ClassifyFrame(data: Option<string>, parse: string -> Option<string>): (a: FrameAction)
    ensures a == Close <==> data == Some(DoneMarker)
    ensures a.Append? ==> data != Some(DoneMarker) && a.content != "" && parse(data.GetOr("")) == Some(a.content)
    ensures a == Skip <==> data != Some(DoneMarker) && (parse(data.GetOr("")).None? || parse(data.GetOr("")) == Some(""))
  {
    if data == Some(DoneMarker) then Close
    else match parse(data.GetOr(""))
      case None => Skip
      case Some(content) => if content != "" then Append(content) else Skip
  }

  /** The observable state of the hook: the reply buffer, the loading flag, and
      whether the connection variable `es` holds an open connection. */
  datatype StreamView = StreamView(buffer: string, isLoading: bool, open: bool)

  const Idle := StreamView("", false, false)

  /** The state right after `streamChatGPT`, before any frame. */
  const Streaming := StreamView("", true, true)

  /** `cleanup`: loading off, connection closed and dropped, buffer kept. */
  function CleanupView(v: StreamView): StreamView {
    v.(isLoading := false, open := false)
  }

  /** The effect of one event on the state, as the listeners define it. */
  function Step(v: StreamView, ev: StreamEvent, parse: string -> Option<string>): StreamView {
    match ev
    case Opened => v
    case Message(data) =>
      (match ClassifyFrame(data, parse)
       case Close => CleanupView(v)
       case Append(content) => v.(buffer := v.buffer + content)
       case Skip => v)
    case End => CleanupView(v)
    case Error(_) => CleanupView(v)
  }

  /** The events that end the stream. */
  predicate Closes(ev: StreamEvent, parse: string -> Option<string>) {
    ev.End? || ev.Error? || (ev.Message? && ClassifyFrame(ev.data, parse) == Close)
  }

  /** The text one event contributes to the reply ("" for all but appended frames). */
  function Fragment(ev: StreamEvent, parse: string -> Option<string>): string {
    if ev.Message? && ClassifyFrame(ev.data, parse).Append? then ClassifyFrame(ev.data, parse).content else ""
  }

  /** One-event contract of the listeners: a closing event keeps the buffer and turns
      loading and the connection off; any other event only appends its fragment. */
  lemma StepEffect(v: StreamView, ev: StreamEvent, parse: string -> Option<string>)
    ensures Closes(ev, parse) ==> Step(v, ev, parse) == StreamView(v.buffer, false, false)
    ensures !Closes(ev, parse) ==> Step(v, ev, parse) == v.(buffer := v.buffer + Fragment(ev, parse))
  {
  }

  /** The event source delivers events in arrival order and none once it is closed. */
  function Deliver(v: StreamView, evs: seq<StreamEvent>, parse: string -> Option<string>): StreamView
    decreases |evs|
  {
    if evs == [] || !v.open then v else Deliver(Step(v, evs[0], parse), evs[1..], parse)
  }

  predicate HasClose(evs: seq<StreamEvent>, parse: string -> Option<string>) {
    exists i :: 0 <= i < |evs| && Closes(evs[i], parse)
  }

  /** Reference definition of the reply: the fragments of the events before the first closing one. */
  function Received(evs: seq<StreamEvent>, parse: string -> Option<string>): string
    decreases |evs|
  {
    if evs == [] || Closes(evs[0], parse) then "" else Fragment(evs[0], parse) + Received(evs[1..], parse)
  }

  /** All fragments of a sequence of events, in order. */
  function Fragments(evs: seq<StreamEvent>, parse: string -> Option<string>): string
    decreases |evs|
  {
    if evs == [] then "" else Fragment(evs[0], parse) + Fragments(evs[1..], parse)
  }

  lemma HasCloseTail(evs: seq<StreamEvent>, parse: string -> Option<string>)
    requires evs != [] && !Closes(evs[0], parse)
    ensures HasClose(evs, parse) <==> HasClose(evs[1..], parse)
  {
  }

  /** From an open, loading state, delivering any events appends exactly the fragments
      received before the first closing event, and loading and the connection stay on
      exactly when no event closed the stream. */
  lemma {:induction false} DeliverFromOpen(v: StreamView, evs: seq<StreamEvent>, parse: string -> Option<string>)
    requires v.open && v.isLoading
    ensures Deliver(v, evs, parse).buffer == v.buffer + Received(evs, parse)
    ensures Deliver(v, evs, parse).open == !HasClose(evs, parse)
    ensures Deliver(v, evs, parse).isLoading == !HasClose(evs, parse)
    decreases |evs|
  {
    if evs == [] {
      assert v.buffer + "" == v.buffer;
    } else {
      StepEffect(v, evs[0], parse);
      var w := Step(v, evs[0], parse);
      if Closes(evs[0], parse) {
        assert Deliver(v, evs, parse) == w;
        assert v.buffer + "" == v.buffer;
        assert HasClose(evs, parse);
      } else {
        DeliverFromOpen(w, evs[1..], parse);
        HasCloseTail(evs, parse);
        assert v.buffer + Fragment(evs[0], parse) + Received(evs[1..], parse)
            == v.buffer + (Fragment(evs[0], parse) + Received(evs[1..], parse));
      }
    }
  }

  /** The stream as a whole: after `streamChatGPT` and any events, the buffer is the
      in-order concatenation of the non-empty contents received before the stream closed,
      and loading is on exactly while no closing event has arrived. */
  lemma StreamOutcome(evs: seq<StreamEvent>, parse: string -> Option<string>)
    ensures Deliver(Streaming, evs, parse).buffer == Received(evs, parse)
    ensures Deliver(Streaming, evs, parse).isLoading == !HasClose(evs, parse)
    ensures Deliver(Streaming, evs, parse).open == Deliver(Streaming, evs, parse).isLoading
  {
    DeliverFromOpen(Streaming, evs, parse);
  }

  lemma {:induction false} ReceivedPrefix(frames: seq<StreamEvent>, rest: seq<StreamEvent>, parse: string -> Option<string>)
    requires !HasClose(frames, parse)
    ensures Received(frames + rest, parse) == Fragments(frames, parse) + Received(rest, parse)
    decreases |frames|
  {
    if frames == [] {
      assert frames + rest == rest;
    } else {
      HasCloseTail(frames, parse);
      assert (frames + rest)[0] == frames[0];
      assert (frames + rest)[1..] == frames[1..] + rest;
      ReceivedPrefix(frames[1..], rest, parse);
    }
  }

  /** Frames f1..fn none of which closes, followed by `[DONE]`: the final buffer is the
      concatenation of their non-empty contents, loading is off and the connection closed. */
  lemma FramesThenDone(frames: seq<StreamEvent>, parse: string -> Option<string>)
    requires !HasClose(frames, parse)
    ensures Deliver(Streaming, frames + [Message(Some(DoneMarker))], parse)
         == StreamView(Fragments(frames, parse), false, false)
  {
    var evs := frames + [Message(Some(DoneMarker))];
    StreamOutcome(evs, parse);
    ReceivedPrefix(frames, [Message(Some(DoneMarker))], parse);
    assert Fragments(frames, parse) + "" == Fragments(frames, parse);
    assert evs[|frames|] == Message(Some(DoneMarker));
    assert Closes(evs[|frames|], parse);
  }

  /** `cleanup` is idempotent. */
  lemma CleanupIdempotent(v: StreamView)
    ensures CleanupView(CleanupView(v)) == CleanupView(v)
  {
  }

  // ---------------------------------------------------------------------------
  // The hook

  /** The hook's state: `partialResponse` and `isLoading` are its two state variables,
      `open` records whether the variable `es` holds a live connection. */
  class ChatStreamHook {
    var partialResponse: string
    var isLoading: bool
    var open: bool

    function View(): StreamView
      reads this
    {
      StreamView(partialResponse, isLoading, open)
    }

    /** Loading exactly while a connection is held. */
    ghost predicate Valid()
      reads this
    {
      isLoading == open
    }

    constructor ()
      ensures View() == Idle && Valid()
    {
      partialResponse := "";
      isLoading := false;
      open := false;
    }

    /** `streamChatGPT(prompt, imageBase64)`: loading on and buffer reset before any frame,
        then the request is built (text part, optional image part pushed after it) and
        the connection opened. Returns the request handed to the event source. */
    method StreamChatGPT(prompt: string, imageBase64: Option<string>) returns (request: SseRequest)
      modifies this
      ensures View() == Streaming && Valid()
      ensures request == SseRequest(ChatEndpoint, "POST", "application/json",
                                    BuildRequestBody(prompt, imageBase64), false)
    {
      isLoading := true;
      partialResponse := "";
      var contentArray := [TextPart(prompt)];
      if Truthy(imageBase64) {
        contentArray := contentArray + [ImageUrlPart(ImageDataPrefix + imageBase64.value, ImageDetail)];
      }
      assert contentArray == ContentParts(prompt, imageBase64);
      var bodyPayload := RequestBody(ModelName, [ChatMessage("user", contentArray)], true);
      request := SseRequest(ChatEndpoint, "POST", "application/json", bodyPayload, false);
      open := true;
    }

    /** The `open` listener only logs. */
    method OnOpen()
      ensures View() == Step(old(View()), Opened, (s: string) => None)
    {
    }

    /** The `message` listener. */
    method OnMessage(data: Option<string>, parse: string -> Option<string>)
      requires Valid()
      modifies this
      ensures Valid()
      ensures View() == Step(old(View()), Message(data), parse)
      ensures data == Some(DoneMarker) ==>
                partialResponse == old(partialResponse) && !isLoading && !open
      ensures ClassifyFrame(data, parse).Append? ==>
                partialResponse == old(partialResponse) + ClassifyFrame(data, parse).content
                && isLoading == old(isLoading) && open == old(open)
      ensures ClassifyFrame(data, parse) == Skip ==> View() == old(View())
    {
      if data == Some(DoneMarker) {
        Cleanup();
        return;
      }
      var parsed := parse(data.GetOr(""));
      match parsed {
        case None =>
          // a parse error is logged and the frame skipped
        case Some(content) =>
          if content != "" {
            partialResponse := partialResponse + content;
          }
      }
    }

    /** The `end` listener is `cleanup` itself. */
    method OnEnd()
      modifies this
      ensures Valid()
      ensures View() == Step(old(View()), End, (s: string) => None)
      ensures partialResponse == old(partialResponse) && !isLoading && !open
    {
      Cleanup();
    }

    /** The `error` listener logs by kind, then calls `cleanup`. */
    method OnError(kind: ErrorKind)
      modifies this
      ensures Valid()
      ensures View() == Step(old(View()), Error(kind), (s: string) => None)
      ensures partialResponse == old(partialResponse) && !isLoading && !open
    {
      Cleanup();
    }

    /** `cleanup`: loading off; an open connection is closed and dropped. */
    method Cleanup()
      modifies this
      ensures Valid()
      ensures View() == CleanupView(old(View()))
    {
      isLoading := false;
      if open {
        open := false;
      }
    }
  }
}
