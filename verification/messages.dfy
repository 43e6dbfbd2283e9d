/**
 * The messages the relay handles: history entries (what the client sees),
 * callback envelopes (what the backend posts), forwarded envelopes (what the
 * relay posts to the backend) and frames pushed over a client's websocket.
 * JSON dictionaries are modelled as datatypes with one field per key.
 */
module Messages {
  import opened Wrappers

  /** Sender name substituted when the backend itself is speaking. */
  const DEFAULT_NAME: string := "HumanBios"
  /** Sender name of the local echo of the user's own text. */
  const LOCAL_ECHO_NAME: string := "You"
  /** The event tag of every frame pushed to a client. */
  const NEW_MESSAGE: string := "new_message"
  /** The origin-channel tag of every forwarded envelope. */
  const SERVICE_IN: string := "webchat"
  /** The text forwarded to open a conversation with an empty history. */
  const START_COMMAND: string := "/start"

  type SessionId = string

  /** An opaque handle for one live websocket connection. */
  datatype Socket = Socket(handle: nat)

  datatype Button = Button(text: string)
  datatype Attachment = Attachment(payload: string)

  /**
   * A stored history entry: sender name, text, buttons, has_file and file.
   * `event` is absent when the entry is appended and becomes
   * Some(NEW_MESSAGE) once a replay has tagged it in place.
   */
  datatype Entry = Entry(
    firstName: string,
    text: string,
    buttons: Option<seq<Button>>,
    hasFile: bool,
    file: Option<seq<Attachment>>,
    event: Option<string>)

  /** The body of a backend callback, addressed to the session `chatId`. */
  datatype Callback = Callback(
    firstName: string,
    userId: string,
    chatId: SessionId,
    text: string,
    buttons: Option<seq<Button>>,
    hasFile: bool,
    file: Option<seq<Attachment>>)

  /** A request envelope forwarded to the backend's processing endpoint. */
  datatype Envelope = Envelope(
    firstName: Option<string>,
    userId: SessionId,
    chatId: SessionId,
    serviceIn: string,
    securityToken: Option<string>,
    viaInstance: Option<string>,
    hasMessage: bool,
    text: string)

  /** What a frame carries: a stored entry (replay) or a callback body with its event tag (push). */
  datatype FrameBody = EntryFrame(entry: Entry) | CallbackFrame(data: Callback, event: string)

  /** One frame sent over the websocket `to`. */
  datatype Frame = Frame(to: Socket, body: FrameBody)

  /**
   * Display name of a backend message: the default bot name when the sender
   * is the chat itself, the sender's own name otherwise.
   */
  function ResolveName(firstName: string, userId: string, chatId: SessionId): (name: string)
    ensures userId == chatId ==> name == DEFAULT_NAME
    ensures userId != chatId ==> name == firstName
  {
    if userId != chatId then firstName else DEFAULT_NAME
  }

  /** The callback body as pushed to the client: its first_name resolved. */
  function Resolved(data: Callback): (d: Callback)
    ensures d.firstName == ResolveName(data.firstName, data.userId, data.chatId)
    ensures d.(firstName := data.firstName) == data
  {
    data.(firstName := ResolveName(data.firstName, data.userId, data.chatId))
  }

  /** The history entry recorded for a callback. */
  function RenderCallback(data: Callback): (e: Entry)
    ensures e.firstName == Resolved(data).firstName && e.text == data.text
    ensures e.buttons == data.buttons && e.hasFile == data.hasFile && e.file == data.file
    ensures e.event == None
  {
    Entry(ResolveName(data.firstName, data.userId, data.chatId), data.text,
          data.buttons, data.hasFile, data.file, None)
  }

  /** The history entry recorded for the user's own text. */
  function LocalEcho(text: string): (e: Entry)
    ensures e.firstName == LOCAL_ECHO_NAME && e.text == text
    ensures e.buttons == None && !e.hasFile && e.file == None && e.event == None
  {
    Entry(LOCAL_ECHO_NAME, text, None, false, None, None)
  }

  /** The envelope forwarded to the backend on behalf of `session`. */
  function Forward(name: Option<string>, session: SessionId, token: Option<string>,
                   instance: Option<string>, text: string): (env: Envelope)
    ensures env.userId == session && env.chatId == session
    ensures env.firstName == name && env.text == text && env.hasMessage
    ensures env.serviceIn == SERVICE_IN && env.securityToken == token && env.viaInstance == instance
  {
    Envelope(name, session, session, SERVICE_IN, token, instance, true, text)
  }

  /** One entry as a replay leaves it: tagged, and its buttons cleared unless it is the newest. */
  function ReplayEntry(e: Entry, newest: bool): (r: Entry)
  {
    e.(buttons := if newest then e.buttons else None, event := Some(NEW_MESSAGE))
  }

  /** A history as a replay leaves it, entry by entry. */
  function Replayed(q: seq<Entry>): (r: seq<Entry>)
    ensures |r| == |q|
  {
    seq(|q|, i requires 0 <= i < |q| => ReplayEntry(q[i], i == |q| - 1))
  }

  /**
   * What a replay does to a history: every entry keeps its sender, text and
   * file fields and is tagged NEW_MESSAGE; every entry but the newest loses
   * its buttons, the newest keeps them; nothing is added, removed or reordered.
   */
  lemma ReplayStripsButtons(q: seq<Entry>)
    ensures |Replayed(q)| == |q|
    ensures forall i | 0 <= i < |q| ::
      var r := Replayed(q);
      r[i].firstName == q[i].firstName && r[i].text == q[i].text &&
      r[i].hasFile == q[i].hasFile && r[i].file == q[i].file &&
      r[i].event == Some(NEW_MESSAGE)
    ensures forall i | 0 <= i < |q| - 1 :: Replayed(q)[i].buttons == None
    ensures |q| > 0 ==> Replayed(q)[|q| - 1].buttons == q[|q| - 1].buttons
  {
  }

  /** The frames that send `es`, in order, over `ws`. */
  function FramesTo(ws: Socket, es: seq<Entry>): (fs: seq<Frame>)
  {
    seq(|es|, i requires 0 <= i < |es| => Frame(ws, EntryFrame(es[i])))
  }

  /** Replaying an already replayed history changes nothing, so a second replay sends the same frames. */
  lemma ReplayIdempotent(q: seq<Entry>)
    ensures Replayed(Replayed(q)) == Replayed(q)
    ensures forall ws: Socket :: FramesTo(ws, Replayed(Replayed(q))) == FramesTo(ws, Replayed(q))
  {
    var r := Replayed(q);
    assert forall i | 0 <= i < |r| :: Replayed(r)[i] == r[i];
  }

  /** One replay step: the i-th entry of the replayed history, from the stored one. */
  lemma ReplayedAt(q: seq<Entry>, i: nat)
    requires i < |q|
    ensures Replayed(q)[i] == ReplayEntry(q[i], i == |q| - 1)
  {
  }

  /** Replaying entry i turns the history replayed up to i into the history replayed up to i + 1. */
  lemma ReplayPrefixStep(q: seq<Entry>, i: nat)
    requires i < |q|
    ensures |Replayed(q)[..i] + q[i..]| == |q|
    ensures (Replayed(q)[..i] + q[i..])[i := Replayed(q)[i]] == Replayed(q)[..i + 1] + q[i + 1..]
  {
    var r := Replayed(q);
    var a := (r[..i] + q[i..])[i := r[i]];
    var b := r[..i + 1] + q[i + 1..];
    assert |a| == |b|;
    forall k | 0 <= k < |a| ensures a[k] == b[k] {
    }
  }

  /** Sending one more entry appends one frame. */
  lemma FramesToSnoc(ws: Socket, es: seq<Entry>, e: Entry)
    ensures FramesTo(ws, es + [e]) == FramesTo(ws, es) + [Frame(ws, EntryFrame(e))]
  {
  }
}
