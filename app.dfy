/**
 * The `App` component: its transcript of user and assistant turns, its text
 * draft with the guarded submit, and the connection flag derived from the
 * voice collaborator's status.
 */
module VoiceChat {
  import opened Wrappers
  import opened StringTrim
  import opened MessageText

  datatype Role = User | Assistant

  /** One transcript line; the creation time the component also stores is not modelled. */
  datatype ChatItem = ChatItem(role: Role, text: string)

  /** A change of one of the collaborator's most-recent-message slots. */
  datatype Notification = UserMessage(msg: Value) | VoiceMessage(msg: Value)

  function RoleOf(n: Notification): (role: Role) {
    match n
    case UserMessage(_) => User
    case VoiceMessage(_) => Assistant
  }

  /** The entry a truthy notification contributes. */
  function Entry(n: Notification, stringify: Value -> Option<string>): (item: ChatItem) {
    ChatItem(RoleOf(n), ExtractText(n.msg, stringify))
  }

  /**
   * The transcript a sequence of notifications produces, in arrival order: one
   * entry per truthy notification, none for a falsy one.
   */
  function Transcript(ns: seq<Notification>, stringify: Value -> Option<string>): (t: seq<ChatItem>)
    ensures |t| <= |ns|
  {
    if ns == [] then []
    else
      var last := ns[|ns| - 1];
      Transcript(ns[..|ns| - 1], stringify) + if Truthy(last.msg) then [Entry(last, stringify)] else []
  }

  /** The truthy messages of one stream, in arrival order. */
  function Stream(ns: seq<Notification>, role: Role): (msgs: seq<Value>) {
    if ns == [] then []
    else
      var last := ns[|ns| - 1];
      Stream(ns[..|ns| - 1], role) + if RoleOf(last) == role && Truthy(last.msg) then [last.msg] else []
  }

  /** The texts of the transcript entries with a given role, in order. */
  function TextsOf(t: seq<ChatItem>, role: Role): (texts: seq<string>) {
    if t == [] then []
    else TextsOf(t[..|t| - 1], role) + if t[|t| - 1].role == role then [t[|t| - 1].text] else []
  }

  /** The display text of each message, in order. */
  function ExtractAll(vs: seq<Value>, stringify: Value -> Option<string>): (texts: seq<string>) {
    seq(|vs|, i requires 0 <= i < |vs| => ExtractText(vs[i], stringify))
  }

  /** Notifications that arrive later only add entries after the existing ones. */
  lemma {:induction false} TranscriptAppend(a: seq<Notification>, b: seq<Notification>, stringify: Value -> Option<string>)
    ensures Transcript(a + b, stringify) == Transcript(a, stringify) + Transcript(b, stringify)
    decreases |b|
  {
    if b == [] {
      assert a + b == a;
    } else {
      var front, last := b[..|b| - 1], b[|b| - 1];
      assert (a + b)[..|a + b| - 1] == a + front;
      assert (a + b)[|a + b| - 1] == last;
      TranscriptAppend(a, front, stringify);
    }
  }

  lemma {:induction false} TextsOfAppend(s: seq<ChatItem>, t: seq<ChatItem>, role: Role)
    ensures TextsOf(s + t, role) == TextsOf(s, role) + TextsOf(t, role)
    decreases |t|
  {
    if t == [] {
      assert s + t == s;
    } else {
      assert (s + t)[..|s + t| - 1] == s + t[..|t| - 1];
      TextsOfAppend(s, t[..|t| - 1], role);
    }
  }

  lemma ExtractAllAppend(vs: seq<Value>, ws: seq<Value>, stringify: Value -> Option<string>)
    ensures ExtractAll(vs + ws, stringify) == ExtractAll(vs, stringify) + ExtractAll(ws, stringify)
  {
  }

  /**
   * The two streams are observed independently: the entries tagged with a role
   * are exactly the normalised truthy messages of that role's stream, in the
   * order they arrived, however the two streams interleave.
   */
  lemma {:induction false} StreamsIndependent(ns: seq<Notification>, role: Role, stringify: Value -> Option<string>)
    ensures TextsOf(Transcript(ns, stringify), role) == ExtractAll(Stream(ns, role), stringify)
  {
    if ns != [] {
      var front, last := ns[..|ns| - 1], ns[|ns| - 1];
      var tail := if Truthy(last.msg) then [Entry(last, stringify)] else [];
      var tailMsgs := if RoleOf(last) == role && Truthy(last.msg) then [last.msg] else [];
      assert TextsOf(tail, role) == ExtractAll(tailMsgs, stringify) by {
        if tail != [] { assert tail[..0] == []; }
      }
      calc {
        TextsOf(Transcript(ns, stringify), role);
        TextsOf(Transcript(front, stringify) + tail, role);
        { TextsOfAppend(Transcript(front, stringify), tail, role); }
        TextsOf(Transcript(front, stringify), role) + TextsOf(tail, role);
        { StreamsIndependent(front, role, stringify); }
        ExtractAll(Stream(front, role), stringify) + ExtractAll(tailMsgs, stringify);
        { ExtractAllAppend(Stream(front, role), tailMsgs, stringify); }
        ExtractAll(Stream(ns, role), stringify);
      }
    }
  }

  /** Every entry stands for exactly one truthy notification of one of the two streams. */
  lemma {:induction false} TranscriptLength(ns: seq<Notification>, stringify: Value -> Option<string>)
    ensures |Transcript(ns, stringify)| == |Stream(ns, User)| + |Stream(ns, Assistant)|
  {
    if ns != [] {
      TranscriptLength(ns[..|ns| - 1], stringify);
    }
  }

  /** How a call to the collaborator's `connect` ends. */
  datatype ConnectOutcome = Opened | Rejected(error: string)

  /**
   * State of one mounted `App`. `status` is the collaborator's status value as last
   * rendered; `sent` logs the calls to its `sendUserInput`; `received` is the
   * history of message notifications the two effects have seen.
   */
  class App {
    const stringify: Value -> Option<string>
    var status: string
    var draft: string
    var chat: seq<ChatItem>
    var sent: seq<string>
    ghost var received: seq<Notification>

    /** The transcript is the one the notifications produce; every sent text is trimmed and non-blank. */
    ghost predicate Valid()
      reads this
    {
      chat == Transcript(received, stringify) &&
      forall i | 0 <= i < |sent| :: HasContent(sent[i]) && IsTrimmed(sent[i])
    }

    /** Mounting: empty transcript, empty draft, nothing sent yet. */
    constructor (stringify: Value -> Option<string>, status: string)
      ensures Valid()
      ensures this.stringify == stringify && this.status == status
      ensures chat == [] && draft == "" && sent == [] && received == []
    {
      this.stringify := stringify;
      this.status := status;
      draft, chat, sent, received := "", [], [], [];
    }

    /** `status.value === 'connected'`, re-derived from the current status on every read. */
    predicate IsConnected()
      reads this
    {
      status == "connected"
    }

    /** Connected, and the draft has a character that trimming keeps. */
    function CanSend(): (b: bool)
      reads this
      ensures b <==> status == "connected" && exists i | 0 <= i < |draft| :: !IsWhitespace(draft[i])
    {
      IsConnected() && |Trim(draft)| > 0
    }

    /** The collaborator reports a new status. */
    method StatusChanged(value: string)
      requires Valid()
      modifies this`status
      ensures Valid()
      ensures status == value
    {
      status := value;
    }

    /** The input's change handler: the draft becomes the field's text verbatim. */
    method OnInputChange(text: string)
      requires Valid()
      modifies this`draft
      ensures Valid()
      ensures draft == text
    {
      draft := text;
    }

    /**
     * `handleSend`: a blank draft is left alone and nothing is sent; otherwise the
     * trimmed draft is sent once and the draft is cleared.
     */
    method HandleSend()
      requires Valid()
      modifies this`draft, this`sent
      ensures Valid()
      ensures var text := Trim(old(draft));
        if text == "" then draft == old(draft) && sent == old(sent)
        else draft == "" && sent == old(sent) + [text]
    {
      var text := Trim(draft);
      if text == "" {
        return;
      }
      assert HasContent(text) && IsTrimmed(text) by {
        assert !IsWhitespace(text[0]);
      }
      sent := sent + [text];
      draft := "";
    }

    /** The input's key handler: Enter submits, but only while `CanSend` holds. */
    method OnKeyDown(key: string)
      requires Valid()
      modifies this`draft, this`sent
      ensures Valid()
      ensures if key == "Enter" && old(CanSend()) then draft == "" && sent == old(sent) + [Trim(old(draft))]
        else draft == old(draft) && sent == old(sent)
    {
      if key == "Enter" && CanSend() {
        HandleSend();
      }
    }

    /** The effect on `lastUserMessage`: a truthy message adds one user entry at the end. */
    method OnUserMessage(msg: Value)
      requires Valid()
      modifies this`chat, this`received
      ensures Valid()
      ensures received == old(received) + [UserMessage(msg)]
      ensures chat == if Truthy(msg) then old(chat) + [ChatItem(User, ExtractText(msg, stringify))] else old(chat)
    {
      Receive(UserMessage(msg));
    }

    /** The effect on `lastVoiceMessage`: a truthy message adds one assistant entry at the end. */
    method OnVoiceMessage(msg: Value)
      requires Valid()
      modifies this`chat, this`received
      ensures Valid()
      ensures received == old(received) + [VoiceMessage(msg)]
      ensures chat == if Truthy(msg) then old(chat) + [ChatItem(Assistant, ExtractText(msg, stringify))] else old(chat)
    {
      Receive(VoiceMessage(msg));
    }

    method Receive(n: Notification)
      requires Valid()
      modifies this`chat, this`received
      ensures Valid()
      ensures received == old(received) + [n]
      ensures chat == if Truthy(n.msg) then old(chat) + [Entry(n, stringify)] else old(chat)
    {
      if Truthy(n.msg) {
        chat := chat + [Entry(n, stringify)];
      }
      received := received + [n];
      assert received[..|received| - 1] == old(received);
    }

    /**
     * `handleConnect`: the request goes to the collaborator; a rejection is caught
     * and reported, never raised. No field of the component changes either way.
     */
    method HandleConnect(outcome: ConnectOutcome) returns (reported: Option<string>)
      ensures reported.Some? <==> outcome.Rejected?
      ensures outcome.Rejected? ==> reported == Some(outcome.error)
    {
      match outcome
      case Opened =>
        reported := None;
      case Rejected(error) =>
        reported := Some(error);
    }
  }

  /** Connected, a padded draft is sent trimmed on Enter and the draft is cleared. */
  method SubmitPadded(stringify: Value -> Option<string>) returns (sent: seq<string>, draft: string)
    ensures sent == ["hello"] && draft == ""
  {
    var app := new App(stringify, "connected");
    app.OnInputChange("  hello  ");
    assert !IsWhitespace(app.draft[2]);
    assert app.CanSend();
    TrimPaddedWord();
    app.OnKeyDown("Enter");
    sent, draft := app.sent, app.draft;
  }

  /** A blank draft is not sent, neither by Enter nor by calling the submit handler. */
  method SubmitBlank(stringify: Value -> Option<string>) returns (sent: seq<string>, draft: string)
    ensures sent == [] && draft == "   "
  {
    var app := new App(stringify, "connected");
    app.OnInputChange("   ");
    TrimBlankAndInner();
    app.OnKeyDown("Enter");
    app.HandleSend();
    sent, draft := app.sent, app.draft;
  }

  /** Once disconnected, Enter sends nothing, though the draft is not blank. */
  method SubmitDisconnected(stringify: Value -> Option<string>) returns (sent: seq<string>, draft: string)
    ensures sent == [] && draft == "a b"
  {
    var app := new App(stringify, "connected");
    app.OnInputChange("a b");
    app.StatusChanged("disconnected");
    app.OnKeyDown("Enter");
    sent, draft := app.sent, app.draft;
  }
}
