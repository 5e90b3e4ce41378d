/**
 * The browser chat widget (static/script.js): the transcript it keeps, the messages it
 * renders, the typing indicator, the input field and the crisis-resources panel.
 *
 * Each network call is replaced by its outcome, given as a parameter. The functions below
 * say what the widget's state becomes; the class `ChatWidget` does the same updates step by
 * step on its fields and is proved to agree with them.
 */
module Widget {
  import opened Text
  import opened Transcript

  /** Who a rendered message is from; it becomes the CSS class `user-message` or `bot-message`. */
  datatype Sender = User | Bot

  /** One element of the message list. */
  datatype Message = Message(text: string, sender: Sender)

  /** The fields of a JSON reply the widget reads; an absent field is `None`. */
  datatype Payload = Payload(response: Option<string>, error: Option<string>, resources: Option<string>)

  /**
   * What a call to the backend yields: a parsed reply, or a failure of `fetch` or of
   * `response.json()`, which lands in the `catch` block.
   */
  datatype Outcome = Delivered(data: Payload) | TransportFailure

  /**
   * JavaScript truthiness of a field that is absent or a string: the only falsy values are
   * `undefined` and the empty string.
   */
  function Truthy(f: Option<string>): (b: bool)
    ensures !b <==> f == None || f == Some("")
  {
    f.Some? && f.value != ""
  }

  // The longer messages are concatenations of short literals, which the verifier reads faster.
  const InitTrouble: string := "I'm having trouble connecting right now. " + "Please try again later."
  const InitFailure: string :=
    "Sorry, I'm experiencing technical difficulties. " + "Please refresh the page and try again."
  const SendTrouble: string := "I'm having trouble processing your request. " + "Please try again."
  const SendFailure: string :=
    "Sorry, I'm experiencing connection issues. " + "Please check your internet and try again."
  const ResourcesFailure: string := "Unable to load resources at this time."
  const ShowLabel: string := "Show Crisis Resources"
  const HideLabel: string := "Hide Resources"

  /** The country the resources request always asks for. */
  const ResourcesCountry: string := "Singapore"

  /**
   * The widget's observable state: `chatHistory`, the children of the message list, whether
   * the typing indicator is displayed, the input's value, whether the resources panel is
   * displayed (`display === 'block'`), the panel's `innerHTML` and the button's label.
   */
  datatype View = View(
    transcript: seq<Turn>,
    messages: seq<Message>,
    typing: bool,
    input: string,
    panelShown: bool,
    panelContent: string,
    buttonLabel: string)

  /** The state when the page has loaded, with the panel's content and button label the page starts with. */
  function Initial(buttonLabel: string, content: string): (v: View)
    ensures v.transcript == [] && v.messages == [] && !v.typing && v.input == ""
    ensures !v.panelShown && v.panelContent == content && v.buttonLabel == buttonLabel
  {
    View([], [], false, "", false, content, buttonLabel)
  }

  /** The panel and the button are as they were. */
  predicate SamePanel(v: View, w: View)
  {
    w.panelShown == v.panelShown && w.panelContent == v.panelContent && w.buttonLabel == v.buttonLabel
  }

  /** The transcript, messages, indicator and input are as they were. */
  predicate SameChat(v: View, w: View)
  {
    w.transcript == v.transcript && w.messages == v.messages && w.typing == v.typing && w.input == v.input
  }

  /**
   * What `initChat` and `sendMessage` do once the call has returned: hide the indicator,
   * then render and record a truthy `response`; otherwise render `trouble` for a truthy
   * `error` and nothing for neither field; render `failure` when the call threw. Only the
   * successful reply becomes a turn, and the error text never reaches the screen.
   */
  function Settle(v: View, o: Outcome, trouble: string, failure: string): (w: View)
    ensures !w.typing && w.input == v.input && SamePanel(v, w)
    ensures v.transcript <= w.transcript && v.messages <= w.messages
    ensures ClientRoles(v.transcript) ==> ClientRoles(w.transcript)
    ensures o.Delivered? && Truthy(o.data.response) ==>
      var text := o.data.response.value;
      w.transcript == v.transcript + [Turn(AssistantRole, text)]
      && w.messages == v.messages + [Message(text, Bot)]
    ensures o.Delivered? && !Truthy(o.data.response) && Truthy(o.data.error) ==>
      w.transcript == v.transcript && w.messages == v.messages + [Message(trouble, Bot)]
    ensures o.Delivered? && !Truthy(o.data.response) && !Truthy(o.data.error) ==>
      w.transcript == v.transcript && w.messages == v.messages
    ensures o.TransportFailure? ==>
      w.transcript == v.transcript && w.messages == v.messages + [Message(failure, Bot)]
  {
    match o
    case TransportFailure =>
      v.(typing := false, messages := v.messages + [Message(failure, Bot)])
    case Delivered(d) =>
      if Truthy(d.response) then
        v.(typing := false,
           messages := v.messages + [Message(d.response.value, Bot)],
           transcript := v.transcript + [Turn(AssistantRole, d.response.value)])
      else if Truthy(d.error) then
        v.(typing := false, messages := v.messages + [Message(trouble, Bot)])
      else
        v.(typing := false)
  }

  /**
   * `initChat`: show the indicator, ask for the greeting, then settle with the init-time
   * fallback strings. At most one turn is added, an assistant turn, and only on success;
   * the indicator ends hidden.
   */
  function AfterInit(v: View, o: Outcome): (w: View)
    ensures !w.typing && w.input == v.input && SamePanel(v, w)
    ensures v.messages <= w.messages
    ensures w.transcript == v.transcript
      + (if o.Delivered? && Truthy(o.data.response) then [Turn(AssistantRole, o.data.response.value)] else [])
    ensures o.Delivered? && Truthy(o.data.response) ==>
      w.messages == v.messages + [Message(o.data.response.value, Bot)]
    ensures o.Delivered? && !Truthy(o.data.response) && Truthy(o.data.error) ==>
      w.messages == v.messages + [Message(InitTrouble, Bot)]
    ensures o.Delivered? && !Truthy(o.data.response) && !Truthy(o.data.error) ==>
      w.messages == v.messages
    ensures o.TransportFailure? ==> w.messages == v.messages + [Message(InitFailure, Bot)]
  {
    Settle(v.(typing := true), o, InitTrouble, InitFailure)
  }

  /**
   * The trimmed input `sendMessage` would send: a piece of the input with no white space at
   * either end, and empty exactly when the input is all white space.
   */
  function Pending(v: View): (m: string)
    ensures m != [] ==> m[0] !in JavaScriptWhitespace && m[|m| - 1] !in JavaScriptWhitespace
    ensures m == [] <==> forall i :: 0 <= i < |v.input| ==> v.input[i] in JavaScriptWhitespace
    ensures var k := LeadingEnd(v.input, JavaScriptWhitespace, 0);
      k + |m| <= |v.input| && m == v.input[k..k + |m|]
      && (forall i :: 0 <= i < k ==> v.input[i] in JavaScriptWhitespace)
      && (forall i :: k + |m| <= i < |v.input| ==> v.input[i] in JavaScriptWhitespace)
  {
    Strip(v.input, JavaScriptWhitespace)
  }

  /**
   * The part of `sendMessage` before the request: render the trimmed input as a user
   * message, record it as a user turn, clear the input and show the indicator.
   */
  function Submit(v: View): (u: View)
    requires Pending(v) != ""
    ensures u.transcript == v.transcript + [Turn(UserRole, Pending(v))]
    ensures u.messages == v.messages + [Message(Pending(v), User)]
    ensures u.input == "" && u.typing && SamePanel(v, u)
    ensures ClientRoles(v.transcript) ==> ClientRoles(u.transcript)
  {
    var message := Pending(v);
    v.(messages := v.messages + [Message(message, User)],
       transcript := v.transcript + [Turn(UserRole, message)],
       input := "",
       typing := true)
  }

  /**
   * The `chat_history` that `sendMessage` posts: nothing for blank input, otherwise the
   * whole transcript including the turn just added.
   */
  function Request(v: View): (r: Option<seq<Turn>>)
    ensures r.None? <==> Pending(v) == ""
    ensures r.Some? ==> r.value == v.transcript + [Turn(UserRole, Pending(v))]
  {
    if Pending(v) == "" then None else Some(Submit(v).transcript)
  }

  /**
   * `sendMessage`: blank input (after trimming) changes nothing. Otherwise the user turn
   * and message come first, the input is cleared and the indicator ends hidden; a truthy
   * `response` adds exactly one bot message and one assistant turn, an error reply or a
   * failed call adds only its fixed message.
   */
  function AfterSend(v: View, o: Outcome): (w: View)
    ensures Pending(v) == "" ==> w == v
    ensures Pending(v) != "" ==> w.input == "" && !w.typing && SamePanel(v, w)
    ensures v.transcript <= w.transcript && v.messages <= w.messages
    ensures ClientRoles(v.transcript) ==> ClientRoles(w.transcript)
    ensures Pending(v) != "" && o.Delivered? && Truthy(o.data.response) ==>
      var text := o.data.response.value;
      w.transcript == v.transcript + [Turn(UserRole, Pending(v)), Turn(AssistantRole, text)]
      && w.messages == v.messages + [Message(Pending(v), User), Message(text, Bot)]
    ensures Pending(v) != "" && o.Delivered? && !Truthy(o.data.response) && Truthy(o.data.error) ==>
      w.transcript == v.transcript + [Turn(UserRole, Pending(v))]
      && w.messages == v.messages + [Message(Pending(v), User), Message(SendTrouble, Bot)]
    ensures Pending(v) != "" && o.Delivered? && !Truthy(o.data.response) && !Truthy(o.data.error) ==>
      w.transcript == v.transcript + [Turn(UserRole, Pending(v))]
      && w.messages == v.messages + [Message(Pending(v), User)]
    ensures Pending(v) != "" && o.TransportFailure? ==>
      w.transcript == v.transcript + [Turn(UserRole, Pending(v))]
      && w.messages == v.messages + [Message(Pending(v), User), Message(SendFailure, Bot)]
  {
    if Pending(v) == "" then v
    else
      var u := Submit(v);
      var w := Settle(u, o, SendTrouble, SendFailure);
      PrefixTransitive(v.transcript, u.transcript, w.transcript);
      PrefixTransitive(v.messages, u.messages, w.messages);
      w
  }

  /** Being a prefix is transitive. */
  lemma PrefixTransitive<T>(a: seq<T>, b: seq<T>, c: seq<T>)
    requires a <= b && b <= c
    ensures a <= c
  {
    assert c[..|a|] == b[..|a|];
  }

  /** The key guard: Enter without Shift sends. */
  predicate SendsOnKey(key: string, shift: bool)
  {
    key == "Enter" && !shift
  }

  /**
   * The keypress listener: Enter without Shift sends; for any other key the listener leaves
   * the state alone. The browser's default action still types that key into the input, which
   * the model represents as the separate `Edited` event.
   */
  function AfterKey(v: View, key: string, shift: bool, o: Outcome): (w: View)
    ensures !SendsOnKey(key, shift) ==> w == v
    ensures SendsOnKey(key, shift) ==> w == AfterSend(v, o)
  {
    if SendsOnKey(key, shift) then AfterSend(v, o) else v
  }

  /** The country `loadResources` asks for: none when the panel is displayed, since it only hides it. */
  function ResourcesRequest(v: View): (c: Option<string>)
    ensures c.None? <==> v.panelShown
    ensures c.Some? ==> c.value == ResourcesCountry
  {
    if v.panelShown then None else Some(ResourcesCountry)
  }

  /**
   * `loadResources`, a two-state toggle. A displayed panel is hidden and the button reads
   * "Show Crisis Resources". A hidden panel is filled from the reply with every line feed
   * turned into `<br>`, displayed, and the button reads "Hide Resources"; a missing or empty
   * `resources` field changes nothing; a failed call displays the fixed failure text and
   * leaves the button's label as it was. The chat is never touched.
   */
  function AfterToggle(v: View, o: Outcome): (w: View)
    ensures SameChat(v, w)
    ensures v.panelShown ==>
      !w.panelShown && w.buttonLabel == ShowLabel && w.panelContent == v.panelContent
    ensures !v.panelShown && o.Delivered? && Truthy(o.data.resources) ==>
      w.panelShown && w.buttonLabel == HideLabel
      && w.panelContent == ReplaceNewlines(o.data.resources.value) && Lacks(w.panelContent, '\n')
    ensures !v.panelShown && o.Delivered? && !Truthy(o.data.resources) ==> w == v
    ensures !v.panelShown && o.TransportFailure? ==>
      w.panelShown && w.panelContent == ResourcesFailure && w.buttonLabel == v.buttonLabel
  {
    if v.panelShown then v.(panelShown := false, buttonLabel := ShowLabel)
    else
      match o
      case Delivered(d) =>
        if Truthy(d.resources) then
          v.(panelContent := ReplaceNewlines(d.resources.value), panelShown := true, buttonLabel := HideLabel)
        else v
      case TransportFailure =>
        v.(panelContent := ResourcesFailure, panelShown := true)
  }

  // ---- sessions: sequences of events ----

  /**
   * What can happen to the widget: the page finishes loading (`initChat`), the send button
   * is clicked, a key is pressed in the input, the resources button is clicked, or the user
   * edits the input field.
   */
  datatype Event =
    | Loaded(o: Outcome)
    | SendClicked(o: Outcome)
    | KeyPressed(key: string, shift: bool, o: Outcome)
    | ResourcesClicked(o: Outcome)
    | Edited(text: string)

  /**
   * One event. Every event keeps the transcript and the message list as prefixes of what
   * they become, and adds turns only with the roles "user" and "assistant".
   */
  function Step(v: View, e: Event): (w: View)
    ensures v.transcript <= w.transcript && v.messages <= w.messages
    ensures ClientRoles(v.transcript) ==> ClientRoles(w.transcript)
  {
    match e
    case Loaded(o) => AfterInit(v, o)
    case SendClicked(o) => AfterSend(v, o)
    case KeyPressed(key, shift, o) => AfterKey(v, key, shift, o)
    case ResourcesClicked(o) => AfterToggle(v, o)
    case Edited(text) => v.(input := text)
  }

  /** The state after the events `es`, in order: no events change nothing, and the last event acts last. */
  function Run(v: View, es: seq<Event>): (w: View)
    ensures es == [] ==> w == v
    ensures es != [] ==> w == Step(Run(v, es[..|es| - 1]), es[|es| - 1])
    decreases |es|
  {
    if es == [] then v
    else
      var w := Run(Step(v, es[0]), es[1..]);
      assert es[..|es| - 1] == [] ==> es[1..] == [];
      assert es[..|es| - 1] != [] ==>
        es[..|es| - 1][0] == es[0] && es[..|es| - 1][1..] == es[1..][..|es[1..]| - 1]
        && es[1..][|es[1..]| - 1] == es[|es| - 1];
      w
  }

  /** Over any session the transcript and the message list are only ever appended to. */
  lemma {:induction false} RunAppendOnly(v: View, es: seq<Event>)
    ensures v.transcript <= Run(v, es).transcript
    ensures v.messages <= Run(v, es).messages
    decreases |es|
  {
    if es != [] {
      RunAppendOnly(Step(v, es[0]), es[1..]);
    }
  }

  /** Over any session every turn keeps one of the two roles the widget writes. */
  lemma {:induction false} RunKeepsClientRoles(v: View, es: seq<Event>)
    requires ClientRoles(v.transcript)
    ensures ClientRoles(Run(v, es).transcript)
    decreases |es|
  {
    if es != [] {
      RunKeepsClientRoles(Step(v, es[0]), es[1..]);
    }
  }

  /** Whether the button's label tells what a click will do. */
  predicate LabelAgrees(v: View)
  {
    (v.panelShown && v.buttonLabel == HideLabel) || (!v.panelShown && v.buttonLabel == ShowLabel)
  }

  /**
   * Hiding the panel and loading it successfully keep the label in step with the panel, and
   * so does a reply without resources.
   */
  lemma ToggleKeepsLabelAgreement(v: View, o: Outcome)
    requires LabelAgrees(v)
    requires v.panelShown || o.Delivered?
    ensures LabelAgrees(AfterToggle(v, o))
  {
  }

  /**
   * A failed load displays the panel while the label still offers to show it, so the next
   * click hides the panel although the button reads "Show Crisis Resources".
   */
  lemma FailedLoadKeepsShowLabel(content: string)
    ensures var w := AfterToggle(Initial(ShowLabel, content), TransportFailure);
      w.panelShown && w.buttonLabel == ShowLabel && !LabelAgrees(w)
      && !AfterToggle(w, TransportFailure).panelShown
  {
  }

  /** Two clicks starting from a hidden panel with a successful load end hidden again. */
  lemma ToggleTwice(v: View, o: Outcome, o': Outcome)
    requires !v.panelShown && o.Delivered? && Truthy(o.data.resources)
    ensures var w := AfterToggle(AfterToggle(v, o), o');
      !w.panelShown && w.buttonLabel == ShowLabel
      && w.panelContent == ReplaceNewlines(o.data.resources.value)
  {
  }

  // ---- the widget object ----

  /** The widget itself: the closure's `chatHistory` and the DOM elements it updates. */
  class ChatWidget {
    var transcript: seq<Turn>
    var messages: seq<Message>
    var typing: bool
    var input: string
    var panelShown: bool
    var panelContent: string
    var buttonLabel: string

    function State(): View
      reads this
    {
      View(transcript, messages, typing, input, panelShown, panelContent, buttonLabel)
    }

    /** The widget as the page's script finds it, before `initChat` runs. */
    constructor (initialLabel: string, initialContent: string)
      ensures State() == Initial(initialLabel, initialContent)
    {
      transcript := [];
      messages := [];
      typing := false;
      input := "";
      panelShown := false;
      panelContent := initialContent;
      buttonLabel := initialLabel;
    }

    /** `addMessage`: appends one message to the list and changes nothing else. */
    method AddMessage(text: string, sender: Sender)
      modifies this
      ensures State() == old(State()).(messages := old(messages) + [Message(text, sender)])
    {
      messages := messages + [Message(text, sender)];
    }

    /** `showTyping`. */
    method ShowTyping()
      modifies this
      ensures State() == old(State()).(typing := true)
    {
      typing := true;
    }

    /** `hideTyping`. */
    method HideTyping()
      modifies this
      ensures State() == old(State()).(typing := false)
    {
      typing := false;
    }

    /** The body of the `try` after `await`, and the `catch`, shared by both chat calls. */
    method HandleReply(o: Outcome, trouble: string, failure: string)
      modifies this
      ensures State() == Settle(old(State()), o, trouble, failure)
    {
      match o {
        case Delivered(d) =>
          HideTyping();
          if Truthy(d.response) {
            AddMessage(d.response.value, Bot);
            transcript := transcript + [Turn(AssistantRole, d.response.value)];
          } else if Truthy(d.error) {
            AddMessage(trouble, Bot);
          }
        case TransportFailure =>
          HideTyping();
          AddMessage(failure, Bot);
      }
    }

    /** `initChat`, with `o` the outcome of `POST /api/start`. */
    method InitChat(o: Outcome)
      modifies this
      ensures State() == AfterInit(old(State()), o)
    {
      ShowTyping();
      HandleReply(o, InitTrouble, InitFailure);
    }

    /**
     * `sendMessage`, with `o` the outcome of `POST /api/chat`; `request` is the
     * `chat_history` it posts, `None` when it posts nothing.
     */
    method SendMessage(o: Outcome) returns (request: Option<seq<Turn>>)
      modifies this
      ensures request == Request(old(State()))
      ensures State() == AfterSend(old(State()), o)
    {
      var message := Strip(input, JavaScriptWhitespace);
      if message == "" {
        return None;
      }
      AddMessage(message, User);
      transcript := transcript + [Turn(UserRole, message)];
      input := "";
      ShowTyping();
      request := Some(transcript);
      HandleReply(o, SendTrouble, SendFailure);
    }

    /**
     * The keypress listener on the input; `prevented` tells whether the default action
     * was suppressed, which happens exactly when the message is sent.
     */
    method KeyPress(key: string, shift: bool, o: Outcome) returns (prevented: bool, request: Option<seq<Turn>>)
      modifies this
      ensures prevented == SendsOnKey(key, shift)
      ensures request == if prevented then Request(old(State())) else None
      ensures State() == AfterKey(old(State()), key, shift, o)
    {
      prevented := false;
      request := None;
      if key == "Enter" && !shift {
        prevented := true;
        request := SendMessage(o);
      }
    }

    /**
     * `loadResources`, with `o` the outcome of `GET /api/resources`; `country` is the
     * country it asks for, `None` when it makes no request.
     */
    method LoadResources(o: Outcome) returns (country: Option<string>)
      modifies this
      ensures country == ResourcesRequest(old(State()))
      ensures State() == AfterToggle(old(State()), o)
    {
      if panelShown {
        panelShown := false;
        buttonLabel := ShowLabel;
        return None;
      }
      country := Some(ResourcesCountry);
      match o {
        case Delivered(d) =>
          if Truthy(d.resources) {
            panelContent := ReplaceNewlines(d.resources.value);
            panelShown := true;
            buttonLabel := HideLabel;
          }
        case TransportFailure =>
          panelContent := ResourcesFailure;
          panelShown := true;
      }
    }
  }
}
