/**
 * What the widget does with what the server sends: the greeting of `start`, the reply of
 * `reply`, and the text of `get_crisis_resources`, each wrapped in the JSON field the
 * widget reads.
 */
module EndToEnd {
  import opened Text
  import opened Transcript
  import opened Companion
  import opened Widget

  /** A fresh page that receives the server's greeting holds exactly that one assistant turn. */
  lemma GreetingStartsTranscript(buttonLabel: string, content: string)
    ensures var w := AfterInit(Initial(buttonLabel, content), Delivered(Payload(Some(Start()), None, None)));
      w.transcript == [Turn(AssistantRole, Start())]
      && w.messages == [Message(Start(), Bot)]
      && !w.typing
  {
    var v := Initial(buttonLabel, content);
    assert Truthy(Some(Start()));
    assert v.messages + [Message(Start(), Bot)] == [Message(Start(), Bot)];
  }

  /**
   * Because `reply` never returns an empty string, every message the server answers adds
   * two turns to the transcript: the user's and then the assistant's.
   */
  lemma ServerReplyIsRecorded(v: View, generate: seq<Content> -> Option<string>)
    requires Pending(v) != ""
    ensures var answer := Reply(Request(v).value, generate);
      var w := AfterSend(v, Delivered(Payload(Some(answer), None, None)));
      w.transcript == v.transcript + [Turn(UserRole, Pending(v)), Turn(AssistantRole, answer)]
  {
    var answer := Reply(Request(v).value, generate);
    assert Truthy(Some(answer));
  }

  /**
   * Over any session of a fresh page, the history the widget posts reaches the language
   * model in order, one entry per turn, the new message last as a "user" entry, and with
   * "model" exactly where the widget wrote "assistant".
   */
  lemma PostedHistoryRoles(buttonLabel: string, content: string, es: seq<Event>)
    requires Pending(Run(Initial(buttonLabel, content), es)) != ""
    ensures var v := Run(Initial(buttonLabel, content), es);
      var cs := ToContents(Request(v).value);
      |cs| == |v.transcript| + 1
      && cs[|v.transcript|] == Content(UserRole, [Pending(v)])
      && forall i :: 0 <= i < |v.transcript| ==>
           cs[i].parts == [v.transcript[i].content]
           && (cs[i].role == ModelRole <==> v.transcript[i].role == AssistantRole)
  {
    var v := Run(Initial(buttonLabel, content), es);
    RunKeepsClientRoles(Initial(buttonLabel, content), es);
    var h := Request(v).value;
    var cs := ToContents(h);
    assert h == v.transcript + [Turn(UserRole, Pending(v))];
    ToContentsAppend(v.transcript, [Turn(UserRole, Pending(v))]);
    assert h[|v.transcript|] == Turn(UserRole, Pending(v));
    assert forall i :: 0 <= i < |v.transcript| ==> h[i] == v.transcript[i];
  }

  /**
   * A hidden panel that receives the text the server serves for the widget's country is
   * displayed, relabelled, and holds that text with every line feed turned into `<br>`.
   * The served text contains no `<`, so the panel's `<br>` tags are exactly its line feeds
   * and the served text can be read back from the panel unchanged.
   */
  lemma ServedResourcesAreShown(v: View)
    requires !v.panelShown
    ensures ResourcesRequest(v) == Some("Singapore")
    ensures var text := ResourcesText(ResourcesRequest(v).value);
      var w := AfterToggle(v, Delivered(Payload(None, None, Some(text))));
      w.panelShown && w.buttonLabel == HideLabel
      && w.panelContent == ReplaceNewlines(text) && Lacks(w.panelContent, '\n')
      && RestoreNewlines(w.panelContent) == text
      && SameChat(v, w)
  {
    var text := ResourcesText(ResourcesCountry);
    assert |text| > 0 by { assert Header <= text; }
    assert Truthy(Some(text));
    assert '<' !in ResourcesCountry;
    ResourcesTextLacksAngle(ResourcesCountry);
    RestoreReplaceNewlines(text);
  }
}
