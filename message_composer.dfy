/**
 * The message composer of the inbox: a text field that is sent, trimmed, by
 * the send button or by Enter, and a channel toggle.
 */
module MessageComposer {
  import opened Optional
  import opened Text

  /** The channel toggle hands a value to the page only when one is selected (`v && onChannelChange(v)`). */
  function ChannelChange(v: string): (r: Option<string>)
    ensures r.Some? <==> v != ""
    ensures r.Some? ==> r.value == v
  {
    if v != "" then Some(v) else None
  }

  /** The composer's state: the text in the field. */
  class Composer {
    var message: string

    constructor (defaultMessage: string)
      ensures message == defaultMessage
    {
      message := defaultMessage;
    }

    /** Typing replaces the field's text. */
    method SetMessage(text: string)
      modifies this
      ensures message == text
    {
      message := text;
    }

    /** The effect on a new default message: a non-empty one replaces the text, an empty one leaves it. */
    method SyncDefault(defaultMessage: string)
      modifies this
      ensures message == if defaultMessage != "" then defaultMessage else old(message)
    {
      if defaultMessage != "" {
        message := defaultMessage;
      }
    }

    /**
     * Sends the trimmed text when it is not empty and no send is in progress, then
     * clears the field; otherwise sends nothing and keeps the text. What is sent
     * is never empty and has nothing left to trim.
     */
    method HandleSend(sending: bool) returns (sent: Option<string>)
      modifies this
      ensures sent.Some? <==> Trim(old(message)) != "" && !sending
      ensures sent.Some? ==> sent.value == Trim(old(message)) && message == ""
      ensures sent.Some? ==> sent.value != "" && Trim(sent.value) == sent.value
      ensures sent.None? ==> message == old(message)
    {
      var text := Trim(message);
      if text != "" && !sending {
        TrimIdempotent(message);
        sent := Some(text);
        message := "";
      } else {
        sent := None;
      }
    }

    /** Enter without Shift sends as the button does; any other key, or Shift+Enter, sends nothing. */
    method HandleKeyDown(key: string, shift: bool, sending: bool) returns (sent: Option<string>)
      modifies this
      ensures !(key == "Enter" && !shift) ==> sent.None? && message == old(message)
      ensures key == "Enter" && !shift ==>
        (sent.Some? <==> Trim(old(message)) != "" && !sending) &&
        (sent.Some? ==> sent.value == Trim(old(message)) && message == "") &&
        (sent.None? ==> message == old(message))
    {
      if key == "Enter" && !shift {
        sent := HandleSend(sending);
      } else {
        sent := None;
      }
    }
  }
}
