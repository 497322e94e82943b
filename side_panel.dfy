/** The React side panel `SidePanel` (src/sidepanel/SidePanel.tsx): the same
    chat turn as `AIPanel`, but the reply is first requested from the
    background script and the canned replies are only the fallback. The
    component's state hooks (`messages`, `inputValue`, `isProcessing`) and
    the extension storage are the fields of one object. */
module SidePanelModel {
  import opened Chat
  import opened Text

  /** What happens to the `chrome.runtime.sendMessage` request that
      `sendToDeepSeek` makes. */
  datatype Channel =
    | NoRuntime                            // `chrome` or `chrome.runtime` is undefined
    | SendThrows                           // `chrome.runtime.sendMessage` throws when called
    | LastError                            // the callback runs with `chrome.runtime.lastError` set
    | Responded(response: Option<string>)  // the callback receives `response?.response`

  /** What `await sendToDeepSeek(message)` gives `handleSendMessage`: a value
      (`string | null`), or a rejection that lands in its `catch`. */
  datatype Awaited = Resolved(value: Option<string>) | Rejected

  /** JavaScript truthiness of a `string | null`: neither null nor "". */
  predicate Truthy(s: Option<string>)
  {
    s.Some? && s.value != ""
  }

  /** `sendToDeepSeek` as written. Returning the promise from inside the
      `try` without awaiting it means the `catch` never sees a throw from
      `chrome.runtime.sendMessage`: the promise constructor turns it into a
      rejection, which reaches the caller. */
  function SendToDeepSeekAsWritten(channel: Channel): (r: Awaited)
    ensures r == Rejected <==> channel == SendThrows
    ensures r.Resolved? && r.value.Some? <==> channel.Responded? && Truthy(channel.response)
    ensures r.Resolved? && r.value.Some? ==> r.value == channel.response
  {
    match channel
    case NoRuntime => Resolved(None)
    case SendThrows => Rejected
    case LastError => Resolved(None)
    case Responded(response) => Resolved(if Truthy(response) then response else None)
  }

  /** `sendToDeepSeek` as its `catch` shows it is meant to behave: every
      failure (no runtime, a throw, a runtime error) yields `null`, and a
      reply is passed on only when it is a non-empty string
      (`response?.response || null`). */
  function SendToDeepSeek(channel: Channel): (r: Option<string>)
    ensures r.Some? <==> channel.Responded? && Truthy(channel.response)
    ensures r.Some? ==> r == channel.response && r.value != ""
  {
    match channel
    case NoRuntime => None
    case SendThrows => None
    case LastError => None
    case Responded(response) => if Truthy(response) then response else None
  }

  /** The two versions of `sendToDeepSeek` differ only on a throwing send:
      as written the turn sees a rejection, where `null` was meant. */
  lemma SendToDeepSeekFinding(channel: Channel)
    ensures channel != SendThrows ==> SendToDeepSeekAsWritten(channel) == Resolved(SendToDeepSeek(channel))
    ensures SendToDeepSeekAsWritten(SendThrows) == Rejected && SendToDeepSeek(SendThrows) == None
  {
  }

  /** `deepSeekResponse || (await simulateAIResponse())`: the delegated reply
      when it is truthy, the canned reply at `pick` otherwise. */
  function AiText(delegated: Option<string>, pick: CannedIndex): (r: string)
    ensures r != ""
    ensures Truthy(delegated) ==> r == delegated.value
    ensures !Truthy(delegated) ==> r in CannedReplies
  {
    if Truthy(delegated) then delegated.value else CannedReplyIsCanned(pick); CannedReply(pick)
  }

  /** The delegated reply is used exactly when it is neither null nor empty;
      in every other case the text is one of the five canned replies. */
  lemma {:induction false} AiTextChoice(delegated: Option<string>, pick: CannedIndex)
    ensures Truthy(delegated) ==> AiText(delegated, pick) == delegated.value
    ensures !Truthy(delegated) ==> AiText(delegated, pick) == CannedReplies[pick]
    ensures !Truthy(delegated) ==> AiText(delegated, pick) in CannedReplies && AiText(delegated, pick) != Apology
  {
    if !Truthy(delegated) {
      CannedReplyIsCanned(pick);
    }
  }

  /** The text of the `ai` entry a turn appends: the apology when awaiting
      the reply rejected (the `catch` branch), the chosen text otherwise. */
  function TurnReply(delegated: Awaited, pick: CannedIndex): (r: string)
    ensures r != ""
    ensures delegated.Rejected? ==> r == Apology
    ensures delegated.Resolved? && Truthy(delegated.value) ==> r == delegated.value.value
    ensures delegated.Resolved? && !Truthy(delegated.value) ==> r in CannedReplies && r != Apology
  {
    match delegated
    case Rejected => Apology
    case Resolved(value) => AiTextChoice(value, pick); AiText(value, pick)
  }

  /** Through the intended `sendToDeepSeek` a turn never takes the `catch`
      branch: its reply is the channel's non-empty response, or else the
      canned reply. As written, a throwing send ends the turn with the
      apology where the canned reply was meant. */
  lemma {:induction false} DelegationNeverFailsTurn(channel: Channel, pick: CannedIndex)
    ensures TurnReply(Resolved(SendToDeepSeek(channel)), pick) ==
      if channel.Responded? && Truthy(channel.response) then channel.response.value else CannedReplies[pick]
    ensures TurnReply(SendToDeepSeekAsWritten(SendThrows), pick) == Apology
    ensures TurnReply(Resolved(SendToDeepSeek(SendThrows)), pick) != Apology
  {
    AiTextChoice(SendToDeepSeek(channel), pick);
    AiTextChoice(SendToDeepSeek(SendThrows), pick);
  }

  /** The guard of `handleSendMessage`: a non-empty trimmed input and no turn
      in flight. */
  predicate Accepts(input: string, isProcessing: bool)
    ensures Accepts(input, isProcessing) <==> !Blank(input) && !isProcessing
  {
    TrimEmptyIffBlank(input);
    Trim(input) != "" && !isProcessing
  }

  /** `disabled={isProcessing || !inputValue.trim()}` on the send button. */
  predicate SendButtonDisabled(isProcessing: bool, input: string)
    ensures SendButtonDisabled(isProcessing, input) <==> isProcessing || Blank(input)
  {
    TrimEmptyIffBlank(input);
    isProcessing || Trim(input) == ""
  }

  /** The send button is enabled exactly when a click would be accepted, that
      is when no turn is in flight and the input is not all whitespace. */
  lemma SendButtonMatchesGuard(isProcessing: bool, input: string)
    ensures !SendButtonDisabled(isProcessing, input) <==> Accepts(input, isProcessing)
  {
  }

  class SidePanel {
    /** `const [messages, setMessages]` */
    var messages: seq<Message>
    /** `const [inputValue, setInputValue]` */
    var inputValue: string
    /** `const [isProcessing, setIsProcessing]` */
    var isProcessing: bool
    /** The extension's key-value storage (`chrome.storage.local`). */
    var store: map<string, seq<Message>>
    /** Whether `chrome.storage` is defined. */
    const storageAvailable: bool

    /** The initial state of the hooks: no messages, empty input, idle. The
        storage read that the mount effect starts completes later, through
        `LoadMessages`. */
    constructor (storageAvailable: bool, store: map<string, seq<Message>>)
      ensures messages == [] && inputValue == "" && !isProcessing
      ensures this.storageAvailable == storageAvailable && this.store == store
    {
      this.messages := [];
      this.inputValue := "";
      this.isProcessing := false;
      this.storageAvailable := storageAvailable;
      this.store := store;
    }

    /** `onChange`: the textarea's value becomes the input. */
    method SetInputValue(value: string)
      modifies this`inputValue
      ensures inputValue == value
    {
      inputValue := value;
    }

    /** The callback of `loadMessages`: a non-empty stored list replaces the
        messages verbatim (no cap, no re-append); otherwise nothing changes. */
    method LoadMessages()
      modifies this`messages
      ensures storageAvailable && StorageKey in store && |store[StorageKey]| > 0 ==>
        messages == store[StorageKey]
      ensures !(storageAvailable && StorageKey in store && |store[StorageKey]| > 0) ==>
        messages == old(messages)
    {
      if storageAvailable && StorageKey in store && |store[StorageKey]| > 0 {
        messages := store[StorageKey];
      }
    }

    /** `saveMessages(newMessages)`: stores `newMessages.slice(-50)` when
        storage exists; the messages themselves are not touched. */
    method SaveMessages(newMessages: seq<Message>)
      modifies this`store
      ensures storageAvailable ==> store == old(store)[StorageKey := Retained(newMessages)]
      ensures !storageAvailable ==> store == old(store)
    {
      if storageAvailable {
        store := store[StorageKey := Retained(newMessages)];
      }
    }

    /** The accepted part of `handleSendMessage`: append the user message,
        clear the input, raise the flag; then append exactly one `ai`
        message (the chosen reply, or the apology in the `catch` branch)
        and save the final list; the `finally` lowers the flag. */
    method Exchange(message: string, delegated: Awaited, pick: CannedIndex, userTime: nat, replyTime: nat)
      modifies this`messages, this`inputValue, this`isProcessing, this`store
      ensures messages == old(messages) + [Message(message, User, userTime), Message(TurnReply(delegated, pick), Ai, replyTime)]
      ensures inputValue == "" && !isProcessing
      ensures storageAvailable ==> store == old(store)[StorageKey := Retained(messages)]
      ensures !storageAvailable ==> store == old(store)
    {
      var userMessage := Message(message, User, userTime);
      var newMessages := messages + [userMessage];
      messages := newMessages;
      inputValue := "";
      isProcessing := true;
      match delegated {
        case Resolved(deepSeekResponse) =>
          var aiText := AiText(deepSeekResponse, pick);
          var finalMessages := newMessages + [Message(aiText, Ai, replyTime)];
          messages := finalMessages;
          SaveMessages(finalMessages);
        case Rejected =>
          var finalMessages := newMessages + [Message(Apology, Ai, replyTime)];
          messages := finalMessages;
          SaveMessages(finalMessages);
      }
      isProcessing := false;
    }

    /** `handleSendMessage`: a refused submission changes nothing; an accepted
        one grows the messages by the trimmed user text and one `ai` reply,
        clears the input, ends idle and stores the last 50 messages while
        the messages themselves are kept whole. `delegated` is what awaiting
        `sendToDeepSeek` gives, `pick` the random canned index, `userTime`
        and `replyTime` the two `Date.now()` readings. */
    method HandleSendMessage(delegated: Awaited, pick: CannedIndex, userTime: nat, replyTime: nat)
      modifies this`messages, this`inputValue, this`isProcessing, this`store
      ensures !Accepts(old(inputValue), old(isProcessing)) ==>
        messages == old(messages) && inputValue == old(inputValue)
        && isProcessing == old(isProcessing) && store == old(store)
      ensures Accepts(old(inputValue), old(isProcessing)) ==>
        messages == old(messages) + [Message(Trim(old(inputValue)), User, userTime),
                                     Message(TurnReply(delegated, pick), Ai, replyTime)]
        && inputValue == "" && !isProcessing
        && store == (if storageAvailable then old(store)[StorageKey := Retained(messages)] else old(store))
    {
      var message := Trim(inputValue);
      if message == "" || isProcessing {
        return;
      }
      Exchange(message, delegated, pick, userTime, replyTime);
    }
  }

  /** `saveMessages` followed by the callback of `loadMessages`: a
      non-empty list of at most 50 messages comes back verbatim, a longer
      one as exactly its 50 most recent, oldest first. */
  method SaveThenLoad(panel: SidePanel, log: seq<Message>)
    requires panel.storageAvailable && |log| > 0
    modifies panel
    ensures |log| <= RetentionCap ==> panel.messages == log
    ensures |log| > RetentionCap ==>
      |panel.messages| == RetentionCap
      && (forall k :: 0 <= k < RetentionCap ==> panel.messages[k] == log[|log| - RetentionCap + k])
  {
    panel.SaveMessages(log);
    panel.LoadMessages();
  }

  /** An accepted turn followed by a reload of the stored list: the reload
      gives back the messages after the turn (the old ones, the user entry,
      then exactly one `ai` entry) when they number at most 50, and
      otherwise their 50 most recent, oldest first. */
  method ReloadAfterTurn(panel: SidePanel, delegated: Awaited, pick: CannedIndex, userTime: nat, replyTime: nat)
    requires panel.storageAvailable && Accepts(panel.inputValue, panel.isProcessing)
    modifies panel
    ensures var after := old(panel.messages) + [Message(Trim(old(panel.inputValue)), User, userTime),
                                                 Message(TurnReply(delegated, pick), Ai, replyTime)];
      panel.messages == if |after| <= RetentionCap then after else after[|after| - RetentionCap..]
  {
    panel.HandleSendMessage(delegated, pick, userTime, replyTime);
    RetainedRoundTrip(panel.messages);
    panel.LoadMessages();
  }
}
