/** The class-based side panel `AIPanel` (src/sidepanel/sidepanel.ts): an
    object whose methods append to its message log, toggle its processing
    flag and copy the log into extension storage. */
module AIPanelModel {
  import opened Chat
  import opened Text

  /** How `simulateAIResponse` ends: it appends the reply chosen by the
      random index, or it throws before appending anything. */
  datatype SimulatedOutcome = Replied(pick: CannedIndex) | Threw

  /** The entries `renderMessages` pushes for a loaded log: each message's
      text and sender again, stamped with the time of the re-render. */
  function Restamped(log: seq<Message>, now: nat): (r: seq<Message>)
    ensures |r| == |log|
    ensures forall k :: 0 <= k < |r| ==>
      r[k].text == log[k].text && r[k].sender == log[k].sender && r[k].timestamp == now
  {
    if |log| == 0 then []
    else Restamped(log[..|log| - 1], now) + [Message(log[|log| - 1].text, log[|log| - 1].sender, now)]
  }

  /** The text of the `ai` entry a turn appends: one of the five canned
      replies exactly when the simulated reply arrived, and the apology
      exactly when it threw. */
  function ReplyText(outcome: SimulatedOutcome): (r: string)
    ensures r in CannedReplies <==> outcome.Replied?
    ensures r == Apology <==> outcome.Threw?
  {
    match outcome
    case Replied(pick) => CannedReplyIsCanned(pick); CannedReply(pick)
    case Threw => CannedReplyIsCanned(0); Apology
  }

  /** The send guard of `sendMessage`: an input element exists, its trimmed
      value is non-empty, and no turn is in flight. A submission is thus
      refused exactly when the input element is missing, the input is only
      whitespace, or a turn is already in flight. */
  predicate Accepts(hasInput: bool, input: string, isProcessing: bool)
    ensures Accepts(hasInput, input, isProcessing) <==> hasInput && !Blank(input) && !isProcessing
  {
    TrimEmptyIffBlank(input);
    hasInput && Trim(input) != "" && !isProcessing
  }

  /** What a panel whose log was reloaded from storage holds: without the
      messages container the stored list itself; with it, `renderMessages`
      appends every stored message a second time. */
  function Reloaded(stored: seq<Message>, hasContainer: bool, now: nat): (r: seq<Message>)
    ensures |r| == if hasContainer then 2 * |stored| else |stored|
    ensures r[..|stored|] == stored
    ensures hasContainer ==> forall k :: 0 <= k < |stored| ==>
      r[|stored| + k].text == stored[k].text && r[|stored| + k].sender == stored[k].sender
  {
    if hasContainer then stored + Restamped(stored, now) else stored
  }

  /** `AIPanel` saves only at the end of a turn. After a load, the next
      accepted turn (with a container) stores the reloaded log with the
      user and `ai` entries after it, so a non-empty stored log of at most
      24 entries is stored again doubled, not as it was plus the turn. */
  lemma {:induction false} ReloadDoublesStored(stored: seq<Message>, now: nat, user: Message, ai: Message)
    requires 0 < |stored| <= RetentionCap / 2 - 1
    ensures Retained(Reloaded(stored, true, now) + [user, ai]) == stored + Restamped(stored, now) + [user, ai]
    ensures |Retained(Reloaded(stored, true, now) + [user, ai])| == 2 * |stored| + 2
    ensures Retained(Reloaded(stored, true, now) + [user, ai]) != stored + [user, ai]
  {
    var r := Reloaded(stored, true, now) + [user, ai];
    assert |r| == 2 * |stored| + 2;
    assert Retained(r) == r;
  }

  class AIPanel {
    /** `this.messages` */
    var messages: seq<Message>
    /** `this.isProcessing` */
    var isProcessing: bool
    /** `messageInput.value` */
    var inputValue: string
    /** The extension's key-value storage (`chrome.storage.local`). */
    var store: map<string, seq<Message>>
    /** Whether `document.getElementById("messages")` found the container. */
    const hasContainer: bool
    /** Whether `document.getElementById("messageInput")` found the input. */
    const hasInput: bool
    /** Whether `chrome.storage` is defined. */
    const storageAvailable: bool

    /** A fresh panel: empty log, not processing. The storage read that the
        constructor starts completes later, through `LoadMessages`. */
    constructor (hasContainer: bool, hasInput: bool, storageAvailable: bool,
                 store: map<string, seq<Message>>)
      ensures messages == [] && !isProcessing && inputValue == ""
      ensures this.hasContainer == hasContainer && this.hasInput == hasInput
      ensures this.storageAvailable == storageAvailable && this.store == store
    {
      this.messages := [];
      this.isProcessing := false;
      this.inputValue := "";
      this.hasContainer := hasContainer;
      this.hasInput := hasInput;
      this.storageAvailable := storageAvailable;
      this.store := store;
    }

    /** The user's typing into the input element. */
    method SetInput(value: string)
      modifies this`inputValue
      ensures inputValue == value
    {
      inputValue := value;
    }

    /** `addMessage`: pushes one entry at the end of the log, unless the
        messages container is missing, in which case the message is lost. */
    method AddMessage(text: string, sender: Sender, now: nat)
      modifies this`messages
      ensures hasContainer ==> messages == old(messages) + [Message(text, sender, now)]
      ensures !hasContainer ==> messages == old(messages)
    {
      if !hasContainer {
        return;
      }
      messages := messages + [Message(text, sender, now)];
    }

    /** `setProcessing`, as far as the state it keeps: the flag. */
    method SetProcessing(processing: bool)
      modifies this`isProcessing
      ensures isProcessing == processing
    {
      isProcessing := processing;
    }

    /** `simulateAIResponse`: appends the canned reply at `pick`, or throws
        (reported as `false`) without appending anything. */
    method SimulateAIResponse(outcome: SimulatedOutcome, now: nat) returns (ok: bool)
      modifies this`messages
      ensures ok <==> outcome.Replied?
      ensures ok && hasContainer ==> messages == old(messages) + [Message(CannedReplies[outcome.pick], Ai, now)]
      ensures !ok || !hasContainer ==> messages == old(messages)
    {
      if outcome.Threw? {
        return false;
      }
      AddMessage(CannedReply(outcome.pick), Ai, now);
      return true;
    }

    /** `saveMessages`: stores the last 50 entries under the storage key when
        storage exists; the in-memory log is left whole. */
    method SaveMessages()
      modifies this`store
      ensures storageAvailable ==> store == old(store)[StorageKey := Retained(messages)]
      ensures !storageAvailable ==> store == old(store)
    {
      if storageAvailable {
        store := store[StorageKey := Retained(messages)];
      }
    }

    /** `renderMessages`, as far as the log goes: with a container and a
        non-empty log, the `forEach` over the log calls `addMessage` for
        each entry, so every entry is pushed a second time (the `forEach`
        visits only the entries present when it started). */
    method RenderMessages(now: nat)
      modifies this`messages
      ensures hasContainer ==> messages == old(messages) + Restamped(old(messages), now)
      ensures !hasContainer ==> messages == old(messages)
    {
      if !hasContainer {
        return;
      }
      if |messages| == 0 {
        return;
      }
      var loaded := messages;
      var i := 0;
      while i < |loaded|
        invariant 0 <= i <= |loaded|
        invariant messages == loaded + Restamped(loaded[..i], now)
      {
        assert loaded[..i + 1][..i] == loaded[..i];
        AddMessage(loaded[i].text, loaded[i].sender, now);
        i := i + 1;
      }
      assert loaded[..i] == loaded;
    }

    /** The callback of `loadMessages`: a non-empty stored log replaces the
        in-memory one verbatim (no cap) and is then rendered, which pushes
        it a second time; an absent or empty stored list changes nothing. */
    method LoadMessages(now: nat)
      modifies this`messages
      ensures storageAvailable && StorageKey in store && |store[StorageKey]| > 0 ==>
        messages == Reloaded(store[StorageKey], hasContainer, now)
      ensures !(storageAvailable && StorageKey in store && |store[StorageKey]| > 0) ==>
        messages == old(messages)
    {
      if storageAvailable && StorageKey in store && |store[StorageKey]| > 0 {
        messages := store[StorageKey];
        RenderMessages(now);
      }
    }

    /** The `try`/`catch` of `sendMessage`: the simulated reply is appended,
        or, when `simulateAIResponse` throws, the apology is appended in its
        place; either way exactly one `ai` entry (lost without a container). */
    method ReplyOrApologise(outcome: SimulatedOutcome, replyTime: nat)
      modifies this`messages
      ensures messages == old(messages) + (if hasContainer then [Message(ReplyText(outcome), Ai, replyTime)] else [])
    {
      var ok := SimulateAIResponse(outcome, replyTime);
      if !ok {
        AddMessage(Apology, Ai, replyTime);
      }
    }

    /** The accepted part of `sendMessage`, from appending the user entry to
        the `finally` block: the user entry and then exactly one `ai` entry
        are appended (both lost without a container), the input is cleared,
        the flag is raised for the exchange and lowered at its end, and the
        resulting log is saved. */
    method Exchange(message: string, outcome: SimulatedOutcome, userTime: nat, replyTime: nat)
      modifies this`messages, this`isProcessing, this`inputValue, this`store
      ensures !isProcessing && inputValue == ""
      ensures messages == old(messages) +
        (if hasContainer then [Message(message, User, userTime), Message(ReplyText(outcome), Ai, replyTime)] else [])
      ensures store == if storageAvailable then old(store)[StorageKey := Retained(messages)] else old(store)
    {
      AddMessage(message, User, userTime);
      inputValue := "";
      SetProcessing(true);
      ReplyOrApologise(outcome, replyTime);
      SetProcessing(false);
      SaveMessages();
    }

    /** `sendMessage`: one whole turn. A refused submission changes nothing;
        an accepted one runs `Exchange` on the trimmed input. `userTime` and
        `replyTime` are the two `Date.now()` readings. */
    method SendMessage(outcome: SimulatedOutcome, userTime: nat, replyTime: nat)
      modifies this`messages, this`isProcessing, this`inputValue, this`store
      ensures !Accepts(hasInput, old(inputValue), old(isProcessing)) ==>
        messages == old(messages) && isProcessing == old(isProcessing)
        && inputValue == old(inputValue) && store == old(store)
      ensures Accepts(hasInput, old(inputValue), old(isProcessing)) ==>
        !isProcessing && inputValue == ""
        && messages == old(messages) +
             (if hasContainer
              then [Message(Trim(old(inputValue)), User, userTime), Message(ReplyText(outcome), Ai, replyTime)]
              else [])
        && store == (if storageAvailable then old(store)[StorageKey := Retained(messages)] else old(store))
    {
      if !hasInput {
        return;
      }
      var message := Trim(inputValue);
      if message == "" || isProcessing {
        return;
      }
      Exchange(message, outcome, userTime, replyTime);
    }
  }

  /** A load followed by one accepted `sendMessage`, on a panel with a
      container and storage: a non-empty stored log of at most 24 messages
      is stored again doubled plus the turn, not as it was plus the turn. */
  method LoadThenTurn(panel: AIPanel, outcome: SimulatedOutcome, now: nat, userTime: nat, replyTime: nat)
    requires panel.hasContainer && panel.storageAvailable
    requires StorageKey in panel.store && 0 < |panel.store[StorageKey]| <= RetentionCap / 2 - 1
    requires Accepts(panel.hasInput, panel.inputValue, panel.isProcessing)
    modifies panel
    ensures StorageKey in panel.store
    ensures |panel.store[StorageKey]| == 2 * |old(panel.store[StorageKey])| + 2
    ensures panel.store[StorageKey] == old(panel.store[StorageKey]) + Restamped(old(panel.store[StorageKey]), now)
      + [Message(Trim(old(panel.inputValue)), User, userTime), Message(ReplyText(outcome), Ai, replyTime)]
  {
    var stored := panel.store[StorageKey];
    panel.LoadMessages(now);
    panel.SendMessage(outcome, userTime, replyTime);
    ReloadDoublesStored(stored, now, Message(Trim(old(panel.inputValue)), User, userTime),
                        Message(ReplyText(outcome), Ai, replyTime));
  }

  /** One accepted `sendMessage` on a panel with a container grows its log
      by exactly two: the trimmed user text, then exactly one `ai` entry,
      which is canned or the apology depending on the path. */
  method TurnAppendsUserThenAi(panel: AIPanel, outcome: SimulatedOutcome, userTime: nat, replyTime: nat)
    requires panel.hasContainer && Accepts(panel.hasInput, panel.inputValue, panel.isProcessing)
    modifies panel
    ensures |panel.messages| == |old(panel.messages)| + 2
    ensures panel.messages[..|old(panel.messages)|] == old(panel.messages)
    ensures panel.messages[|old(panel.messages)|] == Message(Trim(old(panel.inputValue)), User, userTime)
    ensures panel.messages[|old(panel.messages)| + 1].sender == Ai
    ensures panel.messages[|old(panel.messages)| + 1].text in CannedReplies <==> outcome.Replied?
    ensures panel.messages[|old(panel.messages)| + 1].text == Apology <==> outcome.Threw?
  {
    panel.SendMessage(outcome, userTime, replyTime);
    assert panel.messages[|old(panel.messages)| + 1] == Message(ReplyText(outcome), Ai, replyTime);
  }
}
