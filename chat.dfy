/** What both chat panels share: the message record, the sender tag, the
    reply texts and the retention window applied when the log is persisted. */
module Chat {

  datatype Option<T> = None | Some(value: T)

  /** `sender: "user" | "ai"` */
  datatype Sender = User | Ai

  /** A chat message; `timestamp` is the `Date.now()` value taken when the
      message was created (milliseconds, supplied by the caller). */
  datatype Message = Message(text: string, sender: Sender, timestamp: nat)

  /** The storage key under which both panels keep the log. */
  const StorageKey: string := "aiPanelMessages"

  /** The number of most recent messages that `saveMessages` keeps. */
  const RetentionCap: nat := 50

  /** The five mock replies; both panels use this same list. */
  const CannedReplies: seq<string> := [
    "Xin chào! Tôi là AI assistant. Tôi có thể giúp gì cho bạn?",
    "Tôi hiểu câu hỏi của bạn. Bạn có thể cung cấp thêm thông tin không?",
    "Đây là một câu hỏi thú vị. Tôi sẽ cố gắng hỗ trợ bạn tốt nhất có thể.",
    "Cảm ơn bạn đã chia sẻ. Tôi đang xử lý thông tin này...",
    "Tôi có thể giúp bạn với nhiều chủ đề khác nhau. Hãy cho tôi biết bạn cần hỗ trợ gì!"
  ]

  /** The reply text appended when obtaining a reply throws. */
  const Apology: string := "Xin lỗi, đã có lỗi xảy ra. Vui lòng thử lại."

  /** `Math.floor(Math.random() * responses.length)` always lands in [0, 5). */
  type CannedIndex = i: nat | i < 5

  /** `responses[index]` */
  function CannedReply(index: CannedIndex): string
  {
    CannedReplies[index]
  }

  /** Every index picks one of the five canned replies, and none of them is
      the apology text, so a reader of the log can tell the two apart. */
  lemma CannedReplyIsCanned(index: CannedIndex)
    ensures CannedReply(index) in CannedReplies
    ensures CannedReply(index) != Apology && CannedReply(index) != ""
    ensures forall k :: 0 <= k < |CannedReplies| ==> CannedReplies[k] != Apology
  {
    assert |Apology| == 44;
    assert |CannedReplies[0]| == 58 && |CannedReplies[1]| == 67 && |CannedReplies[2]| == 69;
    assert |CannedReplies[3]| == 54 && |CannedReplies[4]| == 83;
  }

  /** JavaScript's `s.slice(-n)` for n > 0: the last `n` entries, or all of
      them when there are fewer. */
  function Last<T>(s: seq<T>, n: nat): (r: seq<T>)
    requires n > 0
    ensures |r| == if |s| <= n then |s| else n
    ensures forall k :: 0 <= k < |r| ==> r[k] == s[|s| - |r| + k]
  {
    if |s| <= n then s else s[|s| - n..]
  }

  /** What `saveMessages` writes: `messages.slice(-50)`. */
  function Retained(log: seq<Message>): (r: seq<Message>)
    ensures |r| <= RetentionCap
  {
    Last(log, RetentionCap)
  }

  /** The retention window spelled out: a log of at most 50 messages is
      kept whole, a longer one as exactly its 50 most recent, oldest first. */
  lemma RetainedRoundTrip(log: seq<Message>)
    ensures |log| <= RetentionCap ==> Retained(log) == log
    ensures |log| > RetentionCap ==> Retained(log) == log[|log| - RetentionCap..]
  {
  }

  /** Truncating before appending does not change what is retained
      afterwards: saving after each turn, or loading a truncated log and
      continuing, persists the same window as truncating the whole history
      once. */
  lemma {:induction false} LastAfterAppend<T>(a: seq<T>, b: seq<T>, n: nat)
    requires n > 0
    ensures Last(Last(a, n) + b, n) == Last(a + b, n)
  {
    if |a| > n {
      var s := a + b;
      var i := |a| - n;
      assert Last(a, n) + b == s[i..];
      assert Last(s[i..], n) == Last(s, n) by {
        assert |s| - i >= n;
        assert s[i..][|s[i..]| - n..] == s[|s| - n..];
      }
    }
  }

  /** Retention is idempotent: keeping the last 50 of a list that already
      holds at most 50 changes nothing. */
  lemma RetainedIdempotent(log: seq<Message>)
    ensures Retained(Retained(log)) == Retained(log)
  {
  }
}
