/** The AI-assistant page's scripted demo conversation: a fixed script
    revealed one message per timer tick, with a typing indicator before each
    assistant reply, starting over after the last message; and the blinking
    cursor. Timers are replaced by calls to the methods they would run. */
module AiAssistant {

  datatype Role = User | Assistant

  /** A script entry: who speaks and the translation key of the text. */
  datatype Message = Message(role: Role, messageKey: string)

  /** The demo script. */
  const DemoMessages: seq<Message> := [
    Message(User, "aiAssistant.demo.q1"),
    Message(Assistant, "aiAssistant.demo.a1"),
    Message(User, "aiAssistant.demo.q2"),
    Message(Assistant, "aiAssistant.demo.a2"),
    Message(User, "aiAssistant.demo.q3"),
    Message(Assistant, "aiAssistant.demo.a3")
  ]

  /** The script alternates speakers, the user first. */
  lemma DemoAlternates()
    ensures |DemoMessages| == 6
    ensures forall i :: 0 <= i < |DemoMessages| ==>
      DemoMessages[i].role == (if i % 2 == 0 then User else Assistant)
  {
    var script := DemoMessages;
    forall i | 0 <= i < |script|
      ensures script[i].role == (if i % 2 == 0 then User else Assistant)
    {
      if i < 3 {
        assert i == 0 || i == 1 || i == 2;
      } else {
        assert i == 3 || i == 4 || i == 5;
      }
    }
  }

  /** The message index after one timer has fired: the next message, or back
      to the start once the whole script is shown. */
  function NextIndex(index: nat): (next: nat)
    ensures index < |DemoMessages| ==> next == index + 1
    ensures index >= |DemoMessages| ==> next == 0
    ensures next <= |DemoMessages|
  {
    if index >= |DemoMessages| then 0 else index + 1
  }

  /** The message index after `n` timers have fired. */
  function IndexAfter(n: nat, index: nat): nat
    decreases n
  {
    if n == 0 then index else IndexAfter(n - 1, NextIndex(index))
  }

  /** Timers fired from a position below the script's end move it forward by
      one each, as long as they stay within the script. */
  lemma {:induction false} IndexAfterAdvances(n: nat, index: nat)
    requires index + n <= |DemoMessages|
    ensures IndexAfter(n, index) == index + n
    decreases n
  {
    if n > 0 {
      IndexAfterAdvances(n - 1, index + 1);
    }
  }

  /** The demo repeats forever: one full round (every message, then the
      reset) returns to the position it started from. */
  lemma DemoCycles(index: nat)
    requires index <= |DemoMessages|
    ensures IndexAfter(|DemoMessages| + 1, index) == index
  {
    var len := |DemoMessages|;
    IndexAfterSplit(len - index, len + 1 - (len - index), index);
    IndexAfterAdvances(len - index, index);
    assert IndexAfter(1, len) == 0;
    IndexAfterSplit(1, index, len);
    IndexAfterAdvances(index, 0);
  }

  /** Running `a` timers and then `b` more is running `a + b`. */
  lemma {:induction false} IndexAfterSplit(a: nat, b: nat, index: nat)
    ensures IndexAfter(a + b, index) == IndexAfter(b, IndexAfter(a, index))
    decreases a
  {
    if a > 0 {
      IndexAfterSplit(a - 1, b, NextIndex(index));
    }
  }

  class DemoChat {
    var currentMessageIndex: nat
    var isTyping: bool
    var displayedMessages: seq<Message>
    var showCursor: bool

    /** What is on screen is exactly the part of the script already reached,
        and the typing indicator only shows before an assistant reply. */
    predicate Valid()
      reads this
    {
      && currentMessageIndex <= |DemoMessages|
      && displayedMessages == DemoMessages[..currentMessageIndex]
      && (isTyping ==> currentMessageIndex < |DemoMessages|
                       && DemoMessages[currentMessageIndex].role == Assistant)
    }

    constructor()
      ensures currentMessageIndex == 0 && displayedMessages == []
      ensures !isTyping && showCursor
      ensures Valid()
    {
      currentMessageIndex, isTyping := 0, false;
      displayedMessages, showCursor := [], true;
    }

    /** The effect run when the index changes: before an assistant message the
        typing indicator comes on; otherwise nothing changes until the timer
        fires. */
    method BeginStep()
      requires Valid()
      modifies this`isTyping
      ensures Valid()
      ensures currentMessageIndex < |DemoMessages| && DemoMessages[currentMessageIndex].role == Assistant
              ==> isTyping
      ensures !(currentMessageIndex < |DemoMessages| && DemoMessages[currentMessageIndex].role == Assistant)
              ==> isTyping == old(isTyping)
    {
      if currentMessageIndex < |DemoMessages| && DemoMessages[currentMessageIndex].role == Assistant {
        isTyping := true;
      }
    }

    /** The pending timer fires: past the end the conversation is cleared and
        restarts; otherwise the current message is appended (ending the
        typing indicator for an assistant reply) and the index advances. */
    method CompleteStep()
      requires Valid()
      modifies this`isTyping, this`displayedMessages, this`currentMessageIndex
      ensures Valid()
      ensures currentMessageIndex == NextIndex(old(currentMessageIndex))
      ensures old(currentMessageIndex) < |DemoMessages| ==>
                displayedMessages == old(displayedMessages) + [DemoMessages[old(currentMessageIndex)]]
      ensures old(currentMessageIndex) < |DemoMessages| && DemoMessages[old(currentMessageIndex)].role == Assistant
              ==> !isTyping
      ensures old(currentMessageIndex) < |DemoMessages| && DemoMessages[old(currentMessageIndex)].role == User
              ==> isTyping == old(isTyping)
      ensures old(currentMessageIndex) >= |DemoMessages| ==> displayedMessages == [] && isTyping == old(isTyping)
    {
      if currentMessageIndex >= |DemoMessages| {
        displayedMessages := [];
        currentMessageIndex := 0;
        return;
      }
      var current := DemoMessages[currentMessageIndex];
      if current.role == Assistant {
        isTyping := false;
      }
      assert DemoMessages[..currentMessageIndex + 1] == DemoMessages[..currentMessageIndex] + [current];
      displayedMessages := displayedMessages + [current];
      currentMessageIndex := currentMessageIndex + 1;
    }

    /** The cursor interval flips the cursor. */
    method TickCursor()
      modifies this`showCursor
      ensures showCursor == !old(showCursor)
    {
      showCursor := !showCursor;
    }
  }
}
