/** The AI business assistant page: a history that opens with a greeting, an input box,
    and a send that adds the user's turn, asks the assistant service with the whole
    history and adds its answer when one comes back. */
module BusinessAssistant {
  import opened Market
  import opened Text

  datatype Role = User | Assistant

  /** One turn of the conversation. */
  datatype Turn = Turn(role: Role, content: string)

  const Greeting: string := "Hello! I'm your AI Business Assistant. I can help you with business advice, selling tips, pricing strategies, marketing ideas, and more. How can I assist you today?"

  /** The history the page opens with. */
  const InitialHistory: seq<Turn> := [Turn(Assistant, Greeting)]

  /** What the assistant service gives back: data that may or may not hold a message, or
      an error (a returned error and a thrown one are handled alike). */
  datatype Reply = Answer(message: Option<string>) | Failure

  /** The guard of `handleSend`: blank input, or a request still in flight. */
  predicate Ignored(input: string, loading: bool) {
    Trim(input) == "" || loading
  }

  /** The history sent with the request: the shown one plus the trimmed user turn. */
  function WithUserTurn(history: seq<Turn>, input: string): (r: seq<Turn>)
    ensures |r| == |history| + 1 && history <= r
    ensures r[|history|] == Turn(User, Trim(input))
  {
    history + [Turn(User, Trim(input))]
  }

  /** The history after the reply: one assistant turn more when the reply holds a
      non-empty message, the same history otherwise. */
  function WithReply(history: seq<Turn>, reply: Reply): (r: seq<Turn>)
    ensures history <= r
    ensures |r| == |history| + 1 <==> reply.Answer? && reply.message.Some? && reply.message.value != ""
    ensures |r| == |history| || |r| == |history| + 1
    ensures |r| == |history| + 1 ==> r[|history|] == Turn(Assistant, reply.message.value)
  {
    if reply.Answer? && reply.message.Some? && reply.message.value != "" then
      history + [Turn(Assistant, reply.message.value)]
    else history
  }

  /** A send keeps every earlier turn in place, adds the user's turn next, and at most
      one assistant turn after it; an error or an empty answer adds only the user's turn. */
  lemma {:induction false} SendExtendsHistory(history: seq<Turn>, input: string, reply: Reply)
    ensures var r := WithReply(WithUserTurn(history, input), reply);
      && history <= r
      && r[|history|] == Turn(User, Trim(input))
      && (|r| == |history| + 1 || |r| == |history| + 2)
      && (reply.Failure? ==> |r| == |history| + 1)
      && (|r| == |history| + 2 ==> r[|history| + 1].role == Assistant)
  {
    var sent := WithUserTurn(history, input);
    var r := WithReply(sent, reply);
    assert sent <= r;
    assert r[|history|] == sent[|history|];
  }

  /** Every history the page shows starts with the greeting. */
  lemma {:induction false} GreetingStaysFirst(history: seq<Turn>, input: string, reply: Reply)
    requires |history| > 0 && history[0] == Turn(Assistant, Greeting)
    ensures WithReply(WithUserTurn(history, input), reply)[0] == Turn(Assistant, Greeting)
  {
    SendExtendsHistory(history, input, reply);
  }

  /** The key press that sends: Enter without Shift. */
  predicate SendsOnKey(key: string, shift: bool) {
    key == "Enter" && !shift
  }

  /** The page's state. */
  class AssistantPage {
    var messages: seq<Turn>
    var input: string
    var loading: bool

    /** The greeting opens the history; while a request is in flight the last turn is
        the user's. */
    ghost predicate Valid()
      reads this
    {
      && |messages| > 0 && messages[0] == Turn(Assistant, Greeting)
      && (loading ==> |messages| > 1 && messages[|messages| - 1].role == User)
    }

    constructor ()
      ensures Valid()
      ensures messages == InitialHistory && input == "" && !loading
    {
      messages := InitialHistory;
      input := "";
      loading := false;
    }

    /** Typing into the input box. */
    method SetInput(text: string)
      requires Valid()
      modifies this`input
      ensures Valid() && input == text
    {
      input := text;
    }

    /** The synchronous half of `handleSend`: the guard, then the user's turn, the
        cleared input and `loading`; returns the history the request carries. */
    method BeginSend() returns (request: Option<seq<Turn>>)
      requires Valid()
      modifies this`messages, this`input, this`loading
      ensures Valid()
      ensures Ignored(old(input), old(loading)) ==>
        (request.None? && messages == old(messages) && input == old(input) && loading == old(loading))
      ensures !Ignored(old(input), old(loading)) ==>
        (request == Some(WithUserTurn(old(messages), old(input)))
         && messages == request.value && input == "" && loading)
    {
      if Trim(input) == "" || loading {
        request := None;
        return;
      }
      var userMessage := Trim(input);
      input := "";
      var newMessages := messages + [Turn(User, userMessage)];
      messages := newMessages;
      loading := true;
      request := Some(newMessages);
    }

    /** The asynchronous half: adds the answer, if any, after the history the request
        carried; on an error only a toast. `loading` is off afterwards either way. */
    method Complete(reply: Reply) returns (notice: Notice)
      requires Valid() && loading
      modifies this`messages, this`loading
      ensures Valid() && !loading && input == old(input)
      ensures messages == WithReply(old(messages), reply)
      ensures notice == if reply.Failure? then ErrorToast else Silent
    {
      if reply.Failure? {
        notice := ErrorToast;
      } else {
        if reply.message.Some? && reply.message.value != "" {
          messages := messages + [Turn(Assistant, reply.message.value)];
        }
        notice := Silent;
      }
      loading := false;
    }

    /** `handleSend` run to completion with the service's reply. */
    method HandleSend(reply: Reply) returns (notice: Notice)
      requires Valid()
      modifies this`messages, this`input, this`loading
      ensures Valid()
      ensures Ignored(old(input), old(loading)) ==>
        (messages == old(messages) && input == old(input) && loading == old(loading) && notice == Silent)
      ensures !Ignored(old(input), old(loading)) ==>
        (messages == WithReply(WithUserTurn(old(messages), old(input)), reply) && input == "" && !loading
         && notice == (if reply.Failure? then ErrorToast else Silent))
    {
      var request := BeginSend();
      if request.None? {
        notice := Silent;
        return;
      }
      notice := Complete(reply);
    }

    /** `handleKeyPress`: Enter without Shift sends, subject to the send guard; any other
        key, and Enter while the guard blocks, changes nothing. */
    method HandleKeyPress(key: string, shift: bool, reply: Reply) returns (notice: Notice)
      requires Valid()
      modifies this`messages, this`input, this`loading
      ensures Valid()
      ensures !SendsOnKey(key, shift) || Ignored(old(input), old(loading)) ==>
        (messages == old(messages) && input == old(input) && loading == old(loading) && notice == Silent)
      ensures SendsOnKey(key, shift) && !Ignored(old(input), old(loading)) ==>
        (messages == WithReply(WithUserTurn(old(messages), old(input)), reply) && input == "" && !loading
         && notice == (if reply.Failure? then ErrorToast else Silent))
    {
      if key == "Enter" && !shift {
        notice := HandleSend(reply);
      } else {
        notice := Silent;
      }
    }
  }
}
