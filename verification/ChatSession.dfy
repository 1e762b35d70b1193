/**
 * The chat page's session state and its submit handler: an append-only
 * message list, the input buffer, the thinking flag and the error field.
 * A submission that reaches the model is split into its two halves, the
 * part before the awaited call (Submit) and the part after it (Resolve).
 */
module ChatSession {
  import opened JsString
  import opened ChatPolicy

  /** Where a submission goes: nowhere, to the medical deflection, to the
      off-topic decline, or to the model. */
  datatype Route = Ignored | Deflected | Declined | Asked

  /** The routing of `handleSubmit`, from the input buffer and the thinking
      flag: a blank prompt or a pending call is ignored; otherwise the medical
      check wins over the policy check, and only a prompt that passes the
      policy check and fails the medical one reaches the model. */
  function RouteFor(input: string, thinking: bool): (r: Route)
    ensures r == Ignored <==> AllWhitespace(input) || thinking
    ensures r == Deflected <==> !AllWhitespace(input) && !thinking && LooksMedicalQuestion(Trim(input))
    ensures r == Declined ==> !LooksMedicalQuestion(Trim(input)) && !LooksLikeCancerPolicyQuestion(Trim(input))
    ensures r == Asked <==>
      !AllWhitespace(input) && !thinking && !LooksMedicalQuestion(Trim(input)) && LooksLikeCancerPolicyQuestion(Trim(input))
  {
    var trimmed := Trim(input);
    if trimmed == [] || thinking then Ignored
    else if LooksMedicalQuestion(trimmed) then Deflected
    else if !LooksLikeCancerPolicyQuestion(trimmed) then Declined
    else Asked
  }

  /** Message ids strictly increase along the list. */
  predicate IdsIncreasing(messages: seq<Message>)
  {
    forall i, j :: 0 <= i < j < |messages| ==> messages[i].id < messages[j].id
  }

  /** `nextId`: one more than the last message's id, or 1 for an empty list.
      On a list with increasing ids it exceeds every id in the list. */
  function NextId(messages: seq<Message>): (r: int)
    ensures messages == [] ==> r == 1
    ensures IdsIncreasing(messages) ==> forall i :: 0 <= i < |messages| ==> messages[i].id < r
  {
    if |messages| > 0 then messages[|messages| - 1].id + 1 else 1
  }

  /** Appending a message that carries NextId keeps the ids increasing. */
  lemma AppendNextKeepsIncreasing(messages: seq<Message>, m: Message)
    requires IdsIncreasing(messages) && m.id == NextId(messages)
    ensures IdsIncreasing(messages + [m])
  {
    var all := messages + [m];
    forall i, j | 0 <= i < j < |all| ensures all[i].id < all[j].id {
      if j == |messages| {
        assert all[i] == messages[i];
      } else {
        assert all[i] == messages[i] && all[j] == messages[j];
      }
    }
  }

  /** A prompt that contains any medical marker is deflected, whatever else it
      contains: the medical check comes first. */
  lemma MedicalMarkerDeflects(input: string, k: nat)
    requires k < |MedicalMarkers| && Includes(Lower(Trim(input)), MedicalMarkers[k])
    ensures RouteFor(input, false) == Deflected
  {
    LooksMedicalIff(Trim(input));
  }

  /** A prompt about a screening result matches the policy list too, and is
      still deflected: the model is never asked. */
  lemma ScreeningResultDeflected(input: string)
    requires Includes(Lower(Trim(input)), "screening result")
    ensures LooksLikeCancerPolicyQuestion(Trim(input))
    ensures RouteFor(input, false) == Deflected
  {
    ScreeningResultMatchesBoth(Trim(input));
  }

  /** A prompt that matches no marker of either list is declined. */
  lemma NoMarkerDeclined(input: string)
    requires Trim(input) != []
    requires forall k :: 0 <= k < |MedicalMarkers| ==> !Includes(Lower(Trim(input)), MedicalMarkers[k])
    requires forall k :: 0 <= k < |PolicyMarkers| ==> !Includes(Lower(Trim(input)), PolicyMarkers[k])
    ensures RouteFor(input, false) == Declined
  {
    LooksMedicalIff(Trim(input));
    LooksPolicyIff(Trim(input));
  }

  class Session {
    var messages: seq<Message>
    var input: string
    var isThinking: bool
    var error: Option<string>
    /** The id `nextId + 1` captured by the submission awaiting its reply. */
    var pendingReplyId: int

    ghost predicate Valid()
      reads this
    {
      IdsIncreasing(messages) && (isThinking ==> pendingReplyId == NextId(messages))
    }

    /** The page opens with the welcome message, an empty input, not thinking and no error. */
    constructor ()
      ensures Valid()
      ensures messages == [Message(1, Assistant, WelcomeText)]
      ensures input == "" && !isThinking && error == None
    {
      messages := [Message(1, Assistant, WelcomeText)];
      input := "";
      isThinking := false;
      error := None;
      pendingReplyId := 0;
    }

    /** Typing into the text area, or clicking an example question. */
    method SetInput(text: string)
      requires Valid()
      modifies this`input
      ensures Valid() && input == text
    {
      input := text;
    }

    /** The part of `handleSubmit` before the awaited model call. An empty
        trimmed input or a pending call leaves everything unchanged. Otherwise
        the error is cleared and the input emptied; a medical or off-topic
        prompt appends the user message and the fixed reply with the next two
        ids; an on-topic prompt appends only the user message, sets the
        thinking flag and returns the conversation for the model, ids
        stripped. */
    method Submit() returns (route: Route, conversation: seq<Turn>)
      requires Valid()
      modifies this
      ensures Valid()
      ensures route == RouteFor(old(input), old(isThinking))
      ensures route == Ignored ==>
        && messages == old(messages) && input == old(input) && isThinking == old(isThinking)
        && error == old(error) && pendingReplyId == old(pendingReplyId)
      ensures route != Ignored ==> error == None && input == ""
      ensures route == Deflected ==>
        && !isThinking
        && messages == old(messages) + [Message(NextId(old(messages)), User, Trim(old(input))), Message(NextId(old(messages)) + 1, Assistant, DeflectText)]
      ensures route == Declined ==>
        && !isThinking
        && messages == old(messages) + [Message(NextId(old(messages)), User, Trim(old(input))), Message(NextId(old(messages)) + 1, Assistant, DeclineText)]
      ensures route == Asked ==>
        && messages == old(messages) + [Message(NextId(old(messages)), User, Trim(old(input)))]
        && isThinking && pendingReplyId == NextId(old(messages)) + 1
        && conversation == StripIds(messages)
      ensures route != Asked ==> conversation == []
    {
      route := RouteFor(input, isThinking);
      conversation := [];
      if route != Ignored {
        conversation := Dispatch(route, Trim(input));
      }
    }

    /** The effect of a submission that was not ignored, once routed, with
        `text` the trimmed prompt. */
    method Dispatch(route: Route, text: string) returns (conversation: seq<Turn>)
      requires Valid() && !isThinking && route != Ignored
      modifies this
      ensures Valid()
      ensures error == None && input == ""
      ensures route == Deflected ==>
        && !isThinking
        && messages == old(messages) + [Message(NextId(old(messages)), User, text), Message(NextId(old(messages)) + 1, Assistant, DeflectText)]
      ensures route == Declined ==>
        && !isThinking
        && messages == old(messages) + [Message(NextId(old(messages)), User, text), Message(NextId(old(messages)) + 1, Assistant, DeclineText)]
      ensures route == Asked ==>
        && messages == old(messages) + [Message(NextId(old(messages)), User, text)]
        && isThinking && pendingReplyId == NextId(old(messages)) + 1
        && conversation == StripIds(messages)
      ensures route != Asked ==> conversation == []
    {
      conversation := [];
      var userMessage := Message(NextId(messages), User, text);
      if route == Deflected {
        AnswerAtOnce(userMessage, DeflectText);
      } else if route == Declined {
        AnswerAtOnce(userMessage, DeclineText);
      } else {
        conversation := AskModel(userMessage);
      }
    }

    /** An on-topic prompt: the user message is appended, the input cleared
        and the thinking flag set, with the reply id captured. */
    method AskModel(userMessage: Message) returns (conversation: seq<Turn>)
      requires Valid() && !isThinking && userMessage.id == NextId(messages)
      modifies this`messages, this`input, this`error, this`isThinking, this`pendingReplyId
      ensures Valid()
      ensures messages == old(messages) + [userMessage] && input == "" && error == None
      ensures isThinking && pendingReplyId == userMessage.id + 1
      ensures conversation == StripIds(messages)
    {
      AppendNextKeepsIncreasing(messages, userMessage);
      messages := messages + [userMessage];
      input := "";
      error := None;
      isThinking := true;
      pendingReplyId := userMessage.id + 1;
      conversation := StripIds(messages);
    }

    /** A prompt answered without the model: the user message and the fixed
        reply are appended together, with consecutive ids, and the input is
        cleared. */
    method AnswerAtOnce(userMessage: Message, text: string)
      requires Valid() && !isThinking && userMessage.id == NextId(messages)
      modifies this`messages, this`input, this`error
      ensures Valid()
      ensures messages == old(messages) + [userMessage, Message(userMessage.id + 1, Assistant, text)]
      ensures input == "" && error == None
    {
      var assistantMessage := Message(userMessage.id + 1, Assistant, text);
      AppendNextKeepsIncreasing(messages, userMessage);
      AppendNextKeepsIncreasing(messages + [userMessage], assistantMessage);
      messages := messages + [userMessage, assistantMessage];
      input := "";
      error := None;
    }

    /** The part of `handleSubmit` after the awaited call: the reply is
        appended with the captured id and the thinking flag is cleared. The
        input, possibly edited meanwhile, and the error are left alone. */
    method Resolve(reply: string)
      requires Valid() && isThinking
      modifies this
      ensures Valid()
      ensures messages == old(messages) + [Message(old(pendingReplyId), Assistant, reply)]
      ensures !isThinking && input == old(input) && error == old(error)
    {
      AppendNextKeepsIncreasing(messages, Message(pendingReplyId, Assistant, reply));
      messages := messages + [Message(pendingReplyId, Assistant, reply)];
      isThinking := false;
    }

    /** One whole submission with the call resolved in between. Only an
        on-topic prompt reaches the model: it appends the user message and
        then the reply to the system instruction followed by the prior
        conversation and the new user message, and a request is sent only
        when a key is configured. The other routes send nothing. */
    method HandleSubmit(apiKey: Option<string>, outcome: Outcome) returns (route: Route, request: Option<seq<ApiMessage>>)
      requires Valid()
      modifies this
      ensures Valid()
      ensures route == RouteFor(old(input), old(isThinking))
      ensures route != Asked ==> request == None
      ensures route == Ignored ==>
        messages == old(messages) && input == old(input) && isThinking == old(isThinking) && error == old(error)
      ensures route == Deflected ==>
        && messages == old(messages) + [Message(NextId(old(messages)), User, Trim(old(input))), Message(NextId(old(messages)) + 1, Assistant, DeflectText)]
        && !isThinking && input == "" && error == None
      ensures route == Declined ==>
        && messages == old(messages) + [Message(NextId(old(messages)), User, Trim(old(input))), Message(NextId(old(messages)) + 1, Assistant, DeclineText)]
        && !isThinking && input == "" && error == None
      ensures route == Asked ==>
        var id := NextId(old(messages));
        var user := Message(id, User, Trim(old(input)));
        var answer := FetchPolicyAnswer(apiKey, StripIds(old(messages) + [user]), outcome);
        && messages == old(messages) + [user] + [Message(id + 1, Assistant, answer.reply)]
        && request == answer.request
        && !isThinking && input == "" && error == None
    {
      var conversation;
      route, conversation := Submit();
      request := None;
      if route == Asked {
        var answer := FetchPolicyAnswer(apiKey, conversation, outcome);
        Resolve(answer.reply);
        request := answer.request;
      }
    }
  }
}
