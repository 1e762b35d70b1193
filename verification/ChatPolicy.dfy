/**
 * The pure parts of the chat page: the two keyword classifiers, the message
 * list sent to the model, and the reduction of the model's answer (or of the
 * failure to get one) to a single reply string.
 */
module ChatPolicy {
  import opened JsString

  datatype Option<T> = None | Some(value: T)

  datatype Role = System | User | Assistant

  /** Chat messages only ever carry the user or assistant role. */
  type ChatRole = r: Role | r != System witness User

  /** A message of the conversation; `id` orders the list. */
  datatype Message = Message(id: int, role: ChatRole, text: string)

  /** A message with its id stripped, as handed to the model call. */
  datatype Turn = Turn(role: ChatRole, text: string)

  /** One entry of the request's `messages` array. */
  datatype ApiMessage = ApiMessage(role: Role, content: string)

  /** One element of an array-shaped `content`: a null element, or an object
      whose `text` may be missing. */
  datatype Segment = NullSegment | Segment(text: Option<string>)

  /** What `choices[0].message.content` turned out to be: missing or null
      anywhere along the path, a string, an array of segments, or any other
      value. */
  datatype Content = Absent | Text(s: string) | Segments(segments: seq<Segment>) | OtherShape

  /** The body of an HTTP response: not JSON at all, or JSON with a content field. */
  datatype Body = Malformed | Json(content: Content)

  /** The outcome of the POST to the chat-completion endpoint. */
  datatype Outcome = TransportFailure | HttpResponse(ok: bool, body: Body)

  /** What one model call produced: the request that was sent, if any, and the reply. */
  datatype Fetch = Fetch(request: Option<seq<ApiMessage>>, reply: string)

  const WelcomeText: string := "Welcome to the Policy Lens chatbot. I can answer simple, educational questions about cancer policy, insurance barriers, and how advocacy can improve access to screening\U{2014}not medical or personal health questions."

  const DeflectText: string := "I\U{2019}m here to explain cancer policy, not to give medical advice. For questions about your health, test results, or what you personally should do, please talk with a health care professional who knows your situation."

  const DeclineText: string := "This chatbot is focused on cancer policy, insurance barriers, and access to screening. I\U{2019}m not able to answer questions outside of that topic."

  const MissingKeyText: string := "The policy chatbot is not fully configured yet because an API key is missing. Please check the environment settings."

  const UnreachableText: string := "I could not reach the policy model right now. Please try again in a moment."

  const NoContentText: string := "I had trouble generating a response. Please try asking your question again."

  const TryAgainText: string := "I had trouble generating a response. Please try again."

  const FailureText: string := "Something went wrong while contacting the policy model. Please check your connection and try again."

  /** The system instruction sent ahead of every conversation, sentence by
      sentence; its sentences are joined by single spaces. */
  const PromptRole: string := "You are an educational assistant for the Policy Lens cancer policy web app."
  const PromptJob: string := "Your job is to explain cancer policy in simple, calm language for students and community members with no prior knowledge."
  const PromptFocus: string := "Focus on: cancer screening basics, how insurance rules affect access, how policies can improve or limit access for urban, suburban, and underserved communities, and what advocacy groups like the American Cancer Society Cancer Action Network (ACS CAN) work toward."
  const PromptLimits: string := "You must NOT give medical advice, interpret test results, or tell people what they personally should do."
  const PromptReferral: string := "For any medical or diagnostic question, politely say you cannot answer and encourage the user to talk with a health care professional."
  const PromptStyle: string := "Keep answers short, clear, and free of jargon."
  const SystemPrompt: string :=
    PromptRole + " " + PromptJob + " " + PromptFocus
    + " " + PromptLimits + " " + PromptReferral + " " + PromptStyle

  /** The fifteen markers of a personal medical question. */
  const MedicalMarkers: seq<string> := [
    "should i", "my doctor", "symptom", "diagnose", "diagnosis", "treat", "treatment",
    "screening result", "test result", "stage ", "what should i do", "ct scan", "mri",
    "chemotherapy", "radiation"
  ]

  /** The fourteen markers of a cancer policy question. */
  const PolicyMarkers: seq<string> := [
    "policy", "insurance", "medicaid", "medicare", "coverage", "screening",
    "preventive care", "access to care", "underserved", "rural", "equity", "acs ",
    "acs can", "american cancer society"
  ]

  /** `s` contains at least one of the markers. */
  predicate IncludesAny(s: string, markers: seq<string>)
  {
    exists i :: 0 <= i < |markers| && Includes(s, markers[i])
  }

  /** `looksMedicalQuestion`: true exactly when the lower-cased prompt contains
      one of the medical markers. */
  function LooksMedicalQuestion(prompt: string): bool
  {
    var lower := Lower(prompt);
    || Includes(lower, "should i")
    || Includes(lower, "my doctor")
    || Includes(lower, "symptom")
    || Includes(lower, "diagnose")
    || Includes(lower, "diagnosis")
    || Includes(lower, "treat")
    || Includes(lower, "treatment")
    || Includes(lower, "screening result")
    || Includes(lower, "test result")
    || Includes(lower, "stage ")
    || Includes(lower, "what should i do")
    || Includes(lower, "ct scan")
    || Includes(lower, "mri")
    || Includes(lower, "chemotherapy")
    || Includes(lower, "radiation")
  }

  /** `looksLikeCancerPolicyQuestion`: true exactly when the lower-cased prompt
      contains one of the policy markers. */
  function LooksLikeCancerPolicyQuestion(prompt: string): bool
  {
    var lower := Lower(prompt);
    || Includes(lower, "policy")
    || Includes(lower, "insurance")
    || Includes(lower, "medicaid")
    || Includes(lower, "medicare")
    || Includes(lower, "coverage")
    || Includes(lower, "screening")
    || Includes(lower, "preventive care")
    || Includes(lower, "access to care")
    || Includes(lower, "underserved")
    || Includes(lower, "rural")
    || Includes(lower, "equity")
    || Includes(lower, "acs ")
    || Includes(lower, "acs can")
    || Includes(lower, "american cancer society")
  }

  /** The medical classifier is the list classifier over the fifteen markers. */
  lemma LooksMedicalIff(prompt: string)
    ensures LooksMedicalQuestion(prompt) <==> IncludesAny(Lower(prompt), MedicalMarkers)
  {
    var m := MedicalMarkers;
    assert |m| == 15;
    assert m[0] == "should i" && m[1] == "my doctor" && m[2] == "symptom" && m[3] == "diagnose";
    assert m[4] == "diagnosis" && m[5] == "treat" && m[6] == "treatment" && m[7] == "screening result";
    assert m[8] == "test result" && m[9] == "stage " && m[10] == "what should i do" && m[11] == "ct scan";
    assert m[12] == "mri" && m[13] == "chemotherapy" && m[14] == "radiation";
    if i :| 0 <= i < |m| && Includes(Lower(prompt), m[i]) {
      assert i in {0, 1, 2, 3, 4, 5, 6, 7, 8, 9, 10, 11, 12, 13, 14};
    }
  }

  /** The policy classifier is the list classifier over the fourteen markers. */
  lemma LooksPolicyIff(prompt: string)
    ensures LooksLikeCancerPolicyQuestion(prompt) <==> IncludesAny(Lower(prompt), PolicyMarkers)
  {
    var m := PolicyMarkers;
    assert |m| == 14;
    assert m[0] == "policy" && m[1] == "insurance" && m[2] == "medicaid" && m[3] == "medicare";
    assert m[4] == "coverage" && m[5] == "screening" && m[6] == "preventive care" && m[7] == "access to care";
    assert m[8] == "underserved" && m[9] == "rural" && m[10] == "equity" && m[11] == "acs ";
    assert m[12] == "acs can" && m[13] == "american cancer society";
    if i :| 0 <= i < |m| && Includes(Lower(prompt), m[i]) {
      assert i in {0, 1, 2, 3, 4, 5, 6, 7, 8, 9, 10, 11, 12, 13};
    }
  }

  /** Both classifiers ignore case: classifying the lower-cased prompt gives
      the same answer as classifying the prompt. */
  lemma ClassifiersIgnoreCase(prompt: string)
    ensures LooksMedicalQuestion(Lower(prompt)) == LooksMedicalQuestion(prompt)
    ensures LooksLikeCancerPolicyQuestion(Lower(prompt)) == LooksLikeCancerPolicyQuestion(prompt)
  {
    LowerIdempotent(prompt);
  }

  /** A prompt mentioning a screening result matches both lists. */
  lemma ScreeningResultMatchesBoth(prompt: string)
    requires Includes(Lower(prompt), "screening result")
    ensures LooksMedicalQuestion(prompt) && LooksLikeCancerPolicyQuestion(prompt)
  {
    assert Includes("screening result", "screening") by {
      assert OccursAt("screening result", "screening", 0);
    }
    IncludesTransitive(Lower(prompt), "screening result", "screening");
  }

  /** Three markers are implied by shorter ones on the same list: "treatment"
      by "treat", "what should i do" by "should i", "acs can" by "acs ". */
  lemma RedundantMarkers(s: string)
    ensures Includes(s, "treatment") ==> Includes(s, "treat")
    ensures Includes(s, "what should i do") ==> Includes(s, "should i")
    ensures Includes(s, "acs can") ==> Includes(s, "acs ")
  {
    assert OccursAt("treatment", "treat", 0);
    assert OccursAt("what should i do", "should i", 5);
    assert OccursAt("acs can", "acs ", 0);
    if Includes(s, "treatment") { IncludesTransitive(s, "treatment", "treat"); }
    if Includes(s, "what should i do") { IncludesTransitive(s, "what should i do", "should i"); }
    if Includes(s, "acs can") { IncludesTransitive(s, "acs can", "acs "); }
  }

  /** The "acs " marker needs the trailing space: the bare word is not a
      policy question, while "ACS CAN" is. */
  lemma AcsNeedsTrailingSpace()
    ensures !LooksLikeCancerPolicyQuestion("ACS")
    ensures LooksLikeCancerPolicyQuestion("ACS CAN")
  {
    var can := Lower("ACS CAN");
    assert can[0] == 'a' && can[1] == 'c' && can[2] == 's' && can[3] == ' ';
    assert OccursAt(can, "acs ", 0);
    var bare := Lower("ACS");
    assert |bare| == 3;
  }

  /** The conversation with ids stripped, as built before the model call. */
  function StripIds(messages: seq<Message>): (r: seq<Turn>)
    ensures |r| == |messages|
    ensures forall i :: 0 <= i < |messages| ==> r[i] == Turn(messages[i].role, messages[i].text)
  {
    if messages == [] then [] else [Turn(messages[0].role, messages[0].text)] + StripIds(messages[1..])
  }

  /** Each turn as a role/content pair, in order. */
  function ToApi(conversation: seq<Turn>): (r: seq<ApiMessage>)
    ensures |r| == |conversation|
    ensures forall i :: 0 <= i < |conversation| ==> r[i] == ApiMessage(conversation[i].role, conversation[i].text)
  {
    if conversation == [] then []
    else [ApiMessage(conversation[0].role, conversation[0].text)] + ToApi(conversation[1..])
  }

  /** `messagesForApi`: the system instruction, then the conversation in order.
      The system instruction is the only system-role entry. */
  function MessagesForApi(conversation: seq<Turn>): (r: seq<ApiMessage>)
    ensures |r| == |conversation| + 1
    ensures r[0] == ApiMessage(System, SystemPrompt)
    ensures forall i :: 0 <= i < |conversation| ==> r[i + 1] == ApiMessage(conversation[i].role, conversation[i].text)
    ensures forall i :: 1 <= i < |r| ==> r[i].role != System
  {
    [ApiMessage(System, SystemPrompt)] + ToApi(conversation)
  }

  /** `segment.text ?? ''` for a non-null segment. */
  function TextOrEmpty(segment: Segment): string
    requires segment.Segment?
  {
    match segment.text
    case None => ""
    case Some(s) => s
  }

  /** The texts of the segments, or None when reading `.text` of a null
      element throws. */
  function SegmentTexts(segments: seq<Segment>): (r: Option<seq<string>>)
    ensures r.None? <==> exists i :: 0 <= i < |segments| && segments[i].NullSegment?
    ensures r.Some? ==>
      (|r.value| == |segments|
      && forall i :: 0 <= i < |segments| ==> segments[i].Segment? && r.value[i] == TextOrEmpty(segments[i]))
  {
    if segments == [] then Some([])
    else match segments[0]
      case NullSegment => None
      case Segment(_) =>
        match SegmentTexts(segments[1..])
        case None => None
        case Some(rest) => Some([TextOrEmpty(segments[0])] + rest)
  }

  /** The only outcome that can produce an empty reply: an ok response whose
      content is a string of whitespace. */
  predicate BlankTextContent(outcome: Outcome)
  {
    outcome.HttpResponse? && outcome.ok && outcome.body.Json?
    && outcome.body.content.Text? && AllWhitespace(outcome.body.content.s)
  }

  /** The reply read from the content of an ok response: a string is
      trimmed, an absent content gives the trimmed no-content text, an array
      gives its texts joined and trimmed or, when that is empty, the try-again
      text; a null array element throws, which gives the failure text. The
      reply is empty only for blank string content. */
  function ContentReply(content: Content): (r: string)
    ensures IsTrimmed(r) || r == FailureText || r == TryAgainText
    ensures r == [] <==> content.Text? && AllWhitespace(content.s)
    ensures content.Text? ==> r == Trim(content.s)
    ensures content.Absent? ==> r == Trim(NoContentText)
    ensures content.OtherShape? ==> r == TryAgainText
  {
    match content
    case Absent =>
      NoContentNotBlank();
      Trim(NoContentText)
    case Text(s) => Trim(s)
    case Segments(segments) => (
      match SegmentTexts(segments)
      case None => FailureText
      case Some(texts) =>
        var joined := Trim(Join(texts, " "));
        if joined == "" then TryAgainText else joined)
    case OtherShape => TryAgainText
  }

  /** The no-content text ends in a full stop, so it is not blank. */
  lemma NoContentNotBlank()
    ensures !AllWhitespace(NoContentText)
  {
    var last := |NoContentText| - 1;
    assert NoContentText[last] == '.';
    assert !IsWhitespace(NoContentText[last]);
  }

  /** The reply extraction of `fetchPolicyAnswer` once the request is sent.
      A transport failure or an unparsable body gives the failure text, a
      non-ok status the unreachable text; any other reply is one of the
      fallback texts or trimmed, and it is empty only for an ok response whose
      content is a blank string. */
  function ExtractReply(outcome: Outcome): (r: string)
    ensures outcome.TransportFailure? ==> r == FailureText
    ensures outcome.HttpResponse? && !outcome.ok ==> r == UnreachableText
    ensures outcome.HttpResponse? && outcome.ok && outcome.body.Malformed? ==> r == FailureText
    ensures outcome.HttpResponse? && outcome.ok && outcome.body.Json? ==> r == ContentReply(outcome.body.content)
    ensures IsTrimmed(r) || r in {FailureText, UnreachableText, TryAgainText}
    ensures r == [] <==> BlankTextContent(outcome)
  {
    match outcome
    case TransportFailure => FailureText
    case HttpResponse(ok, body) =>
      if !ok then UnreachableText
      else match body
        case Malformed => FailureText
        case Json(content) => ContentReply(content)
  }

  /** Array content falls back to the fixed text exactly when every segment's
      text is missing or blank; otherwise the reply is the texts joined by
      single spaces and trimmed. */
  lemma SegmentsReply(segments: seq<Segment>)
    requires forall i :: 0 <= i < |segments| ==> segments[i].Segment?
    ensures var texts := seq(|segments|, i requires 0 <= i < |segments| => TextOrEmpty(segments[i]));
      var r := ExtractReply(HttpResponse(true, Json(Segments(segments))));
      && ((forall i :: 0 <= i < |segments| ==> AllWhitespace(TextOrEmpty(segments[i]))) ==> r == TryAgainText)
      && (!(forall i :: 0 <= i < |segments| ==> AllWhitespace(TextOrEmpty(segments[i]))) ==> r == Trim(Join(texts, " ")) && r != [])
  {
    var texts := seq(|segments|, i requires 0 <= i < |segments| => TextOrEmpty(segments[i]));
    var got := SegmentTexts(segments);
    assert got.Some?;
    assert got.value == texts;
    assert AllWhitespace(" ");
    JoinAllWhitespace(texts, " ");
  }

  /** A null element in array content makes the extraction throw, and the
      reply is the connection failure text. */
  lemma NullSegmentFails(segments: seq<Segment>, k: nat)
    requires k < |segments| && segments[k].NullSegment?
    ensures ExtractReply(HttpResponse(true, Json(Segments(segments)))) == FailureText
  {
  }

  /** The fixed replies are pairwise distinct, so the user can tell every
      outcome apart. */
  lemma FixedRepliesDistinct()
    ensures |{DeflectText, DeclineText, MissingKeyText, UnreachableText, NoContentText, TryAgainText, FailureText}| == 7
  {
  }

  /** `!apiKey`: an absent key and an empty key both count as missing. */
  predicate KeyMissing(apiKey: Option<string>)
  {
    apiKey.None? || apiKey.value == ""
  }

  /** `fetchPolicyAnswer`: without a key, the configuration message and no
      request; with one, exactly one request (the system instruction followed
      by the conversation) and the extracted reply. The reply is empty only
      when a request was answered with blank string content. */
  function FetchPolicyAnswer(apiKey: Option<string>, conversation: seq<Turn>, outcome: Outcome): (r: Fetch)
    ensures r.request.None? <==> KeyMissing(apiKey)
    ensures r.request.None? ==> r.reply == MissingKeyText
    ensures r.request.Some? ==> r.request.value == MessagesForApi(conversation) && r.reply == ExtractReply(outcome)
    ensures r.reply == [] <==> r.request.Some? && BlankTextContent(outcome)
  {
    if KeyMissing(apiKey) then Fetch(None, MissingKeyText)
    else Fetch(Some(MessagesForApi(conversation)), ExtractReply(outcome))
  }
}
