/**
 * The chat client's state machine (frontend/src/components/App.tsx): three state cells
 * (`prompt`, `loading`, `conversation`) driven by incoming WebSocket messages and by key presses
 * in the prompt box, and the two view derivations (paragraph class, input disabled).
 */
module ChatClient {
  import Decimal

  /** The frame that ends an answer. */
  const EndMarker: string := "End"
  /** The text API Gateway sends when the integration times out; such messages are not shown. */
  const TimeoutNotice: string := "Endpoint request timed out"

  datatype EntryType = Question | Answer

  /** One conversation item, `{text, type}`. */
  datatype Entry = Entry(text: string, entryType: EntryType)

  /** The JSON object handed to sendJsonMessage. */
  datatype OutMessage = OutMessage(action: string, data: string, token: string)

  /** The three state cells of the component. */
  datatype View = View(prompt: string, loading: bool, conversation: seq<Entry>)

  /** `part` occurs in `s` starting at position `i`. */
  predicate OccursAt(s: string, part: string, i: int) {
    0 <= i <= |s| - |part| && s[i..i + |part|] == part
  }

  /** `s.includes(part)` */
  predicate Contains(s: string, part: string) {
    exists i | 0 <= i <= |s| - |part| :: OccursAt(s, part, i)
  }

  /**
   * onMessage: "End" stops the spinner and adds nothing; a message that reports the gateway
   * timeout is dropped; anything else is appended as an answer. The prompt never changes, earlier
   * entries are kept, and at most one entry is added.
   */
  function AfterMessage(v: View, data: string): (v': View)
    ensures v'.prompt == v.prompt
    ensures v.conversation <= v'.conversation && |v'.conversation| <= |v.conversation| + 1
    ensures data == EndMarker ==> !v'.loading && v'.conversation == v.conversation
    ensures data != EndMarker ==> v'.loading == v.loading
    ensures data != EndMarker && Contains(data, TimeoutNotice) ==> v' == v
    ensures data != EndMarker && !Contains(data, TimeoutNotice)
            ==> v'.conversation == v.conversation + [Entry(data, Answer)]
  {
    if data != EndMarker then
      if !Contains(data, TimeoutNotice) then v.(conversation := v.conversation + [Entry(data, Answer)])
      else v
    else
      v.(loading := false)
  }

  /**
   * sendPrompt's effect on the state: any key but Enter changes nothing; Enter turns the spinner on,
   * records the prompt as a question at the end of the conversation and clears the prompt box.
   */
  function AfterKey(v: View, key: string): (v': View)
    ensures key != "Enter" ==> v' == v
    ensures key == "Enter" ==> v'.loading && v'.prompt == ""
    ensures key == "Enter" ==> v'.conversation == v.conversation + [Entry(v.prompt, Question)]
    ensures v.conversation <= v'.conversation && |v'.conversation| <= |v.conversation| + 1
  {
    if key != "Enter" then v
    else View("", true, v.conversation + [Entry(v.prompt, Question)])
  }

  /** sendPrompt's messages: none for other keys, one `ask` carrying the prompt and token for Enter. */
  function SentOnKey(v: View, key: string, token: string): (sent: seq<OutMessage>)
    ensures |sent| == (if key == "Enter" then 1 else 0)
    ensures sent != [] ==> sent[0] == OutMessage("ask", v.prompt, token)
  {
    if key != "Enter" then [] else [OutMessage("ask", v.prompt, token)]
  }

  /** The input box's onChange: the prompt becomes the box's text; nothing else changes. */
  function AfterEdit(v: View, value: string): (v': View)
    ensures v'.prompt == value && v'.loading == v.loading && v'.conversation == v.conversation
  {
    v.(prompt := value)
  }

  /**
   * What happens to the component: a WebSocket message, an edit of the input box, or a key press
   * with the id token current at that moment.
   */
  datatype Input = Message(data: string) | Edit(value: string) | KeyDown(key: string, token: string)

  function Step(v: View, input: Input): View {
    match input
    case Message(data) => AfterMessage(v, data)
    case Edit(value) => AfterEdit(v, value)
    case KeyDown(key, _) => AfterKey(v, key)
  }

  function Run(v: View, inputs: seq<Input>): View
    decreases |inputs|
  {
    if inputs == [] then v else Run(Step(v, inputs[0]), inputs[1..])
  }

  /** No input ever removes or rewrites an entry, and each adds at most one. */
  lemma {:induction false} RunKeepsHistory(v: View, inputs: seq<Input>)
    ensures v.conversation <= Run(v, inputs).conversation
    ensures |Run(v, inputs).conversation| <= |v.conversation| + |inputs|
    decreases |inputs|
  {
    if inputs != [] {
      RunKeepsHistory(Step(v, inputs[0]), inputs[1..]);
    }
  }

  /** Once loading, the client stays loading (the input stays disabled) until an "End" message arrives. */
  lemma {:induction false} LoadingUntilEnd(v: View, inputs: seq<Input>)
    requires v.loading
    requires forall i :: 0 <= i < |inputs| ==> inputs[i] != Message(EndMarker)
    ensures Run(v, inputs).loading
    decreases |inputs|
  {
    if inputs != [] {
      LoadingUntilEnd(Step(v, inputs[0]), inputs[1..]);
    }
  }

  /** A paragraph of the chat box: React key, CSS class and text. */
  datatype Paragraph = Paragraph(key: string, className: string, text: string)

  /** What the component shows: the paragraphs, and the prompt input's value and disabled flag. */
  datatype Screen = Screen(paragraphs: seq<Paragraph>, inputValue: string, inputDisabled: bool)

  /** The class of a rendered entry: 'question' for questions, 'answer' for everything else. */
  function EntryClass(e: Entry): (c: string)
    ensures c == "question" <==> e.entryType == Question
    ensures c == "answer" <==> e.entryType != Question
  {
    if e.entryType == Question then "question" else "answer"
  }

  function ChatKey(index: nat): string {
    "chatmsg" + Decimal.DecimalString(index)
  }

  /** The keys 'chatmsg' + index of different positions differ. */
  lemma ChatKeysDistinct(n: nat)
    ensures forall i, j :: 0 <= i < j < n ==> ChatKey(i) != ChatKey(j)
  {
    forall i, j | 0 <= i < j < n
      ensures ChatKey(i) != ChatKey(j)
    {
      if ChatKey(i) == ChatKey(j) {
        var p := "chatmsg";
        assert ChatKey(i)[|p|..] == Decimal.DecimalString(i);
        assert ChatKey(j)[|p|..] == Decimal.DecimalString(j);
        Decimal.DecimalStringInjective(i, j);
      }
    }
  }

  /**
   * The rendering: one paragraph per entry, in order, with its text and its class; the keys are
   * pairwise distinct; the input shows the prompt and is disabled exactly while loading.
   */
  function Render(v: View): (s: Screen)
    ensures |s.paragraphs| == |v.conversation|
    ensures forall i :: 0 <= i < |v.conversation| ==>
      s.paragraphs[i].text == v.conversation[i].text && s.paragraphs[i].className == EntryClass(v.conversation[i])
    ensures forall i, j :: 0 <= i < j < |s.paragraphs| ==> s.paragraphs[i].key != s.paragraphs[j].key
    ensures s.inputValue == v.prompt
    ensures s.inputDisabled <==> v.loading
  {
    ChatKeysDistinct(|v.conversation|);
    var paragraphs := seq(|v.conversation|, i requires 0 <= i < |v.conversation| =>
      Paragraph(ChatKey(i), EntryClass(v.conversation[i]), v.conversation[i].text));
    Screen(paragraphs, v.prompt, v.loading)
  }

  /** The component instance: its three state cells and the messages it has sent over the socket. */
  class App {
    var prompt: string
    var loading: bool
    var conversation: seq<Entry>
    var sent: seq<OutMessage>

    constructor ()
      ensures prompt == "" && !loading && conversation == [] && sent == []
    {
      prompt := "";
      loading := false;
      conversation := [];
      sent := [];
    }

    function State(): View
      reads this
    {
      View(prompt, loading, conversation)
    }

    /** onMessage: sets the cells as `AfterMessage` says and sends nothing. */
    method OnMessage(data: string)
      modifies this
      ensures State() == AfterMessage(old(State()), data)
      ensures sent == old(sent)
    {
      if data != EndMarker {
        if !Contains(data, TimeoutNotice) {
          conversation := conversation + [Entry(data, Answer)];
        }
      } else {
        loading := false;
      }
    }

    /** onChange of the input box. */
    method OnChange(value: string)
      modifies this
      ensures State() == AfterEdit(old(State()), value)
      ensures sent == old(sent)
    {
      prompt := value;
    }

    /** sendPrompt: on Enter, spinner on, one `ask` sent, question recorded, prompt cleared. */
    method SendPrompt(key: string, token: string)
      modifies this
      ensures State() == AfterKey(old(State()), key)
      ensures sent == old(sent) + SentOnKey(old(State()), key, token)
    {
      if key != "Enter" {
        return;
      }
      loading := true;
      sent := sent + [OutMessage("ask", prompt, token)];
      conversation := conversation + [Entry(prompt, Question)];
      prompt := "";
    }
  }
}
