/**
  The chat-session controller of the "Ask AI" panel (client/src/components/AIPanel/AIPanel.tsx):
  the message log, the wire history projected from it, the reply-text fallback chain,
  the suggestion shuffle, the build-info toggle and the display mode, and a `Session`
  class whose fields are the component's state variables.
 */
module AIPanel {
  import opened Wrappers
  import opened JsText

  // ---------------------------------------------------------------------------
  // Messages and the wire history
  // ---------------------------------------------------------------------------

  datatype Sender = User | Assistant

  /** One chat bubble.  `id` is the clock reading the source turns into a string;
      the display timestamp is not modelled. */
  datatype Message = Message(id: nat, text: string, sender: Sender)

  /** One `{role, content}` entry of the request's `history`. */
  datatype Turn = Turn(role: string, content: string)

  /** The JSON body posted to `/api/ask`. */
  datatype Request = Request(message: string, history: seq<Turn>)

  function Role(s: Sender): string {
    if s == User then "user" else "assistant"
  }

  function ToTurn(m: Message): Turn {
    Turn(Role(m.sender), m.text)
  }

  /** `messages.map(msg => ({role: ..., content: msg.text}))` */
  function History(ms: seq<Message>): seq<Turn> {
    if ms == [] then [] else [ToTurn(ms[0])] + History(ms[1..])
  }

  /** The history has one entry per message, in log order, and each entry carries
      the message's role and text. */
  lemma {:induction false} HistoryAt(ms: seq<Message>)
    ensures |History(ms)| == |ms|
    ensures forall i :: 0 <= i < |ms| ==>
              History(ms)[i] == Turn(if ms[i].sender == User then "user" else "assistant", ms[i].text)
  {
    if ms != [] {
      HistoryAt(ms[1..]);
      assert History(ms) == [ToTurn(ms[0])] + History(ms[1..]);
      forall i | 1 <= i < |ms|
        ensures History(ms)[i] == ToTurn(ms[i])
      {
        assert ms[1..][i - 1] == ms[i];
      }
    }
  }

  /** Appending a message to the log appends exactly its entry to the history. */
  lemma HistoryAppend(ms: seq<Message>, m: Message)
    ensures History(ms + [m]) == History(ms) + [ToTurn(m)]
  {
    HistoryAt(ms);
    HistoryAt(ms + [m]);
    assert (ms + [m])[|ms|] == m;
    forall i | 0 <= i < |ms| ensures History(ms + [m])[i] == History(ms)[i] {
      assert (ms + [m])[i] == ms[i];
    }
  }

  /** Every role in a history is "user" or "assistant". */
  lemma HistoryRoles(ms: seq<Message>)
    ensures forall t :: t in History(ms) ==> t.role == "user" || t.role == "assistant"
  {
    HistoryAt(ms);
  }

  // ---------------------------------------------------------------------------
  // Replies and the text fallback chain
  // ---------------------------------------------------------------------------

  /** The value `response.json()` produced.  `Null` is JSON `null`; `Obj` is any
      other non-string value: its `text` and `response` properties when they hold a
      string (`None` for null or undefined) and its `JSON.stringify` form, which the
      model takes as given.  Numbers, booleans and arrays are `Obj(None, None, ...)`. */
  datatype Payload =
    | Str(s: string)
    | Null
    | Obj(text: Option<string>, response: Option<string>, serialized: string)

  /** How the awaited call ended: a parsed body, or a rejection of `fetch` or of
      `response.json()`. */
  datatype Outcome = Received(data: Payload) | Failed

  const ErrorText: string := "There was an error"

  /** `typeof data === "string" ? data : (data.text ?? data.response ?? JSON.stringify(data))`;
      `None` when the expression throws (reading a property of `null`). */
  function ExtractText(p: Payload): (r: Option<string>)
    ensures r.None? <==> p.Null?
    ensures p.Str? ==> r == Some(p.s)
    ensures p.Obj? && p.text.Some? ==> r == p.text
    ensures p.Obj? && p.text.None? && p.response.Some? ==> r == p.response
    ensures p.Obj? && p.text.None? && p.response.None? ==> r == Some(p.serialized)
  {
    match p
    case Str(s) => Some(s)
    case Null => None
    case Obj(text, response, serialized) =>
      Some(if text.Some? then text.value
           else if response.Some? then response.value
           else serialized)
  }

  /** The text of the assistant bubble a completion appends: the extracted text, or
      the fixed error text when the call failed or the extraction threw. */
  function ReplyText(o: Outcome): (r: string)
    ensures o.Failed? ==> r == ErrorText
    ensures o.Received? && o.data.Null? ==> r == ErrorText
    ensures o.Received? && !o.data.Null? ==> Some(r) == ExtractText(o.data)
  {
    match o
    case Failed => ErrorText
    case Received(p) =>
      match ExtractText(p)
      case Some(t) => t
      case None => ErrorText
  }

  /** The ways of reading a display string out of a payload, in the order the source
      tries them; each either yields a string or gives way to the next. */
  datatype Extractor = WholeString | TextField | ResponseField | Stringify

  function Try(e: Extractor, p: Payload): Option<string> {
    match e
    case WholeString => if p.Str? then Some(p.s) else None
    case TextField => if p.Obj? then p.text else None
    case ResponseField => if p.Obj? then p.response else None
    case Stringify => if p.Obj? then Some(p.serialized) else None
  }

  /** The first extractor of `es` that yields a string. */
  function FirstSuccess(es: seq<Extractor>, p: Payload): Option<string> {
    if es == [] then None
    else if Try(es[0], p).Some? then Try(es[0], p)
    else FirstSuccess(es[1..], p)
  }

  const FallbackChain: seq<Extractor> := [WholeString, TextField, ResponseField, Stringify]

  /** The source's expression is the ordered fallback chain, and for any payload but
      `null` the chain always ends with some string. */
  lemma ExtractTextIsFallbackChain(p: Payload)
    ensures ExtractText(p) == FirstSuccess(FallbackChain, p)
    ensures !p.Null? ==> FirstSuccess(FallbackChain, p).Some?
  {
    var c := FallbackChain;
    if p.Obj? {
      assert c[1..] == [TextField, ResponseField, Stringify];
      assert c[1..][1..] == [ResponseField, Stringify];
      assert c[1..][1..][1..] == [Stringify];
      assert FirstSuccess([Stringify], p) == Some(p.serialized);
      assert FirstSuccess(c[1..][1..], p) == if p.response.Some? then p.response else Some(p.serialized);
      assert FirstSuccess(c[1..], p) == ExtractText(p);
    }
  }

  /** The server answers `{"response": answer}`, which takes the `response` branch. */
  lemma ServerReplyShowsAnswer(answer: string, serialized: string)
    ensures ReplyText(Received(Obj(None, Some(answer), serialized))) == answer
  {
  }

  // ---------------------------------------------------------------------------
  // Suggestions
  // ---------------------------------------------------------------------------

  /** The fixed catalog of example prompts. */
  const Suggestions: seq<string> := [
    "Describe a UI Bart built — problem, tech, tradeoffs.",
    "How does Bart make UIs fast, accessible, and cross-device?",
    "Share a time Bart and a designer or PM disagreed — what happened and outcome?",
    "Would this person be good for a Series B startup with messy data infrastructure?",
    "Tell me about their biggest failure.",
    "What kind of leadership experience do they have?",
    "How do they approach UI/UX design and development?"
  ]

  /** `s` holds the entries of `catalog`, each exactly as often as `catalog` does. */
  predicate IsOrderOf(s: seq<string>, catalog: seq<string>) {
    multiset(s) == multiset(catalog)
  }

  /** The random reordering, with the randomness as input: each position takes the
      entry at index `choices[j] mod (entries left)` of what is left of `pool`. */
  function Shuffle(pool: seq<string>, choices: seq<nat>): (r: seq<string>)
    ensures multiset(r) == multiset(pool)
    ensures |r| == |pool|
    decreases |pool|
  {
    if pool == [] then []
    else
      var k := (if choices == [] then 0 else choices[0]) % |pool|;
      var rest := pool[..k] + pool[k + 1..];
      assert pool == pool[..k] + [pool[k]] + pool[k + 1..];
      [pool[k]] + Shuffle(rest, if choices == [] then [] else choices[1..])
  }

  /** Taking out the entry at `k` takes one copy of it out of the multiset. */
  lemma RemoveAtMultiset(pool: seq<string>, k: nat)
    requires k < |pool|
    ensures multiset(pool[..k] + pool[k + 1..]) == multiset(pool) - multiset{pool[k]}
  {
    assert pool == pool[..k] + [pool[k]] + pool[k + 1..];
  }

  /** A first choice below the pool size picks exactly that entry. */
  lemma ShuffleStep(pool: seq<string>, choices: seq<nat>)
    requires choices != [] && choices[0] < |pool|
    ensures Shuffle(pool, choices)
         == [pool[choices[0]]] + Shuffle(pool[..choices[0]] + pool[choices[0] + 1..], choices[1..])
  {
    var k := choices[0];
    SmallModulus(k, |pool|);
    assert Shuffle(pool, choices) == [pool[k]] + Shuffle(pool[..k] + pool[k + 1..], choices[1..]);
  }

  lemma SmallModulus(x: nat, n: nat)
    requires x < n
    ensures x % n == x
  {
  }

  /** The first entry of an ordering of `pool` sits somewhere in `pool`, and what is
      left on both sides is again an ordering of the other. */
  lemma PickFirst(pool: seq<string>, target: seq<string>) returns (k: nat)
    requires multiset(target) == multiset(pool) && target != []
    ensures k < |pool| && pool[k] == target[0]
    ensures multiset(target[1..]) == multiset(pool[..k] + pool[k + 1..])
  {
    assert target[0] in multiset(pool);
    assert target[0] in pool;
    k :| 0 <= k < |pool| && pool[k] == target[0];
    RemoveAtMultiset(pool, k);
    RemoveAtMultiset(target, 0);
    assert target[..0] + target[1..] == target[1..];
  }

  lemma PrependChoice(pool: seq<string>, target: seq<string>, k: nat, tail: seq<nat>)
    requires target != [] && k < |pool| && pool[k] == target[0]
    requires Shuffle(pool[..k] + pool[k + 1..], tail) == target[1..]
    ensures Shuffle(pool, [k] + tail) == target
  {
    assert ([k] + tail)[1..] == tail;
    ShuffleStep(pool, [k] + tail);
    assert target == [target[0]] + target[1..];
  }

  /** Every ordering of the pool is produced by some choice of random inputs. */
  lemma {:induction false} EveryOrderReachable(pool: seq<string>, target: seq<string>)
    returns (choices: seq<nat>)
    requires multiset(target) == multiset(pool)
    ensures Shuffle(pool, choices) == target
    decreases |pool|
  {
    if target == [] {
      assert |pool| == |multiset(pool)| == 0;
      choices := [];
    } else {
      var k := PickFirst(pool, target);
      var tail := EveryOrderReachable(pool[..k] + pool[k + 1..], target[1..]);
      choices := [k] + tail;
      PrependChoice(pool, target, k, tail);
    }
  }

  /** No catalog entry is blank, so a suggestion click is always accepted. */
  lemma CatalogNotBlank(k: nat)
    requires k < |Suggestions|
    ensures !IsBlank(Suggestions[k])
  {
    var s := Suggestions[k];
    assert s[|s| - 1] == '.' || s[|s| - 1] == '?';
    NotBlankWhenEndsSolid(s);
  }

  /** An entry of a catalog ordering is a catalog entry, hence not blank. */
  lemma OrderEntryNotBlank(s: seq<string>, k: nat)
    requires IsOrderOf(s, Suggestions) && k < |s|
    ensures !IsBlank(s[k])
  {
    assert s[k] in multiset(Suggestions);
    var j :| 0 <= j < |Suggestions| && Suggestions[j] == s[k];
    CatalogNotBlank(j);
  }

  // ---------------------------------------------------------------------------
  // Display mode
  // ---------------------------------------------------------------------------

  datatype Mode = BuildInfo | Welcome | Chat

  /** The content area: build info when it is toggled on, else the welcome screen with
      its suggestions while the log is empty, else the chat history. */
  function ModeOf(showBuildInfo: bool, messages: seq<Message>): Mode {
    if showBuildInfo then BuildInfo else if |messages| == 0 then Welcome else Chat
  }

  /** Exactly one view is on screen: build info whenever it is toggled on, otherwise
      the welcome screen for an empty log and the chat history for a non-empty one. */
  lemma ModeCharacterization(showBuildInfo: bool, messages: seq<Message>)
    ensures ModeOf(showBuildInfo, messages) == BuildInfo <==> showBuildInfo
    ensures ModeOf(showBuildInfo, messages) == Welcome <==> !showBuildInfo && messages == []
    ensures ModeOf(showBuildInfo, messages) == Chat <==> !showBuildInfo && messages != []
  {
  }

  /** The effect keyed on `[isOpen, openToBuildInfo]` resets the session exactly when
      one of the two props changed and the panel is now open. */
  predicate ResetFires(wasOpen: bool, wasDirect: bool, open: bool, direct: bool) {
    open && (open != wasOpen || direct != wasDirect)
  }

  /** Every user bubble holds text that was not blank. */
  predicate UserTextsNotBlank(ms: seq<Message>) {
    forall i :: 0 <= i < |ms| && ms[i].sender == User ==> !IsBlank(ms[i].text)
  }

  // ---------------------------------------------------------------------------
  // The component's state
  // ---------------------------------------------------------------------------

  class Session {
    /** The prompt catalog, `Suggestions`. */
    const catalog: seq<string>

    /** The props of the last render: `isOpen` and `openToBuildInfo`. */
    var isOpen: bool
    var openToBuildInfo: bool

    var messages: seq<Message>
    var inputValue: string
    var isTyping: bool
    var showBuildInfo: bool
    var shuffledSuggestions: seq<string>

    /** The suggestions are a catalog ordering once the panel has been opened, and no
        user bubble is blank. */
    ghost predicate Valid()
      reads this
    {
      ((!isOpen && shuffledSuggestions == []) || IsOrderOf(shuffledSuggestions, catalog)) &&
      UserTextsNotBlank(messages)
    }

    function DisplayMode(): Mode
      reads this
    {
      ModeOf(showBuildInfo, messages)
    }

    /** The suggestion buttons are on screen. */
    predicate SuggestionsShown()
      reads this
    {
      isOpen && DisplayMode() == Welcome
    }

    /** The form is on screen and its send button is enabled. */
    predicate SendEnabled()
      reads this
    {
      isOpen && !showBuildInfo && !(IsBlank(inputValue) || isTyping)
    }

    /** First render: the initial `useState` values and closed props. */
    constructor ()
      ensures Valid()
      ensures !isOpen && !openToBuildInfo
      ensures messages == [] && inputValue == "" && !isTyping && !showBuildInfo
      ensures shuffledSuggestions == [] && catalog == Suggestions
    {
      catalog := Suggestions;
      isOpen, openToBuildInfo := false, false;
      messages, inputValue, isTyping, showBuildInfo := [], "", false, false;
      shuffledSuggestions := [];
    }

    /** A render with new props, followed by the open effect: when it fires the log,
        the input and the busy flag are cleared, the view follows `openToBuildInfo`
        and the suggestions are reshuffled; otherwise the state is kept. */
    method Receive(open: bool, direct: bool, choices: seq<nat>)
      requires Valid()
      modifies this
      ensures Valid()
      ensures isOpen == open && openToBuildInfo == direct
      ensures ResetFires(old(isOpen), old(openToBuildInfo), open, direct) ==>
                && messages == [] && inputValue == "" && !isTyping
                && showBuildInfo == direct
                && shuffledSuggestions == Shuffle(catalog, choices)
      ensures !ResetFires(old(isOpen), old(openToBuildInfo), open, direct) ==>
                && messages == old(messages) && inputValue == old(inputValue)
                && isTyping == old(isTyping) && showBuildInfo == old(showBuildInfo)
                && shuffledSuggestions == old(shuffledSuggestions)
    {
      var fires := ResetFires(isOpen, openToBuildInfo, open, direct);
      isOpen, openToBuildInfo := open, direct;
      if fires {
        messages := [];
        inputValue := "";
        isTyping := false;
        showBuildInfo := direct;
        shuffledSuggestions := Shuffle(catalog, choices);
      }
    }

    /** The input's `onChange`. */
    method Edit(value: string)
      requires Valid()
      modifies this
      ensures Valid()
      ensures inputValue == value
      ensures messages == old(messages) && isTyping == old(isTyping)
      ensures showBuildInfo == old(showBuildInfo) && shuffledSuggestions == old(shuffledSuggestions)
      ensures isOpen == old(isOpen) && openToBuildInfo == old(openToBuildInfo)
    {
      inputValue := value;
    }

    /** `handleSend(text)` up to its `await`, at clock reading `now`.  Blank text is
        ignored.  Otherwise the untrimmed text is appended as a user bubble, the input
        is cleared, the busy flag is raised and the request is returned; its history
        is the log as it was before the new bubble.  The busy flag is not checked. */
    method BeginSend(text: string, now: nat) returns (request: Option<Request>)
      requires Valid()
      modifies this
      ensures Valid()
      ensures request.Some? <==> !IsBlank(text)
      ensures request.None? ==>
                && messages == old(messages) && inputValue == old(inputValue)
                && isTyping == old(isTyping)
      ensures request.Some? ==>
                && request.value == Request(text, History(old(messages)))
                && messages == old(messages) + [Message(now, text, User)]
                && inputValue == "" && isTyping
      ensures showBuildInfo == old(showBuildInfo) && shuffledSuggestions == old(shuffledSuggestions)
      ensures isOpen == old(isOpen) && openToBuildInfo == old(openToBuildInfo)
    {
      if IsBlank(text) {
        return None;
      }
      var history := History(messages);
      messages := messages + [Message(now, text, User)];
      inputValue := "";
      isTyping := true;
      request := Some(Request(text, history));
    }

    /** The rest of `handleSend` once the awaited call settles, at clock reading `now`:
        one assistant bubble is appended to whatever log is current and the busy flag
        is cleared, whatever the outcome. */
    method CompleteSend(outcome: Outcome, now: nat)
      requires Valid()
      modifies this
      ensures Valid()
      ensures messages == old(messages) + [Message(now + 1, ReplyText(outcome), Assistant)]
      ensures !isTyping
      ensures inputValue == old(inputValue) && showBuildInfo == old(showBuildInfo)
      ensures shuffledSuggestions == old(shuffledSuggestions)
      ensures isOpen == old(isOpen) && openToBuildInfo == old(openToBuildInfo)
    {
      messages := messages + [Message(now + 1, ReplyText(outcome), Assistant)];
      isTyping := false;
    }

    /** The build-info button: flips the view and empties the log. */
    method ToggleBuildInfo()
      requires Valid()
      modifies this
      ensures Valid()
      ensures showBuildInfo == !old(showBuildInfo) && messages == []
      ensures DisplayMode() == if showBuildInfo then BuildInfo else Welcome
      ensures inputValue == old(inputValue) && isTyping == old(isTyping)
      ensures shuffledSuggestions == old(shuffledSuggestions)
      ensures isOpen == old(isOpen) && openToBuildInfo == old(openToBuildInfo)
    {
      showBuildInfo := !showBuildInfo;
      messages := [];
    }

    /** Submitting the form, which the disabled send button allows only when
        `SendEnabled()`: the typed text is always accepted. */
    method SubmitForm(now: nat) returns (request: Option<Request>)
      requires Valid() && SendEnabled()
      modifies this
      ensures Valid()
      ensures request == Some(Request(old(inputValue), History(old(messages))))
      ensures messages == old(messages) + [Message(now, old(inputValue), User)]
      ensures inputValue == "" && isTyping
      ensures showBuildInfo == old(showBuildInfo) && shuffledSuggestions == old(shuffledSuggestions)
      ensures isOpen == old(isOpen) && openToBuildInfo == old(openToBuildInfo)
    {
      request := BeginSend(inputValue, now);
    }

    /** Clicking suggestion `k` on the welcome screen: always accepted, with an empty
        history because the welcome screen shows only while the log is empty.  Nothing
        here looks at the busy flag. */
    method ChooseSuggestion(k: nat, now: nat) returns (request: Option<Request>)
      requires Valid() && catalog == Suggestions
      requires SuggestionsShown() && k < |shuffledSuggestions|
      modifies this
      ensures Valid()
      ensures request == Some(Request(old(shuffledSuggestions)[k], []))
      ensures messages == [Message(now, old(shuffledSuggestions)[k], User)]
      ensures inputValue == "" && isTyping
      ensures showBuildInfo == old(showBuildInfo) && shuffledSuggestions == old(shuffledSuggestions)
      ensures isOpen == old(isOpen) && openToBuildInfo == old(openToBuildInfo)
    {
      OrderEntryNotBlank(shuffledSuggestions, k);
      request := BeginSend(shuffledSuggestions[k], now);
    }

    /** A send followed by its completion with no event in between: the log grows by
        exactly the user bubble and then the assistant bubble, and the panel is idle. */
    method Exchange(text: string, sentAt: nat, outcome: Outcome, repliedAt: nat)
      returns (request: Option<Request>)
      requires Valid() && !IsBlank(text)
      modifies this
      ensures Valid()
      ensures request == Some(Request(text, History(old(messages))))
      ensures messages == old(messages) + [Message(sentAt, text, User),
                                           Message(repliedAt + 1, ReplyText(outcome), Assistant)]
      ensures inputValue == "" && !isTyping
      ensures showBuildInfo == old(showBuildInfo) && shuffledSuggestions == old(shuffledSuggestions)
      ensures isOpen == old(isOpen) && openToBuildInfo == old(openToBuildInfo)
    {
      request := BeginSend(text, sentAt);
      CompleteSend(outcome, repliedAt);
    }
  }

  /** From an open panel on the chat side, send a message, then show and hide the
      build info while the reply is outstanding: the welcome screen is back, so a
      suggestion click starts a second request while the first is still pending. */
  method SecondSendWhileBusy(s: Session, text: string, now: nat)
    returns (first: Option<Request>, second: Option<Request>)
    requires s.Valid() && s.catalog == Suggestions
    requires s.isOpen && !s.showBuildInfo && !IsBlank(text)
    modifies s
    ensures first.Some? && second.Some? && second.value.history == []
    ensures s.isTyping && |s.messages| == 1
  {
    first := s.BeginSend(text, now);
    s.ToggleBuildInfo();
    s.ToggleBuildInfo();
    assert s.isTyping && s.SuggestionsShown();
    assert |s.shuffledSuggestions| > 0 by {
      assert |multiset(s.shuffledSuggestions)| == |multiset(s.catalog)|;
      assert s.catalog[0] in s.catalog;
    }
    second := s.ChooseSuggestion(0, now + 1);
  }
}
