/**
 * Input_panel: the submit gate and the join. The dialogs, the futures and the
 * database call are abstracted into a log of effects; the three loading
 * widgets become flags, and the response panels are the real panel objects.
 */
module InputPanel {
  import opened Wrappers
  import opened JavaString
  import Wire
  import ChatGptApi
  import PerplexityApi
  import ChatGptPanel
  import PerplexityPanel

  const EmptyQueryMessage := "Please enter a query."
  const MissingKeysMessage := "API keys are not configured. Please set them in the Settings menu."
  const ProcessingErrorPrefix := "Error processing query: "

  datatype Provider = ChatGpt | Perplexity

  /** What a submission does outside the panel's own fields, in order. */
  datatype Effect =
    | Warn(message: string)
    | UiLoading(on: bool)
    | PanelLoading(provider: Provider)
    | Dispatch(provider: Provider, query: string)
    | Show(provider: Provider, query: string, response: string)
    | Save(id: string, query: string, chatGpt: string, perplexity: string)
    | ClearInput

  /** A trimmed query gets past both checks: it is not empty and both keys are set. */
  predicate Accepted(query: string, keysValid: bool)
  {
    query != "" && keysValid
  }

  /**
   * The effects of submitQuery for a trimmed query. chatShown and
   * perplexityShown say which panels are attached; stageError, when present,
   * is the message of an exception the join stage raises.
   */
  function SubmitEffects(query: string, keysValid: bool, chatShown: bool, perplexityShown: bool,
                         chatText: string, perplexityText: string, id: string,
                         stageError: Option<string>): seq<Effect>
  {
    if query == "" then [Warn(EmptyQueryMessage)]
    else if !keysValid then [Warn(MissingKeysMessage)]
    else
      Prelude(chatShown, perplexityShown)
      + [Dispatch(ChatGpt, query), Dispatch(Perplexity, query)]
      + JoinEffects(query, chatShown, perplexityShown, chatText, perplexityText, id, stageError)
  }

  /** The effects submitQuery has by the time it returns: a warning, or loading and both calls. */
  function StartEffects(query: string, keysValid: bool, chatShown: bool, perplexityShown: bool): seq<Effect>
  {
    if query == "" then [Warn(EmptyQueryMessage)]
    else if !keysValid then [Warn(MissingKeysMessage)]
    else Prelude(chatShown, perplexityShown) + [Dispatch(ChatGpt, query), Dispatch(Perplexity, query)]
  }

  /**
   * A submission is its start followed, when it was accepted, by its join:
   * a rejected query has no callback at all.
   */
  lemma SubmitThenJoin(query: string, keysValid: bool, chatShown: bool, perplexityShown: bool,
                       chatText: string, perplexityText: string, id: string, stageError: Option<string>)
    ensures SubmitEffects(query, keysValid, chatShown, perplexityShown, chatText, perplexityText, id, stageError)
      == StartEffects(query, keysValid, chatShown, perplexityShown)
         + (if Accepted(query, keysValid)
            then JoinEffects(query, chatShown, perplexityShown, chatText, perplexityText, id, stageError)
            else [])
  {
    if !Accepted(query, keysValid) {
      assert StartEffects(query, keysValid, chatShown, perplexityShown) + [] == StartEffects(query, keysValid, chatShown, perplexityShown);
    }
  }

  /**
   * A submission that passed both checks and whose futures completed with
   * chatText and perplexityText, with the request bodies the two handlers
   * sent for it.
   */
  datatype Pending = Pending(id: string, query: string, chatText: string, perplexityText: string,
                             chatRequests: seq<string>, perplexityRequests: seq<string>)

  /**
   * p is what submitQuery leaves pending for an accepted query, both keys
   * being set: each future's text, one ChatGPT request body per attempt and
   * one Perplexity request body, every body built from the query.
   */
  predicate SubmittedAs(p: Pending, id: string, query: string,
                        chatTransports: seq<Wire.Transport>, chatInterrupts: seq<bool>,
                        perplexityTransport: Wire.Transport, promptHash: int)
    requires |chatTransports| >= ChatGptApi.MaxRetries && |chatInterrupts| >= ChatGptApi.MaxRetries - 1
  {
    && p.id == id && p.query == query
    && p.chatText == ChatGptApi.AsyncResult(true, chatTransports, chatInterrupts)
    && p.perplexityText == PerplexityApi.AsyncResult(true, query, perplexityTransport, promptHash)
    && |p.chatRequests| == ChatGptApi.RetryCall(true, chatTransports, chatInterrupts).attempts
    && ChatGptApi.SentFor(p.chatRequests, query)
    && |p.perplexityRequests| == 1 && PerplexityApi.SentFor(p.perplexityRequests, query)
  }

  /** SubmittedAs pins the pending submission down: the same inputs give the same submission. */
  lemma SubmittedAsDetermines(p1: Pending, p2: Pending, id: string, query: string,
                              chatTransports: seq<Wire.Transport>, chatInterrupts: seq<bool>,
                              perplexityTransport: Wire.Transport, promptHash: int)
    requires |chatTransports| >= ChatGptApi.MaxRetries && |chatInterrupts| >= ChatGptApi.MaxRetries - 1
    requires SubmittedAs(p1, id, query, chatTransports, chatInterrupts, perplexityTransport, promptHash)
    requires SubmittedAs(p2, id, query, chatTransports, chatInterrupts, perplexityTransport, promptHash)
    ensures p1 == p2
  {
    assert p1.chatRequests == p2.chatRequests by {
      forall i | 0 <= i < |p1.chatRequests| ensures p1.chatRequests[i] == p2.chatRequests[i] {
      }
    }
    assert p1.perplexityRequests == p2.perplexityRequests by {
      assert p1.perplexityRequests[0] == p2.perplexityRequests[0];
    }
  }

  /**
   * A submission sends one to three ChatGPT request bodies and one
   * Perplexity request body, and each of them carries the query.
   */
  lemma SubmittedSendsQuery(p: Pending, id: string, query: string,
                            chatTransports: seq<Wire.Transport>, chatInterrupts: seq<bool>,
                            perplexityTransport: Wire.Transport, promptHash: int)
    requires |chatTransports| >= ChatGptApi.MaxRetries && |chatInterrupts| >= ChatGptApi.MaxRetries - 1
    requires SubmittedAs(p, id, query, chatTransports, chatInterrupts, perplexityTransport, promptHash)
    ensures 1 <= |p.chatRequests| <= ChatGptApi.MaxRetries && |p.perplexityRequests| == 1
    ensures forall i, q :: 0 <= i < |p.chatRequests| && p.chatRequests[i] == ChatGptApi.RequestBody(q) ==> q == query
    ensures forall q :: p.perplexityRequests[0] == PerplexityApi.RequestBody(q) ==> q == query
  {
    ChatGptApi.RetryShape(true, chatTransports, chatInterrupts);
    forall i, q | 0 <= i < |p.chatRequests| && p.chatRequests[i] == ChatGptApi.RequestBody(q) ensures q == query {
      ChatGptApi.RequestBodyDeterminesPrompt(q, query);
    }
    forall q | p.perplexityRequests[0] == PerplexityApi.RequestBody(q) ensures q == query {
      PerplexityApi.RequestBodyDeterminesPrompt(q, query);
    }
  }

  /** Before the calls: the panel's own loading state, then each attached panel's. */
  function Prelude(chatShown: bool, perplexityShown: bool): (e: seq<Effect>)
    ensures 1 <= |e| && e[0] == UiLoading(true)
    ensures forall i :: 1 <= i < |e| ==> e[i].PanelLoading?
  {
    [UiLoading(true)]
      + (if chatShown then [PanelLoading(ChatGpt)] else [])
      + (if perplexityShown then [PanelLoading(Perplexity)] else [])
  }

  /** How many times x occurs in e. */
  function Count(e: seq<Effect>, x: Effect): nat
  {
    if e == [] then 0 else Count(e[..|e| - 1], x) + (if e[|e| - 1] == x then 1 else 0)
  }

  lemma {:induction false} CountConcat(a: seq<Effect>, b: seq<Effect>, x: Effect)
    ensures Count(a + b, x) == Count(a, x) + Count(b, x)
    decreases |b|
  {
    if b == [] {
      assert a + b == a;
    } else {
      assert (a + b)[..|a + b| - 1] == a + b[..|b| - 1];
      CountConcat(a, b[..|b| - 1], x);
    }
  }

  lemma {:induction false} CountAbsent(a: seq<Effect>, x: Effect)
    requires x !in a
    ensures Count(a, x) == 0
    decreases |a|
  {
    if a != [] {
      assert forall i :: 0 <= i < |a| - 1 ==> a[..|a| - 1][i] == a[i];
      CountAbsent(a[..|a| - 1], x);
    }
  }

  lemma CountSingle(y: Effect, x: Effect)
    ensures Count([y], x) == if y == x then 1 else 0
  {
    assert [y][..0] == [];
  }

  /** Each attached panel shows its own provider's response, ChatGPT first. */
  function Shows(query: string, chatShown: bool, perplexityShown: bool,
                 chatText: string, perplexityText: string): (e: seq<Effect>)
    ensures forall i :: 0 <= i < |e| ==>
      e[i] == Show(ChatGpt, query, chatText) || e[i] == Show(Perplexity, query, perplexityText)
    ensures Count(e, Show(ChatGpt, query, chatText)) == (if chatShown then 1 else 0)
    ensures Count(e, Show(Perplexity, query, perplexityText)) == (if perplexityShown then 1 else 0)
  {
    var c := if chatShown then [Show(ChatGpt, query, chatText)] else [];
    var p := if perplexityShown then [Show(Perplexity, query, perplexityText)] else [];
    CountConcat(c, p, Show(ChatGpt, query, chatText));
    CountConcat(c, p, Show(Perplexity, query, perplexityText));
    CountSingle(Show(ChatGpt, query, chatText), Show(ChatGpt, query, chatText));
    CountSingle(Show(ChatGpt, query, chatText), Show(Perplexity, query, perplexityText));
    CountSingle(Show(Perplexity, query, perplexityText), Show(ChatGpt, query, chatText));
    CountSingle(Show(Perplexity, query, perplexityText), Show(Perplexity, query, perplexityText));
    c + p
  }

  /** What happens once both futures have completed. */
  function JoinEffects(query: string, chatShown: bool, perplexityShown: bool,
                       chatText: string, perplexityText: string, id: string,
                       stageError: Option<string>): seq<Effect>
  {
    match stageError
    case None =>
      Shows(query, chatShown, perplexityShown, chatText, perplexityText)
      + [Save(id, query, chatText, perplexityText), UiLoading(false), ClearInput]
    case Some(message) =>
      [Warn(ProcessingErrorPrefix + message), UiLoading(false)]
  }

  /** Nothing after the calls is another call or switches loading on. */
  lemma JoinHasNoDispatch(query: string, chatShown: bool, perplexityShown: bool,
                          chatText: string, perplexityText: string, id: string,
                          stageError: Option<string>)
    ensures var j := JoinEffects(query, chatShown, perplexityShown, chatText, perplexityText, id, stageError);
      forall i :: 0 <= i < |j| ==> !j[i].Dispatch? && j[i] != UiLoading(true)
  {
    var j := JoinEffects(query, chatShown, perplexityShown, chatText, perplexityText, id, stageError);
    if stageError.None? {
      var sh := Shows(query, chatShown, perplexityShown, chatText, perplexityText);
      var tail := [Save(id, query, chatText, perplexityText), UiLoading(false), ClearInput];
      assert j == sh + tail;
      forall i | 0 <= i < |j| ensures !j[i].Dispatch? && j[i] != UiLoading(true) {
        if i < |sh| {
          assert j[i] == sh[i];
        } else {
          assert j[i] == tail[i - |sh|];
        }
      }
    }
  }

  /**
   * A rejected submission only warns: no call, no display, no save and no
   * change of the loading state. The empty-query warning comes first.
   */
  lemma RejectionOnlyWarns(query: string, keysValid: bool, chatShown: bool, perplexityShown: bool,
                           chatText: string, perplexityText: string, id: string, stageError: Option<string>)
    requires !Accepted(query, keysValid)
    ensures var e := SubmitEffects(query, keysValid, chatShown, perplexityShown, chatText, perplexityText, id, stageError);
      && |e| == 1
      && e[0].Warn?
      && (e[0].message == EmptyQueryMessage <==> query == "")
  {
  }

  /** An accepted submission calls each provider exactly once, and with the trimmed query. */
  lemma EachProviderCalledOnce(query: string, keysValid: bool, chatShown: bool, perplexityShown: bool,
                               chatText: string, perplexityText: string, id: string,
                               stageError: Option<string>, p: Provider)
    requires Accepted(query, keysValid)
    ensures var e := SubmitEffects(query, keysValid, chatShown, perplexityShown, chatText, perplexityText, id, stageError);
      && Count(e, Dispatch(p, query)) == 1
      && (forall i :: 0 <= i < |e| && e[i].Dispatch? && e[i].provider == p ==> e[i].query == query)
  {
    var e := SubmitEffects(query, keysValid, chatShown, perplexityShown, chatText, perplexityText, id, stageError);
    var head := Prelude(chatShown, perplexityShown);
    var calls := [Dispatch(ChatGpt, query), Dispatch(Perplexity, query)];
    var join := JoinEffects(query, chatShown, perplexityShown, chatText, perplexityText, id, stageError);
    JoinHasNoDispatch(query, chatShown, perplexityShown, chatText, perplexityText, id, stageError);
    assert e == head + calls + join;
    CountInMiddle(head, calls, join, Dispatch(p, query));
    CountPair(Dispatch(ChatGpt, query), Dispatch(Perplexity, query), Dispatch(p, query));
    InThree(head, calls, join);
  }

  /** Occurrences outside the middle part do not count. */
  lemma CountInMiddle(head: seq<Effect>, mid: seq<Effect>, tail: seq<Effect>, x: Effect)
    requires x !in head && x !in tail
    ensures Count(head + mid + tail, x) == Count(mid, x)
  {
    CountAbsent(head, x);
    CountAbsent(tail, x);
    CountConcat(head + mid, tail, x);
    CountConcat(head, mid, x);
  }

  lemma CountPair(a: Effect, b: Effect, x: Effect)
    ensures Count([a, b], x) == (if a == x then 1 else 0) + (if b == x then 1 else 0)
  {
    assert [a, b][..1] == [a];
    CountSingle(a, x);
  }

  /** Every element of a three-part concatenation comes from one of the parts. */
  lemma InThree(a: seq<Effect>, b: seq<Effect>, c: seq<Effect>)
    ensures forall i :: 0 <= i < |a + b + c| ==> (a + b + c)[i] in a || (a + b + c)[i] in b || (a + b + c)[i] in c
  {
    var e := a + b + c;
    forall i | 0 <= i < |e|
      ensures e[i] in a || e[i] in b || e[i] in c
    {
      if i < |a| {
        assert e[i] == a[i];
      } else if i < |a| + |b| {
        assert e[i] == b[i - |a|];
      } else {
        assert e[i] == c[i - |a| - |b|];
      }
    }
  }

  /**
   * Loading is switched on first, before either call; nothing is shown or
   * saved until both calls have been dispatched.
   */
  lemma LoadingThenDispatchThenJoin(query: string, keysValid: bool, chatShown: bool, perplexityShown: bool,
                                    chatText: string, perplexityText: string, id: string,
                                    stageError: Option<string>)
    requires Accepted(query, keysValid)
    ensures var e := SubmitEffects(query, keysValid, chatShown, perplexityShown, chatText, perplexityText, id, stageError);
      && e[0] == UiLoading(true)
      && (forall i, j :: 0 <= i < j < |e| && e[i].Dispatch? ==> e[j] != UiLoading(true))
      && (forall i, j :: 0 <= i < j < |e| && (e[i].Show? || e[i].Save?) ==> !e[j].Dispatch?)
  {
    var head := Prelude(chatShown, perplexityShown);
    var calls := [Dispatch(ChatGpt, query), Dispatch(Perplexity, query)];
    JoinHasNoDispatch(query, chatShown, perplexityShown, chatText, perplexityText, id, stageError);
    OrderOfParts(head, calls, JoinEffects(query, chatShown, perplexityShown, chatText, perplexityText, id, stageError));
  }

  /**
   * A log made of a loading part, a part of calls and a part with no call
   * and no switching on: switching on and calls are never out of order.
   */
  lemma OrderOfParts(head: seq<Effect>, calls: seq<Effect>, join: seq<Effect>)
    requires |head| >= 1 && head[0] == UiLoading(true)
    requires forall i :: 0 <= i < |head| ==> head[i].UiLoading? || head[i].PanelLoading?
    requires forall i :: 0 <= i < |calls| ==> calls[i].Dispatch?
    requires forall i :: 0 <= i < |join| ==> !join[i].Dispatch? && join[i] != UiLoading(true)
    ensures var e := head + calls + join;
      && e[0] == UiLoading(true)
      && (forall i, j :: 0 <= i < j < |e| && e[i].Dispatch? ==> e[j] != UiLoading(true))
      && (forall i, j :: 0 <= i < j < |e| && (e[i].Show? || e[i].Save?) ==> !e[j].Dispatch?)
  {
    var e := head + calls + join;
    var n := |head| + |calls|;
    forall i | 0 <= i < |e|
      ensures i < |head| ==> e[i].UiLoading? || e[i].PanelLoading?
      ensures |head| <= i < n ==> e[i].Dispatch?
      ensures n <= i ==> !e[i].Dispatch? && e[i] != UiLoading(true)
    {
      if i < |head| {
        assert e[i] == head[i];
      } else if i < n {
        assert e[i] == calls[i - |head|];
      } else {
        assert e[i] == join[i - n];
      }
    }
  }

  /** The normal path splits into the calls, the displays and the save with its resets. */
  lemma NormalPathParts(query: string, keysValid: bool, chatShown: bool, perplexityShown: bool,
                        chatText: string, perplexityText: string, id: string)
    requires Accepted(query, keysValid)
    ensures SubmitEffects(query, keysValid, chatShown, perplexityShown, chatText, perplexityText, id, None)
      == (Prelude(chatShown, perplexityShown) + [Dispatch(ChatGpt, query), Dispatch(Perplexity, query)])
         + Shows(query, chatShown, perplexityShown, chatText, perplexityText)
         + [Save(id, query, chatText, perplexityText), UiLoading(false), ClearInput]
  {
  }

  /** On the normal path there is exactly one save. */
  lemma JoinSavesOnce(query: string, keysValid: bool, chatShown: bool, perplexityShown: bool,
                      chatText: string, perplexityText: string, id: string)
    requires Accepted(query, keysValid)
    ensures Count(SubmitEffects(query, keysValid, chatShown, perplexityShown, chatText, perplexityText, id, None),
                  Save(id, query, chatText, perplexityText)) == 1
  {
    var e := SubmitEffects(query, keysValid, chatShown, perplexityShown, chatText, perplexityText, id, None);
    var before := Prelude(chatShown, perplexityShown) + [Dispatch(ChatGpt, query), Dispatch(Perplexity, query)]
      + Shows(query, chatShown, perplexityShown, chatText, perplexityText);
    var save := Save(id, query, chatText, perplexityText);
    var tail := [save, UiLoading(false), ClearInput];
    NormalPathParts(query, keysValid, chatShown, perplexityShown, chatText, perplexityText, id);
    NoSaveBeforeJoin(query, chatShown, perplexityShown, chatText, perplexityText);
    CountInMiddle(before, tail, [], save);
    assert before + tail + [] == e;
    CountPair(save, UiLoading(false), save);
    CountConcat([save, UiLoading(false)], [ClearInput], save);
    CountSingle(ClearInput, save);
    assert [save, UiLoading(false)] + [ClearInput] == tail;
  }

  /** Every save of a submission carries its id, its query and both responses. */
  lemma SaveCarriesBothResponses(query: string, keysValid: bool, chatShown: bool, perplexityShown: bool,
                                 chatText: string, perplexityText: string, id: string, stageError: Option<string>)
    ensures var e := SubmitEffects(query, keysValid, chatShown, perplexityShown, chatText, perplexityText, id, stageError);
      forall i :: 0 <= i < |e| && e[i].Save? ==> e[i] == Save(id, query, chatText, perplexityText)
  {
    if Accepted(query, keysValid) && stageError.None? {
      var e := SubmitEffects(query, keysValid, chatShown, perplexityShown, chatText, perplexityText, id, None);
      var before := Prelude(chatShown, perplexityShown) + [Dispatch(ChatGpt, query), Dispatch(Perplexity, query)]
        + Shows(query, chatShown, perplexityShown, chatText, perplexityText);
      var tail := [Save(id, query, chatText, perplexityText), UiLoading(false), ClearInput];
      NormalPathParts(query, keysValid, chatShown, perplexityShown, chatText, perplexityText, id);
      NoSaveBeforeJoin(query, chatShown, perplexityShown, chatText, perplexityText);
      assert e == before + tail;
      assert forall i :: 0 <= i < |before| ==> e[i] == before[i];
      assert forall i :: |before| <= i < |e| ==> e[i] == tail[i - |before|];
    }
  }

  /** Before the save there are only loading changes, calls and displays. */
  lemma NoSaveBeforeJoin(query: string, chatShown: bool, perplexityShown: bool,
                         chatText: string, perplexityText: string)
    ensures var before := Prelude(chatShown, perplexityShown) + [Dispatch(ChatGpt, query), Dispatch(Perplexity, query)]
      + Shows(query, chatShown, perplexityShown, chatText, perplexityText);
      forall i :: 0 <= i < |before| ==> !before[i].Save?
  {
    var head := Prelude(chatShown, perplexityShown) + [Dispatch(ChatGpt, query), Dispatch(Perplexity, query)];
    var shows := Shows(query, chatShown, perplexityShown, chatText, perplexityText);
    assert forall i :: 0 <= i < |head| ==> !head[i].Save?;
    assert forall i :: |head| <= i < |head + shows| ==> (head + shows)[i] == shows[i - |head|];
  }

  /** On the normal path each attached panel shows its own provider's response, once. */
  lemma JoinShowsOnce(query: string, keysValid: bool, chatShown: bool, perplexityShown: bool,
                      chatText: string, perplexityText: string, id: string)
    requires Accepted(query, keysValid)
    ensures var e := SubmitEffects(query, keysValid, chatShown, perplexityShown, chatText, perplexityText, id, None);
      && Count(e, Show(ChatGpt, query, chatText)) == (if chatShown then 1 else 0)
      && Count(e, Show(Perplexity, query, perplexityText)) == (if perplexityShown then 1 else 0)
      && (forall i :: 0 <= i < |e| && e[i].Show? ==>
            e[i] == Show(ChatGpt, query, chatText) || e[i] == Show(Perplexity, query, perplexityText))
  {
    var e := SubmitEffects(query, keysValid, chatShown, perplexityShown, chatText, perplexityText, id, None);
    var head := Prelude(chatShown, perplexityShown) + [Dispatch(ChatGpt, query), Dispatch(Perplexity, query)];
    var shows := Shows(query, chatShown, perplexityShown, chatText, perplexityText);
    var tail := [Save(id, query, chatText, perplexityText), UiLoading(false), ClearInput];
    NormalPathParts(query, keysValid, chatShown, perplexityShown, chatText, perplexityText, id);
    var sc, sp := Show(ChatGpt, query, chatText), Show(Perplexity, query, perplexityText);
    assert forall i :: 0 <= i < |head| ==> !head[i].Show?;
    assert sc !in head && sp !in head && sc !in tail && sp !in tail;
    CountInMiddle(head, shows, tail, sc);
    CountInMiddle(head, shows, tail, sp);
    InThree(head, shows, tail);
  }

  /** When the join stage fails, nothing is shown or saved and the input is kept; the error is reported. */
  lemma FailedJoinReports(query: string, keysValid: bool, chatShown: bool, perplexityShown: bool,
                          chatText: string, perplexityText: string, id: string, message: string)
    requires Accepted(query, keysValid)
    ensures var e := SubmitEffects(query, keysValid, chatShown, perplexityShown, chatText, perplexityText, id, Some(message));
      && Warn(ProcessingErrorPrefix + message) in e
      && (forall i :: 0 <= i < |e| ==> !e[i].Show? && !e[i].Save? && e[i] != ClearInput)
  {
  }

  /** Whenever loading was switched on, the last loading change switches it off again. */
  lemma LoadingAlwaysReset(query: string, keysValid: bool, chatShown: bool, perplexityShown: bool,
                           chatText: string, perplexityText: string, id: string, stageError: Option<string>)
    ensures var e := SubmitEffects(query, keysValid, chatShown, perplexityShown, chatText, perplexityText, id, stageError);
      UiLoading(true) in e ==>
        exists i :: 0 <= i < |e| && e[i] == UiLoading(false) && forall j :: i < j < |e| ==> !e[j].UiLoading?
  {
    var e := SubmitEffects(query, keysValid, chatShown, perplexityShown, chatText, perplexityText, id, stageError);
    if Accepted(query, keysValid) {
      var i := if stageError.None? then |e| - 2 else |e| - 1;
      assert e[i] == UiLoading(false);
    }
  }

  /** The input is cleared exactly on an accepted submission whose join succeeds. */
  lemma ClearedOnlyOnSuccess(query: string, keysValid: bool, chatShown: bool, perplexityShown: bool,
                             chatText: string, perplexityText: string, id: string, stageError: Option<string>)
    ensures ClearInput in SubmitEffects(query, keysValid, chatShown, perplexityShown, chatText, perplexityText, id, stageError)
      <==> Accepted(query, keysValid) && stageError.None?
  {
    var e := SubmitEffects(query, keysValid, chatShown, perplexityShown, chatText, perplexityText, id, stageError);
    if Accepted(query, keysValid) && stageError.None? {
      assert e[|e| - 1] == ClearInput;
    }
  }

  /** Appending the displays and then three effects one by one is appending the whole join at once. */
  lemma RegroupJoin(start: seq<Effect>, shows: seq<Effect>, x: Effect, y: Effect, z: Effect)
    ensures start + shows + [x] + [y] + [z] == start + (shows + [x, y, z])
  {
    assert [x] + [y] + [z] == [x, y, z];
  }

  class InputPanel {
    const chatGptHandler: ChatGptApi.ChatGptHandler
    const perplexityHandler: PerplexityApi.PerplexityHandler
    var chatGptPanel: ChatGptPanel.ChatGptPanel?
    var perplexityPanel: PerplexityPanel.PerplexityPanel?
    /** The text of inputArea. */
    var inputText: string
    var submitEnabled: bool
    var progressVisible: bool
    var editable: bool
    /** Every effect of this panel so far. */
    ghost var effects: seq<Effect>

    /** A new panel has no response panels, an empty input and the idle widgets. */
    constructor (chatGptHandler: ChatGptApi.ChatGptHandler, perplexityHandler: PerplexityApi.PerplexityHandler)
      ensures this.chatGptHandler == chatGptHandler && this.perplexityHandler == perplexityHandler
      ensures chatGptPanel == null && perplexityPanel == null
      ensures inputText == "" && submitEnabled && !progressVisible && editable
      ensures effects == []
    {
      this.chatGptHandler := chatGptHandler;
      this.perplexityHandler := perplexityHandler;
      chatGptPanel := null;
      perplexityPanel := null;
      inputText := "";
      submitEnabled := true;
      progressVisible := false;
      editable := true;
      effects := [];
    }

    /** Both handlers have a key set. */
    predicate KeysValid()
      reads chatGptHandler, perplexityHandler
    {
      chatGptHandler.HasValidApiKey() && perplexityHandler.HasValidApiKey()
    }

    /** setPanels: attaches the two response panels. */
    method SetPanels(chatGptPanel: ChatGptPanel.ChatGptPanel?, perplexityPanel: PerplexityPanel.PerplexityPanel?)
      modifies this
      ensures this.chatGptPanel == chatGptPanel && this.perplexityPanel == perplexityPanel
      ensures inputText == old(inputText) && effects == old(effects)
      ensures submitEnabled == old(submitEnabled) && progressVisible == old(progressVisible) && editable == old(editable)
    {
      this.chatGptPanel := chatGptPanel;
      this.perplexityPanel := perplexityPanel;
    }

    /** setLoading: the button and the input are usable exactly when the progress bar is hidden. */
    method SetLoading(isLoading: bool)
      modifies this
      ensures submitEnabled == !isLoading && progressVisible == isLoading && editable == !isLoading
      ensures effects == old(effects) + [UiLoading(isLoading)]
      ensures inputText == old(inputText)
      ensures chatGptPanel == old(chatGptPanel) && perplexityPanel == old(perplexityPanel)
    {
      submitEnabled := !isLoading;
      progressVisible := isLoading;
      editable := !isLoading;
      effects := effects + [UiLoading(isLoading)];
    }

    /** The first step of submitQuery's accepted path: the loading state here and in each attached panel. */
    method ShowLoading()
      modifies this, chatGptPanel, perplexityPanel
      ensures chatGptPanel == old(chatGptPanel) && perplexityPanel == old(perplexityPanel)
      ensures !submitEnabled && progressVisible && !editable && inputText == old(inputText)
      ensures effects == old(effects) + Prelude(chatGptPanel != null, perplexityPanel != null)
      ensures chatGptPanel != null ==>
        && chatGptPanel.responseArea == old(chatGptPanel.responseArea) + ChatGptPanel.LoadingMessage
        && (old(chatGptPanel.Valid()) ==> chatGptPanel.Valid())
      ensures perplexityPanel != null ==>
        && perplexityPanel.responseArea == old(perplexityPanel.responseArea) + PerplexityPanel.LoadingMessage
        && (old(perplexityPanel.Valid()) ==> perplexityPanel.Valid())
    {
      SetLoading(true);
      if chatGptPanel != null {
        chatGptPanel.SetLoading(true);
        effects := effects + [PanelLoading(ChatGpt)];
      }
      if perplexityPanel != null {
        perplexityPanel.SetLoading(true);
        effects := effects + [PanelLoading(Perplexity)];
      }
    }

    /** The callback once both futures completed: display, save, reset loading, clear the input. */
    method Complete(conversationId: string, query: string, chatText: string, perplexityText: string)
      modifies this, chatGptPanel, perplexityPanel
      ensures chatGptPanel == old(chatGptPanel) && perplexityPanel == old(perplexityPanel)
      ensures submitEnabled && !progressVisible && editable && inputText == ""
      ensures effects == old(effects)
        + JoinEffects(query, chatGptPanel != null, perplexityPanel != null, chatText, perplexityText, conversationId, None)
      ensures chatGptPanel != null ==>
        && chatGptPanel.responseArea == old(chatGptPanel.responseArea) + ChatGptPanel.Entry(query, chatText)
        && (old(chatGptPanel.Valid()) ==> chatGptPanel.Valid())
      ensures perplexityPanel != null ==>
        && perplexityPanel.responseArea == old(perplexityPanel.responseArea) + PerplexityPanel.Entry(query, perplexityText)
        && (old(perplexityPanel.Valid()) ==> perplexityPanel.Valid())
    {
      ghost var start := effects;
      if chatGptPanel != null {
        chatGptPanel.DisplayResponse(query, chatText);
      }
      if perplexityPanel != null {
        perplexityPanel.DisplayResponse(query, perplexityText);
      }
      // The two displays, in the order they happened.
      ghost var shows := Shows(query, chatGptPanel != null, perplexityPanel != null, chatText, perplexityText);
      effects := effects + shows + [Save(conversationId, query, chatText, perplexityText)];
      SetLoading(false);
      inputText := "";
      effects := effects + [ClearInput];
      RegroupJoin(start, shows, Save(conversationId, query, chatText, perplexityText), UiLoading(false), ClearInput);
    }

    /** The exceptionally handler: report the error and reset loading; the input is kept. */
    method Fail(message: string)
      modifies this
      ensures chatGptPanel == old(chatGptPanel) && perplexityPanel == old(perplexityPanel)
      ensures submitEnabled && !progressVisible && editable && inputText == old(inputText)
      ensures effects == old(effects) + [Warn(ProcessingErrorPrefix + message), UiLoading(false)]
    {
      effects := effects + [Warn(ProcessingErrorPrefix + message)];
      SetLoading(false);
    }

    /** The dispatch step of submitQuery: one asynchronous call to each provider, in that order. */
    method CallProviders(query: string, chatTransports: seq<Wire.Transport>, chatInterrupts: seq<bool>,
                         perplexityTransport: Wire.Transport, promptHash: int)
      returns (chatText: string, perplexityText: string, chatRequests: seq<string>, perplexityRequests: seq<string>)
      requires |chatTransports| >= ChatGptApi.MaxRetries && |chatInterrupts| >= ChatGptApi.MaxRetries - 1
      modifies this
      ensures chatText == ChatGptApi.AsyncResult(chatGptHandler.HasValidApiKey(), chatTransports, chatInterrupts)
      ensures perplexityText == PerplexityApi.AsyncResult(perplexityHandler.HasValidApiKey(), query, perplexityTransport, promptHash)
      ensures |chatRequests| == if chatGptHandler.HasValidApiKey()
        then ChatGptApi.RetryCall(chatGptHandler.HasValidApiKey(), chatTransports, chatInterrupts).attempts else 0
      ensures ChatGptApi.SentFor(chatRequests, query)
      ensures |perplexityRequests| == (if perplexityHandler.HasValidApiKey() then 1 else 0)
      ensures PerplexityApi.SentFor(perplexityRequests, query)
      ensures effects == old(effects) + [Dispatch(ChatGpt, query), Dispatch(Perplexity, query)]
      ensures chatGptPanel == old(chatGptPanel) && perplexityPanel == old(perplexityPanel)
      ensures submitEnabled == old(submitEnabled) && progressVisible == old(progressVisible) && editable == old(editable)
      ensures inputText == old(inputText)
    {
      chatText, chatRequests := chatGptHandler.MakeAsyncApiCall(query, chatTransports, chatInterrupts);
      effects := effects + [Dispatch(ChatGpt, query)];
      perplexityText, perplexityRequests := perplexityHandler.MakeAsyncApiCall(query, perplexityTransport, promptHash);
      effects := effects + [Dispatch(Perplexity, query)];
    }

    /**
     * The callback submitQuery registers, run once both futures of the
     * pending submission p have completed: without stageError
     * it displays, saves, resets loading and clears the input; with it, it
     * reports the error and resets loading.
     */
    method Join(p: Pending, stageError: Option<string>)
      modifies this, chatGptPanel, perplexityPanel
      ensures chatGptPanel == old(chatGptPanel) && perplexityPanel == old(perplexityPanel)
      ensures submitEnabled && !progressVisible && editable
      ensures inputText == if stageError.None? then "" else old(inputText)
      ensures effects == old(effects)
        + JoinEffects(p.query, chatGptPanel != null, perplexityPanel != null, p.chatText, p.perplexityText, p.id, stageError)
      ensures chatGptPanel != null ==>
        && chatGptPanel.responseArea == old(chatGptPanel.responseArea)
             + (if stageError.None? then ChatGptPanel.Entry(p.query, p.chatText) else "")
        && (old(chatGptPanel.Valid()) ==> chatGptPanel.Valid())
      ensures perplexityPanel != null ==>
        && perplexityPanel.responseArea == old(perplexityPanel.responseArea)
             + (if stageError.None? then PerplexityPanel.Entry(p.query, p.perplexityText) else "")
        && (old(perplexityPanel.Valid()) ==> perplexityPanel.Valid())
    {
      match stageError {
        case None =>
          Complete(p.id, p.query, p.chatText, p.perplexityText);
        case Some(message) =>
          Fail(message);
          assert [Warn(ProcessingErrorPrefix + message), UiLoading(false)]
            == JoinEffects(p.query, chatGptPanel != null, perplexityPanel != null, p.chatText, p.perplexityText, p.id, stageError);
      }
    }

    /**
     * The accepted path of submitQuery, for a query that passed both checks: the
     * loading state, then one call to each provider.
     */
    method Start(conversationId: string, query: string,
                 chatTransports: seq<Wire.Transport>, chatInterrupts: seq<bool>,
                 perplexityTransport: Wire.Transport, promptHash: int)
      returns (p: Pending)
      requires Accepted(query, KeysValid())
      requires |chatTransports| >= ChatGptApi.MaxRetries && |chatInterrupts| >= ChatGptApi.MaxRetries - 1
      modifies this, chatGptPanel, perplexityPanel
      ensures chatGptPanel == old(chatGptPanel) && perplexityPanel == old(perplexityPanel)
      ensures SubmittedAs(p, conversationId, query, chatTransports, chatInterrupts, perplexityTransport, promptHash)
      ensures effects == old(effects) + StartEffects(query, KeysValid(), chatGptPanel != null, perplexityPanel != null)
      ensures inputText == old(inputText)
      ensures !submitEnabled && progressVisible && !editable
      ensures chatGptPanel != null ==>
        && chatGptPanel.responseArea == old(chatGptPanel.responseArea) + ChatGptPanel.LoadingMessage
        && (old(chatGptPanel.Valid()) ==> chatGptPanel.Valid())
      ensures perplexityPanel != null ==>
        && perplexityPanel.responseArea == old(perplexityPanel.responseArea) + PerplexityPanel.LoadingMessage
        && (old(perplexityPanel.Valid()) ==> perplexityPanel.Valid())
    {
      ShowLoading();
      var chatText, perplexityText, chatRequests, perplexityRequests :=
        CallProviders(query, chatTransports, chatInterrupts, perplexityTransport, promptHash);
      p := Pending(conversationId, query, chatText, perplexityText, chatRequests, perplexityRequests);
    }

    /** A rejected submission: one warning, and nothing else changes. */
    method Reject(message: string)
      modifies this
      ensures effects == old(effects) + [Warn(message)]
      ensures chatGptPanel == old(chatGptPanel) && perplexityPanel == old(perplexityPanel)
      ensures submitEnabled == old(submitEnabled) && progressVisible == old(progressVisible) && editable == old(editable)
      ensures inputText == old(inputText)
    {
      effects := effects + [Warn(message)];
    }

    /**
     * submitQuery up to its return: the two checks, then loading and both
     * calls. chatTransports/chatInterrupts and perplexityTransport stand for
     * the network, promptHash for the trimmed query's hashCode and
     * conversationId for the random UUID. The result is the submission whose
     * callback (Join) is still to run, or None when a check rejected it.
     */
    method SubmitQuery(conversationId: string,
                       chatTransports: seq<Wire.Transport>, chatInterrupts: seq<bool>,
                       perplexityTransport: Wire.Transport, promptHash: int)
      returns (pending: Option<Pending>)
      requires |chatTransports| >= ChatGptApi.MaxRetries && |chatInterrupts| >= ChatGptApi.MaxRetries - 1
      modifies this, chatGptPanel, perplexityPanel
      ensures chatGptPanel == old(chatGptPanel) && perplexityPanel == old(perplexityPanel)
      ensures pending.Some? <==> Accepted(Trim(old(inputText)), KeysValid())
      ensures pending.Some? ==>
        SubmittedAs(pending.value, conversationId, Trim(old(inputText)), chatTransports, chatInterrupts, perplexityTransport, promptHash)
      ensures effects == old(effects) + StartEffects(Trim(old(inputText)), KeysValid(), chatGptPanel != null, perplexityPanel != null)
      ensures inputText == old(inputText)
      ensures if pending.Some?
        then !submitEnabled && progressVisible && !editable
        else submitEnabled == old(submitEnabled) && progressVisible == old(progressVisible) && editable == old(editable)
      ensures pending.None? && chatGptPanel != null ==>
        chatGptPanel.responseArea == old(chatGptPanel.responseArea) && chatGptPanel.edits == old(chatGptPanel.edits)
      ensures pending.None? && perplexityPanel != null ==>
        perplexityPanel.responseArea == old(perplexityPanel.responseArea) && perplexityPanel.edits == old(perplexityPanel.edits)
      ensures pending.Some? && chatGptPanel != null ==>
        && chatGptPanel.responseArea == old(chatGptPanel.responseArea) + ChatGptPanel.LoadingMessage
        && (old(chatGptPanel.Valid()) ==> chatGptPanel.Valid())
      ensures pending.Some? && perplexityPanel != null ==>
        && perplexityPanel.responseArea == old(perplexityPanel.responseArea) + PerplexityPanel.LoadingMessage
        && (old(perplexityPanel.Valid()) ==> perplexityPanel.Valid())
    {
      var query := Trim(inputText);
      if query == "" {
        Reject(EmptyQueryMessage);
        pending := None;
      } else if !chatGptHandler.HasValidApiKey() || !perplexityHandler.HasValidApiKey() {
        Reject(MissingKeysMessage);
        pending := None;
      } else {
        var p := Start(conversationId, query, chatTransports, chatInterrupts, perplexityTransport, promptHash);
        pending := Some(p);
      }
    }
  }
}
