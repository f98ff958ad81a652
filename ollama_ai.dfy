/**
 * The `OllamaAi` client of src/helpers/ollamaHelpers.ts: the request tracker
 * held in `this.requests`, `abortAll`, and `chat`, which builds a chat
 * request for one agent on one page and reduces the reply to its text.
 */
module Ollama {

  import opened Wrappers
  import opened OllamaTypes
  import opened Schema
  import opened Messages
  import opened KeyRules
  import opened TrackerRules

  datatype Model = Mistral | Codellama | Llama2

  /** `LLMConfig`. */
  datatype LlmConfig = LlmConfig(model: Model, ollamaUrl: string)

  function ModelName(m: Model): string
  {
    match m
    case Mistral => "mistral"
    case Codellama => "codellama"
    case Llama2 => "llama2"
  }

  // ----- the pure parts of `chat` -----

  /** `toLowerCase` on one character, for the ASCII letters. */
  function LowerChar(c: char): char
  {
    if 'A' <= c <= 'Z' then (c as int + 32) as char else c
  }

  function Lower(s: string): (r: string)
    ensures |r| == |s|
    ensures forall i :: 0 <= i < |s| ==> r[i] == LowerChar(s[i])
  {
    if s == [] then [] else [LowerChar(s[0])] + Lower(s[1..])
  }

  /** The idempotency key `${agent.name.toLowerCase()}-${pageUrl}`. */
  function ChatKey(agent: BaseAgent, pageUrl: string): string
  {
    Lower(agent.name) + "-" + pageUrl
  }

  /** `messages.map((m) => ({ content: m.body, role: m.role }))`. */
  function ToWire(messages: seq<Message>): (wire: seq<OllamaMessage>)
    ensures |wire| == |messages|
    ensures forall i :: 0 <= i < |messages| ==>
      wire[i].content == messages[i].Body() && wire[i].role == messages[i].Role()
  {
    if messages == [] then []
    else [OllamaMessage(messages[0].Role(), messages[0].Body())] + ToWire(messages[1..])
  }

  /** The `chatBody` that `chat` posts. */
  function ChatBody(config: LlmConfig, messages: seq<Message>, options: Option<ChatOptions>): (b: ChatRequestBody)
    ensures b.model == ModelName(config.model) && !b.stream
    ensures b.options == options && b.format == None && b.template == None
    ensures |b.messages| == |messages|
    ensures forall i :: 0 <= i < |messages| ==>
      b.messages[i].content == messages[i].Body() && b.messages[i].role == messages[i].Role()
  {
    ChatRequestBody(options, ModelName(config.model), false, ToWire(messages), None, None)
  }

  /**
   * What `chat` makes of the resolved request: `undefined` for a falsy
   * result, `undefined` (a caught `TypeError`) when `message` is missing,
   * otherwise `res.message.content`.
   */
  function ChatReply(res: Option<ResponseJson>): (reply: Option<string>)
    ensures reply.Some? <==> res.Some? && res.value.ObjectJson? && res.value.message.Some?
    ensures reply.Some? ==> reply.value == res.value.message.value.content
  {
    match res
    case None => None
    case Some(FalsyJson) => None
    case Some(ObjectJson(None)) => None
    case Some(ObjectJson(Some(m))) => Some(m.content)
  }

  /** The name part of a chat key is that of the lowercased agent name: the page never counts. */
  lemma ChatKeyNamePart(agent: BaseAgent, pageUrl: string)
    ensures NamePart(ChatKey(agent, pageUrl)) == NamePart(Lower(agent.name))
  {
    NamePartOfJoined(Lower(agent.name), pageUrl);
  }

  /**
   * One agent asked again: on the same page the keys match fully (the new
   * call is ignored), on another page partially (the old call is aborted).
   */
  lemma SameAgentKeys(agent: BaseAgent, url1: string, url2: string)
    ensures GetKeyMatch(ChatKey(agent, url1), ChatKey(agent, url2)) == if url1 == url2 then Full else Partial
  {
    ChatKeyNamePart(agent, url1);
    ChatKeyNamePart(agent, url2);
    var prefix := Lower(agent.name) + "-";
    assert ChatKey(agent, url1) == prefix + url1 && ChatKey(agent, url2) == prefix + url2;
    if url1 != url2 {
      assert (prefix + url1)[|prefix|..] == url1 && (prefix + url2)[|prefix|..] == url2;
    }
  }

  /**
   * Two agents' chat keys collide (match fully or partially) exactly when
   * their lowercased names agree up to the first '-'.
   */
  lemma AgentKeysCollide(a1: BaseAgent, a2: BaseAgent, url1: string, url2: string)
    ensures GetKeyMatch(ChatKey(a1, url1), ChatKey(a2, url2)) != NoMatch <==>
      NamePart(Lower(a1.name)) == NamePart(Lower(a2.name))
  {
    ChatKeyNamePart(a1, url1);
    ChatKeyNamePart(a2, url2);
  }

  // ----- the client -----

  class OllamaAi {
    const config: LlmConfig
    var requests: seq<TrackedRequest>
    var aborted: set<nat>
    var nextSignal: nat

    function State(): TrackerState
      reads this
    {
      TrackerState(requests, aborted, nextSignal)
    }

    ghost predicate Valid()
      reads this
    {
      Invariant(State())
    }

    constructor (config: LlmConfig)
      ensures this.config == config && State() == Initial() && Valid()
    {
      this.config := config;
      requests, aborted, nextSignal := [], {}, 0;
    }

    /** `r.aborter.abort()` for each of `reqs`, in order. */
    method AbortEach(reqs: seq<TrackedRequest>)
      modifies this
      ensures aborted == old(aborted) + Signals(reqs)
      ensures requests == old(requests) && nextSignal == old(nextSignal)
    {
      var i := 0;
      while i < |reqs|
        invariant 0 <= i <= |reqs|
        invariant aborted == old(aborted) + Signals(reqs[..i])
        invariant requests == old(requests) && nextSignal == old(nextSignal)
      {
        assert Signals(reqs[..i + 1]) == Signals(reqs[..i]) + {reqs[i].signal} by {
          assert reqs[..i + 1] == reqs[..i] + [reqs[i]];
        }
        aborted := aborted + {reqs[i].signal};
        i := i + 1;
      }
      assert reqs[..i] == reqs;
    }

    /**
     * The `if (idempotencyKey)` block of `request` (lines 57-85): abort and
     * drop the partial matches, then stop if only full matches were found,
     * or else push a new entry.
     */
    method Track(url: string, k: string) returns (ignored: bool)
      modifies this
      ensures ignored <==> |Select(old(requests), k, {Partial})| == 0 && |Select(old(requests), k, {Full})| > 0
      ensures ignored ==> State() == old(State())
      ensures !ignored ==> State() == Admitted(old(State()), url, k)
    {
      var fullMatches := Select(requests, k, {Full});
      var partialMatches := Select(requests, k, {Partial});
      if |partialMatches| > 0 {
        AbortEach(partialMatches);
        requests := Select(requests, k, {Full, NoMatch});
      } else {
        SelectAll(requests, k, {Full, NoMatch});
      }
      if |fullMatches| > 0 && |partialMatches| == 0 {
        return true;
      }
      requests := requests + [TrackedRequest(nextSignal, url, k)];
      nextSignal := nextSignal + 1;
      return false;
    }

    /**
     * `request` up to its `fetch` (lines 37-95): `url` is the resolved
     * `new URL(path, base)` and `encodes` whether `JSON.stringify` accepts
     * the body.
     */
    method Begin(url: string, verb: HttpMethod, body: Option<ChatRequestBody>, encodes: bool, key: Option<string>)
      returns (outcome: Begun)
      requires Valid()
      modifies this
      ensures Valid()
      ensures Began(outcome, State()) == BeginStep(old(State()), url, verb, body, encodes, key)
    {
      BeginPreservesInvariant(State(), url, verb, body, encodes, key);
      var signal: Option<nat> := None;
      if IsTracked(key) {
        signal := Some(nextSignal);
        var ignored := Track(url, key.value);
        if ignored {
          return Ignored;
        }
      }
      if EncodesBody(verb, body) {
        if !encodes {
          if IsTracked(key) {
            requests := Select(requests, key.value, {Partial, NoMatch});
          }
          return SerialisationError;
        }
        outcome := Dispatched(FetchCall(url, verb, body, signal));
      } else {
        outcome := Dispatched(FetchCall(url, verb, None, signal));
      }
    }

    /**
     * `request` after its `fetch` settled (lines 100-112): every entry with
     * the request's key goes, and a failed fetch yields `undefined`.
     */
    method Settle(key: Option<string>, fetched: FetchOutcome) returns (response: Option<ResponseJson>)
      requires Valid()
      modifies this
      ensures Valid()
      ensures Settled(response, State()) == SettleStep(old(State()), key, fetched)
    {
      SettlePreservesInvariant(State(), key, fetched);
      match fetched {
        case Responded(json) => response := Some(json);
        case AbortError => response := None;
        case NetworkError => response := None;
      }
      if IsTracked(key) {
        requests := Select(requests, key.value, {Partial, NoMatch});
      }
    }

    /** `abortAll`. */
    method AbortAll()
      requires Valid()
      modifies this
      ensures Valid()
      ensures State() == AbortAllStep(old(State()))
    {
      AbortAllPreservesInvariant(State());
      AbortEach(requests);
      requests := [];
    }

    /**
     * `chat` run without other calls in between its request's two halves:
     * `chatUrl` is the resolved `/api/chat` url and `fetched` how the fetch
     * settled. Also returns the fetch issued, if any.
     */
    method Chat(messages: seq<Message>, agent: BaseAgent, pageUrl: string, options: Option<ChatOptions>,
                chatUrl: string, fetched: FetchOutcome)
      returns (reply: Option<string>, sent: Option<FetchCall>)
      requires Valid()
      modifies this
      ensures Valid()
      ensures var key := Some(ChatKey(agent, pageUrl));
        var b := BeginStep(old(State()), chatUrl, Post, Some(ChatBody(config, messages, options)), true, key);
        if b.outcome.Dispatched? then
          var settled := SettleStep(b.state, key, fetched);
          sent == Some(b.outcome.call) && reply == ChatReply(settled.response) && State() == settled.state
        else
          sent == None && reply == None && State() == b.state
      ensures sent.Some? ==>
                sent.value.verb == Post && sent.value.url == chatUrl &&
                sent.value.body == Some(ChatBody(config, messages, options))
      ensures reply.Some? ==>
                fetched.Responded? && fetched.json.ObjectJson? && fetched.json.message.Some? &&
                reply.value == fetched.json.message.value.content
    {
      var body := ChatBody(config, messages, options);
      var key := Some(ChatKey(agent, pageUrl));
      // a ChatRequestBody holds only strings, booleans and numbers: JSON.stringify accepts it
      var begun := Begin(chatUrl, Post, Some(body), true, key);
      match begun
      case Dispatched(call) =>
        var response := Settle(key, fetched);
        reply, sent := ChatReply(response), Some(call);
      case Ignored =>
        reply, sent := None, None;
      case SerialisationError =>
        reply, sent := None, None;
    }
  }
}
