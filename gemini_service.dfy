/**
 * The session holder of services/geminiService.ts: a lazily built SDK
 * client (`genAI`) and a lazily opened chat session (`chatSession`), both
 * held at module level. The SDK objects are modelled as value handles;
 * a session carries an allocation serial standing for its object identity.
 *
 * The caching rules are stated twice: as a pure state machine over
 * `Gateway` values, about which the lemmas speak, and as the class
 * `ChatService` whose methods update the two slots in place and are
 * proved to follow that state machine.
 */
module GeminiService {
  import opened Wrappers

  /** The message of the error thrown when no API key is configured. */
  const API_KEY_MISSING: string := "API_KEY is missing"

  const GEMINI_MODEL: string := "gemini-3-flash-preview"

  const SYSTEM_INSTRUCTION: string :=
    "You are a helpful, witty, and concise AI assistant. You are powered by Google's Gemini 3 Flash model."

  /** The two places a key may be configured: the Vite build environment and the process environment. */
  datatype Env = Env(viteApiKey: Option<string>, processApiKey: Option<string>)

  /** JavaScript truthiness of an optional string: present and not empty. */
  predicate Truthy(v: Option<string>) {
    v.Some? && v.value != ""
  }

  /** The configured key: the Vite key if truthy, else the process key if truthy, else none. */
  function GetApiKey(env: Env): (key: Option<string>)
    ensures key.Some? ==> key.value != ""
    ensures Truthy(env.viteApiKey) ==> key == env.viteApiKey
    ensures !Truthy(env.viteApiKey) && Truthy(env.processApiKey) ==> key == env.processApiKey
    ensures key.None? <==> !Truthy(env.viteApiKey) && !Truthy(env.processApiKey)
  {
    if Truthy(env.viteApiKey) then env.viteApiKey
    else if Truthy(env.processApiKey) then env.processApiKey
    else None
  }

  /** A `GoogleGenAI` client, built from a key. */
  datatype Client = Client(apiKey: string)

  /** A chat session opened on a client; `serial` tells apart sessions built at different times. */
  datatype Chat = Chat(serial: nat, client: Client, model: string, systemInstruction: string)

  /**
   * The module state: the two slots, the number of sessions built so far
   * (the next serial) and the number of clients built so far.
   */
  datatype Gateway = Gateway(genAI: Option<Client>, chatSession: Option<Chat>, sessionsBuilt: nat, clientsBuilt: nat) {
    /**
     * A client is built exactly when the client slot is filled; a cached
     * session belongs to the cached client and was built earlier.
     */
    predicate Valid() {
      && clientsBuilt == (if genAI.Some? then 1 else 0)
      && (genAI.Some? ==> genAI.value.apiKey != "")
      && (chatSession.Some? ==>
            && genAI.Some?
            && chatSession.value.client == genAI.value
            && chatSession.value.serial < sessionsBuilt)
    }
  }

  /** The state when the module is loaded: both slots null. */
  const Unloaded: Gateway := Gateway(None, None, 0, 0)

  /** A state together with what the call returned or threw. */
  datatype Step<T> = Step(state: Gateway, result: Result<T, string>)

  /** `initializeGenAI`: build the client on first use; throw without caching when no key is configured. */
  function InitializeGenAIStep(g: Gateway, env: Env): (r: Step<Client>)
    ensures g.genAI.Some? ==> r == Step(g, Success(g.genAI.value))
    ensures r.result.Failure? <==> g.genAI.None? && GetApiKey(env).None?
    ensures r.result.Failure? ==> r.state == g && r.result.error == API_KEY_MISSING
    ensures g.genAI.None? && r.result.Success? ==>
      && r.result == Success(Client(GetApiKey(env).value))
      && r.state == g.(genAI := Some(r.result.value), clientsBuilt := g.clientsBuilt + 1)
  {
    if g.genAI.Some? then Step(g, Success(g.genAI.value))
    else
      var apiKey := GetApiKey(env);
      if !Truthy(apiKey) then Step(g, Failure(API_KEY_MISSING))
      else
        var ai := Client(apiKey.value);
        Step(g.(genAI := Some(ai), clientsBuilt := g.clientsBuilt + 1), Success(ai))
  }

  /** `getChatSession`: return the cached session, or open one on the (possibly new) client. */
  function GetChatSessionStep(g: Gateway, env: Env): (r: Step<Chat>)
    ensures g.chatSession.Some? ==> r == Step(g, Success(g.chatSession.value))
    ensures r.result.Failure? <==> g.chatSession.None? && g.genAI.None? && GetApiKey(env).None?
    ensures r.result.Failure? ==> r.state == g && r.result.error == API_KEY_MISSING
    ensures r.result.Success? ==> r.state.chatSession == Some(r.result.value)
    ensures g.chatSession.None? && r.result.Success? ==>
      && r.result.value.serial == g.sessionsBuilt
      && r.state.sessionsBuilt == g.sessionsBuilt + 1
      && r.result.value.model == GEMINI_MODEL
      && r.result.value.systemInstruction == SYSTEM_INSTRUCTION
    ensures g.genAI.Some? ==> r.state.genAI == g.genAI && r.state.clientsBuilt == g.clientsBuilt
    ensures g.Valid() ==> r.state.Valid()
  {
    if g.chatSession.Some? then Step(g, Success(g.chatSession.value))
    else
      var init := InitializeGenAIStep(g, env);
      if init.result.Failure? then Step(init.state, Failure(init.result.error))
      else
        var chat := Chat(init.state.sessionsBuilt, init.result.value, GEMINI_MODEL, SYSTEM_INSTRUCTION);
        Step(init.state.(chatSession := Some(chat), sessionsBuilt := init.state.sessionsBuilt + 1), Success(chat))
  }

  /** `resetChatSession`: drop the cached session. */
  function ResetChatSessionStep(g: Gateway): (r: Gateway)
    ensures r.chatSession.None?
    ensures r.genAI == g.genAI && r.sessionsBuilt == g.sessionsBuilt && r.clientsBuilt == g.clientsBuilt
    ensures g.Valid() ==> r.Valid()
  {
    g.(chatSession := None)
  }

  /** A call from outside the module. */
  datatype Op = GetSession(env: Env) | ResetSession

  /** The state after a sequence of calls: the counters never go back, so a serial is never reused. */
  function Run(g: Gateway, ops: seq<Op>): (r: Gateway)
    ensures r.sessionsBuilt >= g.sessionsBuilt && r.clientsBuilt >= g.clientsBuilt
    decreases |ops|
  {
    if ops == [] then g
    else
      var next := match ops[0]
        case GetSession(env) => GetChatSessionStep(g, env).state
        case ResetSession => ResetChatSessionStep(g);
      Run(next, ops[1..])
  }

  // ---------------------------------------------------------------------
  // Caching and reset
  // ---------------------------------------------------------------------

  /** Two session requests with no reset between them return the same session. */
  lemma SecondCallReturnsSameSession(g: Gateway, env1: Env, env2: Env)
    requires GetChatSessionStep(g, env1).result.Success?
    ensures var first := GetChatSessionStep(g, env1);
      GetChatSessionStep(first.state, env2) == Step(first.state, first.result)
  {
  }

  /** Resetting twice is resetting once. */
  lemma ResetIsIdempotent(g: Gateway)
    ensures ResetChatSessionStep(ResetChatSessionStep(g)) == ResetChatSessionStep(g)
  {
  }

  /**
   * After a reset the next request opens a new session on the existing
   * client, whatever the key configuration is by then, and builds no client.
   */
  lemma ResetThenGetOpensFreshSession(g: Gateway, env: Env)
    requires g.Valid() && g.genAI.Some?
    ensures var r := GetChatSessionStep(ResetChatSessionStep(g), env);
      && r.result.Success?
      && r.result.value.client == g.genAI.value
      && (g.chatSession.Some? ==> r.result.value != g.chatSession.value)
      && r.state.genAI == g.genAI
      && r.state.clientsBuilt == g.clientsBuilt
  {
  }

  /**
   * Without a key, the first request throws and caches nothing, and a
   * later request made once a key is configured succeeds with that key.
   */
  lemma MissingKeyIsNotCached(g: Gateway, noKey: Env, withKey: Env)
    requires g.Valid() && g.genAI.None? && g.chatSession.None?
    requires GetApiKey(noKey).None? && GetApiKey(withKey).Some?
    ensures var failed := GetChatSessionStep(g, noKey);
      && failed == Step(g, Failure(API_KEY_MISSING))
      && var later := GetChatSessionStep(failed.state, withKey);
         && later.result.Success?
         && later.result.value.client == Client(GetApiKey(withKey).value)
  {
  }

  /** Every reachable state satisfies the module invariant. */
  lemma {:induction false} RunPreservesValid(g: Gateway, ops: seq<Op>)
    requires g.Valid()
    ensures Run(g, ops).Valid()
    decreases |ops|
  {
    if ops != [] {
      var next := match ops[0]
        case GetSession(env) => GetChatSessionStep(g, env).state
        case ResetSession => ResetChatSessionStep(g);
      RunPreservesValid(next, ops[1..]);
    }
  }

  /** Once built, the client is never replaced. */
  lemma {:induction false} ClientNeverReplaced(g: Gateway, ops: seq<Op>)
    requires g.genAI.Some?
    ensures Run(g, ops).genAI == g.genAI
    decreases |ops|
  {
    if ops != [] {
      var next := match ops[0]
        case GetSession(env) => GetChatSessionStep(g, env).state
        case ResetSession => ResetChatSessionStep(g);
      ClientNeverReplaced(next, ops[1..]);
    }
  }

  /** Over the module's lifetime, from load on, at most one client is ever built. */
  lemma ClientBuiltAtMostOnce(ops: seq<Op>)
    ensures Run(Unloaded, ops).clientsBuilt <= 1
  {
    RunPreservesValid(Unloaded, ops);
  }

  // ---------------------------------------------------------------------
  // The module state, updated in place
  // ---------------------------------------------------------------------

  class ChatService {
    var chatSession: Option<Chat>
    var genAI: Option<Client>
    /**
     * The serial the next session gets. The source has no such variable:
     * it is a modelling device that stands for the identity of the session
     * objects the SDK allocates.
     */
    var sessionsBuilt: nat
    ghost var clientsBuilt: nat

    ghost function State(): Gateway
      reads this
    {
      Gateway(genAI, chatSession, sessionsBuilt, clientsBuilt)
    }

    ghost predicate Valid()
      reads this
    {
      State().Valid()
    }

    /** Module load: both slots start null. */
    constructor ()
      ensures Valid() && State() == Unloaded
    {
      chatSession := None;
      genAI := None;
      sessionsBuilt := 0;
      clientsBuilt := 0;
    }

    method InitializeGenAI(env: Env) returns (r: Result<Client, string>)
      requires Valid()
      modifies this
      ensures Valid()
      ensures Step(State(), r) == InitializeGenAIStep(old(State()), env)
    {
      if genAI.None? {
        var apiKey := GetApiKey(env);
        if !Truthy(apiKey) {
          return Failure(API_KEY_MISSING);
        }
        genAI := Some(Client(apiKey.value));
        clientsBuilt := clientsBuilt + 1;
      }
      return Success(genAI.value);
    }

    method GetChatSession(env: Env) returns (r: Result<Chat, string>)
      requires Valid()
      modifies this
      ensures Valid()
      ensures Step(State(), r) == GetChatSessionStep(old(State()), env)
    {
      if chatSession.None? {
        var ai := InitializeGenAI(env);
        if ai.Failure? {
          return Failure(ai.error);
        }
        chatSession := Some(Chat(sessionsBuilt, ai.value, GEMINI_MODEL, SYSTEM_INSTRUCTION));
        sessionsBuilt := sessionsBuilt + 1;
      }
      return Success(chatSession.value);
    }

    method ResetChatSession()
      requires Valid()
      modifies this
      ensures Valid()
      ensures State() == ResetChatSessionStep(old(State()))
    {
      chatSession := None;
    }
  }
}
