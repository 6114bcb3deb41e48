/** The UI controller of App.tsx: the state slots of the `App` component and the
    handlers that update them. Each handler is a method; an asynchronous handler
    is split at its `await` into a Begin and a Finish method, and whatever the
    awaited call produced is a parameter of Finish. The network, the speech
    recogniser, the random draw and the timer are not modelled; what the
    controller asks of them is appended to a ghost log of effects. */
module App {
  import opened Wrappers
  import opened Types
  import opened Text
  import EditorService

  /** The commentary requests the controller makes: a fixed template, filled in
      with the address or the query where it has one. */
  datatype Prompt =
    | PowerPrompt
    | MutePrompt
    | BrowsePrompt
    | ConnectedPrompt(ip: string)
    | FailedPrompt(ip: string)
    | SearchPrompt(query: string)

  /** The text sent to the critic for a request. */
  function PromptText(p: Prompt): string
  {
    match p
    case PowerPrompt =>
      "The user just turned their TV on. Welcome them as 'The Editor' and tell them if there's anything worth watching right now."
    case MutePrompt =>
      "Silence. Finally. Give a short quote about the beauty of quiet or a critique of noise in media."
    case BrowsePrompt =>
      "The user is browsing. Give them a recommendation for a truly high-quality film or show."
    case ConnectedPrompt(ip) =>
      "Successfully connected to Fire TV at " + ip +
      ". Give a cheeky compliment about the user's home network or technical prowess."
    case FailedPrompt(ip) =>
      "Failed to connect to " + ip +
      ". Critique their networking setup and mention that a true cinephile would have a more stable connection."
    case SearchPrompt(query) =>
      "The user is asking for a critique/search for: \"" + query + "\". Provide your honest Editor's opinion."
  }

  /** A search request embeds the query, and a connect request the attempted address. */
  lemma PromptEmbeds(p: Prompt)
    ensures p.SearchPrompt? ==> Contains(PromptText(p), p.query)
    ensures p.ConnectedPrompt? || p.FailedPrompt? ==> Contains(PromptText(p), p.ip)
  {
    match p
    case SearchPrompt(q) =>
      SelfContains(q);
      ContainsInContext("The user is asking for a critique/search for: \"", q,
                        "\". Provide your honest Editor's opinion.", q);
    case ConnectedPrompt(ip) =>
      SelfContains(ip);
      ContainsInContext("Successfully connected to Fire TV at ", ip,
                        ". Give a cheeky compliment about the user's home network or technical prowess.", ip);
    case FailedPrompt(ip) =>
      SelfContains(ip);
      ContainsInContext("Failed to connect to ", ip,
                        ". Critique their networking setup and mention that a true cinephile would have a more stable connection.", ip);
    case _ =>
  }

  /** What the controller asks of the outside world, in the order it asks. */
  datatype Effect =
    | BridgeConnect(ip: string)             // POST /connect
    | BridgeCommand(action: RemoteAction)   // POST /command, fire-and-forget
    | Commentary(prompt: Prompt)            // EditorService.getFeedback(prompt)
    | RecognitionStarted                    // recognition.start()
    | UnsupportedNotice                     // the "not supported" alert
    | SubmitScheduled(query: string)        // a search submit 500 ms later, for this query

  /** The commentary requests of a log, in order. */
  function Prompts(log: seq<Effect>): seq<Prompt>
  {
    if log == [] then []
    else (if log[0].Commentary? then [log[0].prompt] else []) + Prompts(log[1..])
  }

  /** The bridge commands of a log, in order. */
  function Commands(log: seq<Effect>): seq<RemoteAction>
  {
    if log == [] then []
    else (if log[0].BridgeCommand? then [log[0].action] else []) + Commands(log[1..])
  }

  lemma {:induction false} PromptsAppend(a: seq<Effect>, b: seq<Effect>)
    ensures Prompts(a + b) == Prompts(a) + Prompts(b)
  {
    if a == [] {
      assert a + b == b;
    } else {
      assert (a + b)[0] == a[0];
      assert (a + b)[1..] == a[1..] + b;
      PromptsAppend(a[1..], b);
    }
  }

  lemma {:induction false} CommandsAppend(a: seq<Effect>, b: seq<Effect>)
    ensures Commands(a + b) == Commands(a) + Commands(b)
  {
    if a == [] {
      assert a + b == b;
    } else {
      assert (a + b)[0] == a[0];
      assert (a + b)[1..] == a[1..] + b;
      CommandsAppend(a[1..], b);
    }
  }

  /** What `triggerEditor(prompt)` adds to the log: one request, or nothing when
      there is no service instance yet. */
  function Ask(ready: bool, prompt: Prompt): seq<Effect>
  {
    if ready then [Commentary(prompt)] else []
  }

  /** The per-action part of `handleRemoteAction`. */
  datatype Reaction = AskEditor(prompt: Prompt) | ClearResponse | StartVoice | NoReaction

  /** The actions without an entry of their own in the policy table. */
  predicate Ordinary(action: RemoteAction)
  {
    !(action.Power? || action.Home? || action.Voice? || action.Mute?)
  }

  /** The policy table; `draw` is the outcome of `Math.random() > 0.97`. */
  function Policy(action: RemoteAction, draw: bool): Reaction
  {
    match action
    case Power => AskEditor(PowerPrompt)
    case Home => ClearResponse
    case Voice => StartVoice
    case Mute => AskEditor(MutePrompt)
    case _ => if draw then AskEditor(BrowsePrompt) else NoReaction
  }

  /** The effects of one dispatch: the bridge command first (only while connected),
      then the reaction's own. */
  function DispatchEffects(connected: bool, ready: bool, supported: bool, action: RemoteAction, draw: bool): seq<Effect>
  {
    (if connected then [BridgeCommand(action)] else []) +
    match Policy(action, draw)
    case AskEditor(p) => Ask(ready, p)
    case StartVoice => [if supported then RecognitionStarted else UnsupportedNotice]
    case _ => []
  }

  /** One dispatch forwards the action to the bridge exactly when connected, and
      forwards nothing else. */
  lemma DispatchCommands(connected: bool, ready: bool, supported: bool, action: RemoteAction, draw: bool)
    ensures Commands(DispatchEffects(connected, ready, supported, action, draw)) ==
            (if connected then [action] else [])
  {
    var bridge: seq<Effect> := if connected then [BridgeCommand(action)] else [];
    var rest := DispatchEffects(connected, ready, supported, action, draw)[|bridge|..];
    assert DispatchEffects(connected, ready, supported, action, draw) == bridge + rest;
    CommandsAppend(bridge, rest);
    assert Commands(rest) == [] by {
      assert |rest| <= 1;
      if |rest| == 1 { assert rest[1..] == []; }
    }
    if connected { assert bridge[1..] == []; }
  }

  /** The commentary requests of one dispatch: POWER and MUTE ask with their fixed
      prompt, HOME and VOICE never ask, every other action asks for a browsing
      recommendation exactly when the draw exceeds 0.97; nothing is asked while
      there is no service instance. */
  lemma DispatchPrompts(connected: bool, ready: bool, supported: bool, action: RemoteAction, draw: bool)
    ensures Prompts(DispatchEffects(connected, ready, supported, action, draw)) ==
            if !ready then []
            else if action.Power? then [PowerPrompt]
            else if action.Mute? then [MutePrompt]
            else if Ordinary(action) && draw then [BrowsePrompt]
            else []
  {
    var bridge: seq<Effect> := if connected then [BridgeCommand(action)] else [];
    var rest := DispatchEffects(connected, ready, supported, action, draw)[|bridge|..];
    assert DispatchEffects(connected, ready, supported, action, draw) == bridge + rest;
    PromptsAppend(bridge, rest);
    if connected { assert bridge[1..] == []; }
    if |rest| == 1 { assert rest[1..] == []; }
  }

  /** The log of a run of presses, each with its own draw, while the connection
      and the service instance stay as they are: what consecutive calls of
      `Controller.HandleRemoteAction` append. */
  function DispatchRun(connected: bool, ready: bool, supported: bool, actions: seq<RemoteAction>, draws: seq<bool>): seq<Effect>
    requires |actions| == |draws|
  {
    if actions == [] then []
    else DispatchEffects(connected, ready, supported, actions[0], draws[0]) +
         DispatchRun(connected, ready, supported, actions[1..], draws[1..])
  }

  function CountTrue(draws: seq<bool>): nat
  {
    if draws == [] then 0 else (if draws[0] then 1 else 0) + CountTrue(draws[1..])
  }

  /** A run forwards every press to the bridge, in order, exactly when connected. */
  lemma {:induction false} RunCommands(connected: bool, ready: bool, supported: bool, actions: seq<RemoteAction>, draws: seq<bool>)
    requires |actions| == |draws|
    ensures Commands(DispatchRun(connected, ready, supported, actions, draws)) ==
            (if connected then actions else [])
  {
    if actions != [] {
      CommandsAppend(DispatchEffects(connected, ready, supported, actions[0], draws[0]),
                     DispatchRun(connected, ready, supported, actions[1..], draws[1..]));
      DispatchCommands(connected, ready, supported, actions[0], draws[0]);
      RunCommands(connected, ready, supported, actions[1..], draws[1..]);
      if connected { assert actions == [actions[0]] + actions[1..]; }
    }
  }

  /** Before the service instance exists, no press of any kind makes a request. */
  lemma {:induction false} RunWithoutService(connected: bool, supported: bool, actions: seq<RemoteAction>, draws: seq<bool>)
    requires |actions| == |draws|
    ensures Prompts(DispatchRun(connected, false, supported, actions, draws)) == []
  {
    if actions != [] {
      PromptsAppend(DispatchEffects(connected, false, supported, actions[0], draws[0]),
                    DispatchRun(connected, false, supported, actions[1..], draws[1..]));
      DispatchPrompts(connected, false, supported, actions[0], draws[0]);
      RunWithoutService(connected, supported, actions[1..], draws[1..]);
    }
  }

  /** Over a run of presses of the other actions, every request is a browsing
      recommendation, and one is made per draw above the threshold. */
  lemma {:induction false} OrdinaryRun(connected: bool, supported: bool, actions: seq<RemoteAction>, draws: seq<bool>)
    requires |actions| == |draws|
    requires forall i :: 0 <= i < |actions| ==> Ordinary(actions[i])
    ensures |Prompts(DispatchRun(connected, true, supported, actions, draws))| == CountTrue(draws)
    ensures forall p :: p in Prompts(DispatchRun(connected, true, supported, actions, draws)) ==> p == BrowsePrompt
  {
    if actions != [] {
      PromptsAppend(DispatchEffects(connected, true, supported, actions[0], draws[0]),
                    DispatchRun(connected, true, supported, actions[1..], draws[1..]));
      DispatchPrompts(connected, true, supported, actions[0], draws[0]);
      OrdinaryRun(connected, supported, actions[1..], draws[1..]);
    }
  }

  /** The prompt a POWER or MUTE press asks with. */
  function FixedPrompt(action: RemoteAction): Prompt
  {
    if action.Power? then PowerPrompt else MutePrompt
  }

  /** Over a run of POWER and MUTE presses, every press makes its own request, in
      order, whatever the draws. */
  lemma {:induction false} PowerMuteRun(connected: bool, supported: bool, actions: seq<RemoteAction>, draws: seq<bool>)
    requires |actions| == |draws|
    requires forall i :: 0 <= i < |actions| ==> actions[i].Power? || actions[i].Mute?
    ensures |Prompts(DispatchRun(connected, true, supported, actions, draws))| == |actions|
    ensures forall i :: 0 <= i < |actions| ==>
              Prompts(DispatchRun(connected, true, supported, actions, draws))[i] == FixedPrompt(actions[i])
  {
    if actions != [] {
      var rest := DispatchRun(connected, true, supported, actions[1..], draws[1..]);
      PromptsAppend(DispatchEffects(connected, true, supported, actions[0], draws[0]), rest);
      DispatchPrompts(connected, true, supported, actions[0], draws[0]);
      PowerMuteRun(connected, supported, actions[1..], draws[1..]);
      forall i | 0 < i < |actions|
        ensures Prompts(DispatchRun(connected, true, supported, actions, draws))[i] == FixedPrompt(actions[i])
      {
        assert actions[1..][i - 1] == actions[i];
      }
    }
  }

  /** The outcome of the awaited `fetch` and `res.json()` of a connect. */
  datatype ConnectResult = TransportError | Response(ok: bool, bodyParsed: bool)

  /** A connect succeeds only when the response arrived, its body parsed and it was ok. */
  predicate ConnectSucceeded(r: ConnectResult)
  {
    r.Response? && r.ok && r.bodyParsed
  }

  /** `localStorage.getItem('firetv_ip') || ''` */
  function IpOrEmpty(stored: Option<string>): string
  {
    if stored.Some? then stored.value else ""
  }

  /** The concatenated first-alternative transcripts of a recognition event's results;
      each result holds its alternatives' transcripts, first one first. */
  function Transcript(results: seq<seq<string>>): string
    requires forall i :: 0 <= i < |results| ==> results[i] != []
  {
    if results == [] then "" else results[0][0] + Transcript(results[1..])
  }

  /** Later results extend the transcript; they never reorder it. */
  lemma {:induction false} TranscriptAppend(a: seq<seq<string>>, b: seq<seq<string>>)
    requires forall i :: 0 <= i < |a| ==> a[i] != []
    requires forall i :: 0 <= i < |b| ==> b[i] != []
    ensures Transcript(a + b) == Transcript(a) + Transcript(b)
  {
    if a == [] {
      assert a + b == b;
    } else {
      assert (a + b)[0] == a[0];
      assert (a + b)[1..] == a[1..] + b;
      TranscriptAppend(a[1..], b);
    }
  }

  /** A speech-recognition session. Its handlers were created in the render that
      started it and see the search query of that render, not the live one. */
  datatype VoiceSession = VoiceSession(capturedQuery: string)

  class Controller {
    var lastAction: Option<RemoteAction>
    var editorResponse: Option<EditorResponse>
    var loading: bool
    var isVoiceActive: bool
    var searchQuery: string
    var connection: ConnectionState
    /** The persisted address (`localStorage['firetv_ip']`). */
    var storedIp: Option<string>
    /** Whether the `EditorService` instance has been created. */
    var serviceReady: bool
    ghost var effects: seq<Effect>

    /** `loading` is only ever set by a request, which needs the service; the
        shown address always mirrors the persisted one. */
    ghost predicate Valid()
      reads this
    {
      (loading ==> serviceReady) && connection.ip == IpOrEmpty(storedIp)
    }

    /** The initial state of the component, with the persisted address read back. */
    constructor (stored: Option<string>)
      ensures Valid()
      ensures lastAction == None && editorResponse == None
      ensures !loading && !isVoiceActive && searchQuery == ""
      ensures connection == ConnectionState(IpOrEmpty(stored), false, false)
      ensures storedIp == stored && !serviceReady && effects == []
    {
      lastAction := None;
      editorResponse := None;
      loading := false;
      isVoiceActive := false;
      searchQuery := "";
      connection := ConnectionState(IpOrEmpty(stored), false, false);
      storedIp := stored;
      serviceReady := false;
      effects := [];
    }

    /** The mount effect that creates the service instance. */
    method Mount()
      requires Valid()
      modifies this`serviceReady
      ensures Valid() && serviceReady
    {
      serviceReady := true;
    }

    /** `triggerEditor(prompt)` up to its `await`. */
    method BeginEditor(prompt: Prompt)
      requires Valid()
      modifies this`loading, this`effects
      ensures Valid()
      ensures loading == (old(loading) || serviceReady)
      ensures effects == old(effects) + Ask(serviceReady, prompt)
    {
      if !serviceReady {
        return;
      }
      loading := true;
      effects := effects + [Commentary(prompt)];
    }

    /** `triggerEditor` after its `await`: the normalised response is shown. */
    method FinishEditor(outcome: EditorService.Outcome)
      requires Valid() && serviceReady
      modifies this`editorResponse, this`loading
      ensures Valid()
      ensures editorResponse == Some(EditorService.GetFeedback(outcome)) && !loading
    {
      editorResponse := Some(EditorService.GetFeedback(outcome));
      loading := false;
    }

    /** Closing the commentary overlay. */
    method DismissOverlay()
      requires Valid()
      modifies this`editorResponse
      ensures Valid() && editorResponse == None
    {
      editorResponse := None;
    }

    /** `handleConnect(ip)` up to its `await`: the attempted address is shown and
        persisted at once; `isConnected` keeps its old value. */
    method BeginConnect(ip: string)
      requires Valid()
      modifies this`connection, this`storedIp, this`effects
      ensures Valid()
      ensures connection == ConnectionState(ip, old(connection).isConnected, true)
      ensures storedIp == Some(ip)
      ensures effects == old(effects) + [BridgeConnect(ip)]
    {
      connection := connection.(isConnecting := true, ip := ip);
      storedIp := Some(ip);
      effects := effects + [BridgeConnect(ip)];
    }

    /** `handleConnect(ip)` after its `await`: both branches clear `isConnecting`
        and ask for one commentary about the attempt. */
    method FinishConnect(ip: string, result: ConnectResult)
      requires Valid()
      modifies this`connection, this`loading, this`effects
      ensures Valid()
      ensures connection == old(connection).(isConnected := ConnectSucceeded(result), isConnecting := false)
      ensures loading == (old(loading) || serviceReady)
      ensures effects == old(effects) +
                Ask(serviceReady, if ConnectSucceeded(result) then ConnectedPrompt(ip) else FailedPrompt(ip))
    {
      if ConnectSucceeded(result) {
        connection := connection.(isConnected := true, isConnecting := false);
        BeginEditor(ConnectedPrompt(ip));
      } else {
        connection := connection.(isConnected := false, isConnecting := false);
        BeginEditor(FailedPrompt(ip));
      }
    }

    /** Typing in the search field. */
    method EditQuery(text: string)
      requires Valid()
      modifies this`searchQuery
      ensures Valid() && searchQuery == text
    {
      searchQuery := text;
    }

    /** The body of `handleSearchSubmit`, for the query the handler sees: a blank
        query does nothing; any other is sent to the critic and the field cleared. */
    method SubmitQuery(query: string)
      requires Valid()
      modifies this`searchQuery, this`loading, this`effects
      ensures Valid()
      ensures IsBlank(query) ==>
                searchQuery == old(searchQuery) && loading == old(loading) && effects == old(effects)
      ensures !IsBlank(query) ==>
                searchQuery == "" && loading == (old(loading) || serviceReady) &&
                effects == old(effects) + Ask(serviceReady, SearchPrompt(query))
    {
      if IsBlank(query) {
        return;
      }
      BeginEditor(SearchPrompt(query));
      searchQuery := "";
    }

    /** Submitting the search form. */
    method HandleSearchSubmit()
      requires Valid()
      modifies this`searchQuery, this`loading, this`effects
      ensures Valid()
      ensures IsBlank(old(searchQuery)) ==>
                searchQuery == old(searchQuery) && loading == old(loading) && effects == old(effects)
      ensures !IsBlank(old(searchQuery)) ==>
                searchQuery == "" && loading == (old(loading) || serviceReady) &&
                effects == old(effects) + Ask(serviceReady, SearchPrompt(old(searchQuery)))
    {
      SubmitQuery(searchQuery);
    }

    /** `startVoiceInput`: without a recogniser the user is told so; otherwise a
        session is started whose handlers see the current query. */
    method StartVoiceInput(supported: bool) returns (session: Option<VoiceSession>)
      requires Valid()
      modifies this`effects
      ensures Valid()
      ensures supported ==> session == Some(VoiceSession(searchQuery)) && effects == old(effects) + [RecognitionStarted]
      ensures !supported ==> session == None && effects == old(effects) + [UnsupportedNotice]
    {
      if !supported {
        effects := effects + [UnsupportedNotice];
        return None;
      }
      session := Some(VoiceSession(searchQuery));
      effects := effects + [RecognitionStarted];
    }

    /** `recognition.onstart` */
    method OnVoiceStart()
      requires Valid()
      modifies this`isVoiceActive
      ensures Valid() && isVoiceActive
    {
      isVoiceActive := true;
    }

    /** `recognition.onresult`: the query becomes the transcript so far, replacing
        what was there. */
    method OnVoiceResult(results: seq<seq<string>>)
      requires Valid()
      requires forall i :: 0 <= i < |results| ==> results[i] != []
      modifies this`searchQuery
      ensures Valid() && searchQuery == Transcript(results)
    {
      searchQuery := Transcript(results);
    }

    /** `recognition.onerror`: the partial query is kept. */
    method OnVoiceError()
      requires Valid()
      modifies this`isVoiceActive
      ensures Valid() && !isVoiceActive
    {
      isVoiceActive := false;
    }

    /** `recognition.onend`: a submit is scheduled exactly when the query the
        session captured is not blank; the live query is not consulted. */
    method OnVoiceEnd(session: VoiceSession)
      requires Valid()
      modifies this`isVoiceActive, this`effects
      ensures Valid() && !isVoiceActive
      ensures effects == old(effects) +
                (if IsBlank(session.capturedQuery) then [] else [SubmitScheduled(session.capturedQuery)])
    {
      isVoiceActive := false;
      if !IsBlank(session.capturedQuery) {
        effects := effects + [SubmitScheduled(session.capturedQuery)];
      }
    }

    /** The scheduled submit firing: the session's `handleSearchSubmit` sees the
        captured query, submits that, and clears the live field. */
    method FireScheduledSubmit(session: VoiceSession)
      requires Valid()
      requires !IsBlank(session.capturedQuery)
      modifies this`searchQuery, this`loading, this`effects
      ensures Valid()
      ensures searchQuery == "" && loading == (old(loading) || serviceReady)
      ensures effects == old(effects) + Ask(serviceReady, SearchPrompt(session.capturedQuery))
    {
      SubmitQuery(session.capturedQuery);
    }

    /** `handleRemoteAction(action)`: record the action, forward it to the bridge
        while connected, then apply the policy table. `draw` is the outcome of
        `Math.random() > 0.97`; `supported` whether speech recognition exists. */
    method HandleRemoteAction(action: RemoteAction, draw: bool, supported: bool)
      returns (session: Option<VoiceSession>)
      requires Valid()
      modifies this`lastAction, this`editorResponse, this`loading, this`effects
      ensures Valid()
      ensures lastAction == Some(action)
      ensures connection == old(connection)
      ensures effects == old(effects) + DispatchEffects(connection.isConnected, serviceReady, supported, action, draw)
      ensures editorResponse == (if action.Home? then None else old(editorResponse))
      ensures loading == (old(loading) || (serviceReady && Policy(action, draw).AskEditor?))
      ensures session == (if action.Voice? && supported then Some(VoiceSession(searchQuery)) else None)
    {
      lastAction := Some(action);
      if connection.isConnected {
        effects := effects + [BridgeCommand(action)];
      }
      session := None;
      match Policy(action, draw)
      case AskEditor(prompt) =>
        BeginEditor(prompt);
      case ClearResponse =>
        editorResponse := None;
      case StartVoice =>
        session := StartVoiceInput(supported);
      case NoReaction =>
    }
  }
}
