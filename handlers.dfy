/** The bot's handlers as transitions of one chat's state. Each handler
    runs to completion: it reads the chat's state, writes it (or not),
    makes at most one remote call, whose outcome is a parameter, and sends
    replies in order. */
module Handlers {
  import opened Js
  import opened Service
  import opened Chat
  import opened State
  import Formatting

  /** The effect of one handler run on its chat: whether it wrote the
      chat's entry and the state it leaves, the remote call it made, and
      the replies it sent. */
  datatype Step = Step(wrote: bool, state: ChatState, call: Option<Call>, replies: seq<Reply>)

  /** The awaited call answered without reporting an error. */
  predicate Succeeded(o: Outcome<PostResponse>) {
    o.Returned? && !Reported(o.data.error)
  }

  /** The replies after an awaited call: the error text the service
      reported, the failure message when the call threw, or `success`. */
  function Answer(o: Outcome<PostResponse>, success: seq<Reply>, failure: Reply): seq<Reply> {
    match o
    case Threw => [failure]
    case Returned(d) => if Reported(d.error) then [ErrorText(d.error.value)] else success
  }

  // --------------------------------------------------------------- commands

  /** `/capture`: the chat switches to capture mode and is prompted. */
  function OnCapture(s: ChatState): (r: Step)
    ensures r.wrote && r.state == ChatState(Capture, s.lastPost)
    ensures r.call.None? && r.replies == [CapturePrompt]
  {
    Step(true, Merge(s, SetMode(Capture)), None, [CapturePrompt])
  }

  /** `/generate`: the chat switches to generate mode and is prompted. */
  function OnGenerate(s: ChatState): (r: Step)
    ensures r.wrote && r.state == ChatState(Generate, s.lastPost)
    ensures r.call.None? && r.replies == [GeneratePrompt]
  {
    Step(true, Merge(s, SetMode(Generate)), None, [GeneratePrompt])
  }

  /** `/refine`: only a chat holding a (truthy) last post enters refine
      mode; otherwise nothing is written and the user is told. Neither
      branch calls the service or touches the last post. */
  function OnRefine(s: ChatState): (r: Step)
    ensures r.call.None? && r.state.lastPost == s.lastPost
    ensures !Truthy(s.lastPost) ==> !r.wrote && r.state == s && r.replies == [NothingToRefine]
    ensures Truthy(s.lastPost) ==> r.wrote && r.state.mode == Refine && r.replies == [RefinePrompt]
  {
    if !Truthy(s.lastPost) then Step(false, s, None, [NothingToRefine])
    else Step(true, Merge(s, SetMode(Refine)), None, [RefinePrompt])
  }

  // ----------------------------------------------------------- text message

  /** The main message handler. A message with no text or starting with "/"
      changes nothing. Otherwise the trimmed text goes to exactly one remote
      call chosen by the mode (capture, refine, and generate for every other
      mode), the mode returns to idle whatever the outcome, and the last
      post changes only when the call succeeded. */
  function OnMessage(s: ChatState, text: Option<string>, o: Outcome<PostResponse>): (r: Step)
    ensures Skipped(text) ==> r == Step(false, s, None, [])
    ensures !Skipped(text) ==> r.wrote && r.state.mode == Idle
    ensures !Skipped(text) && s.mode == Capture ==>
      && r.call == Some(CaptureCall(Trim(text.value)))
      && r.state.lastPost == s.lastPost
      && r.replies == [SavingToVault] + Answer(o, [SavedToVault], CouldNotSave)
    ensures !Skipped(text) && s.mode == Refine ==>
      && r.call == Some(RefineCall(s.lastPost, Trim(text.value)))
      && r.state.lastPost == (if Succeeded(o) then Or(o.data.post, o.data.content) else s.lastPost)
      && r.replies == [RefiningPost] + Answer(o, [PostText(r.state.lastPost)], RefineFailed)
    ensures !Skipped(text) && (s.mode == Idle || s.mode == Generate) ==>
      && r.call == Some(GenerateCall(Trim(text.value), OPTIMAL_LENGTH))
      && r.state.lastPost == (if Succeeded(o) then o.data.post else s.lastPost)
      && r.replies == [GeneratingPost] + Answer(o, [PostText(r.state.lastPost)], GenerationFailed)
    ensures !Skipped(text) && o.Returned? && Reported(o.data.error) ==>
      r.state == ChatState(Idle, s.lastPost) && r.replies[1] == ErrorText(o.data.error.value)
  {
    if Skipped(text) then Step(false, s, None, [])
    else
      var t := Trim(text.value);
      var idle := Merge(s, SetMode(Idle));
      match s.mode
      case Capture =>
        Step(true, idle, Some(CaptureCall(t)), [SavingToVault] + Answer(o, [SavedToVault], CouldNotSave))
      case Refine =>
        var call := RefineCall(s.lastPost, t);
        if Succeeded(o) then
          var refined := Or(o.data.post, o.data.content);
          Step(true, Merge(idle, SetLastPost(refined)), Some(call), [RefiningPost, PostText(refined)])
        else
          Step(true, idle, Some(call), [RefiningPost] + Answer(o, [], RefineFailed))
      case _ =>
        var call := GenerateCall(t, OPTIMAL_LENGTH);
        if Succeeded(o) then
          var post := o.data.post;
          Step(true, Merge(idle, SetLastPost(post)), Some(call), [GeneratingPost, PostText(post)])
        else
          Step(true, idle, Some(call), [GeneratingPost] + Answer(o, [], GenerationFailed))
  }

  // ----------------------------------------------------- informational ones

  /** The effect of a handler that reads the service and touches no chat
      state: the call it made and the replies it sent. */
  datatype Query = Query(call: Call, replies: seq<Reply>)

  /** `/status`: the handler asks for `get_status`; the fields of the
      report come from the answer, a reported error is shown verbatim and
      an exception gives the retry message. */
  function OnStatus(o: Outcome<StatusResponse>): (r: Query)
    ensures r.call == StatusCall
    ensures |r.replies| == 2 && r.replies[0] == CheckingAccount
    ensures o.Threw? ==> r.replies[1] == CouldNotReach
    ensures o.Returned? && Reported(o.data.error) ==> r.replies[1] == ErrorText(o.data.error.value)
    ensures o.Returned? && !Reported(o.data.error) ==> r.replies[1] == StatusReport(Formatting.StatusOf(o.data))
  {
    match o
    case Threw => Query(StatusCall, [CheckingAccount, CouldNotReach])
    case Returned(d) =>
      if Reported(d.error) then Query(StatusCall, [CheckingAccount, ErrorText(d.error.value)])
      else Query(StatusCall, [CheckingAccount, StatusReport(Formatting.StatusOf(d))])
  }

  /** `/vault`: the handler asks for the `VAULT_LIMIT` most recent
      captures; then a reported error first, then a missing or empty
      capture list, then the numbered listing. */
  function OnVault(o: Outcome<VaultResponse>): (r: Query)
    ensures r.call == VaultCall(VAULT_LIMIT)
    ensures |r.replies| == 2 && r.replies[0] == FetchingVault
    ensures o.Threw? ==> r.replies[1] == CouldNotReach
    ensures o.Returned? && Reported(o.data.error) ==> r.replies[1] == ErrorText(o.data.error.value)
    ensures o.Returned? && !Reported(o.data.error) ==>
      (r.replies[1] == VaultEmpty <==> o.data.captures.None? || o.data.captures.value == [])
    ensures o.Returned? && !Reported(o.data.error) && o.data.captures.Some? && o.data.captures.value != [] ==>
      r.replies[1] == VaultListing(Formatting.VaultList(o.data.captures.value))
  {
    var call := VaultCall(VAULT_LIMIT);
    match o
    case Threw => Query(call, [FetchingVault, CouldNotReach])
    case Returned(d) =>
      if Reported(d.error) then Query(call, [FetchingVault, ErrorText(d.error.value)])
      else if d.captures.None? || d.captures.value == [] then Query(call, [FetchingVault, VaultEmpty])
      else Query(call, [FetchingVault, VaultListing(Formatting.VaultList(d.captures.value))])
  }

  // ----------------------------------------------------- runs of one chat

  /** The events that reach one chat's state. */
  datatype Event =
    | CaptureCommand
    | GenerateCommand
    | RefineCommand
    | Message(text: Option<string>, outcome: Outcome<PostResponse>)

  function Apply(s: ChatState, e: Event): Step {
    match e
    case CaptureCommand => OnCapture(s)
    case GenerateCommand => OnGenerate(s)
    case RefineCommand => OnRefine(s)
    case Message(text, o) => OnMessage(s, text, o)
  }

  /** The state after the events, in order. */
  function Final(s: ChatState, es: seq<Event>): ChatState
    decreases |es|
  {
    if es == [] then s else Final(Apply(s, es[0]).state, es[1..])
  }

  /** The remote calls the events make, in order. */
  function Calls(s: ChatState, es: seq<Event>): seq<Call>
    decreases |es|
  {
    if es == [] then []
    else
      var r := Apply(s, es[0]);
      (if r.call.Some? then [r.call.value] else []) + Calls(r.state, es[1..])
  }

  /** Refine mode is held only together with a post to refine. */
  predicate RefineReady(s: ChatState) {
    s.mode == Refine ==> Truthy(s.lastPost)
  }

  lemma ApplyKeepsRefineReady(s: ChatState, e: Event)
    requires RefineReady(s)
    ensures RefineReady(Apply(s, e).state)
  {
  }

  /** Every chat, starting from the default state, stays refine-ready. */
  lemma {:induction false} FinalRefineReady(s: ChatState, es: seq<Event>)
    requires RefineReady(s)
    ensures RefineReady(Final(s, es))
    decreases |es|
  {
    if es != [] {
      ApplyKeepsRefineReady(s, es[0]);
      FinalRefineReady(Apply(s, es[0]).state, es[1..]);
    }
  }

  /** Every refine call a refine-ready chat makes carries a post. */
  lemma {:induction false} RefineCallsCarryPost(s: ChatState, es: seq<Event>)
    requires RefineReady(s)
    ensures forall c :: c in Calls(s, es) && c.RefineCall? ==> Truthy(c.post)
    decreases |es|
  {
    if es != [] {
      var r := Apply(s, es[0]);
      ApplyKeepsRefineReady(s, es[0]);
      RefineCallsCarryPost(r.state, es[1..]);
      assert Calls(s, es) == (if r.call.Some? then [r.call.value] else []) + Calls(r.state, es[1..]);
    }
  }

  /** A chat without a post never calls the refine action as long as no
      message succeeds with a (truthy) post: `/refine` before any post
      exists is refused, and neither a capture nor an answer without a post
      gives it one. */
  lemma {:induction false} NoRefineCallWithoutPost(s: ChatState, es: seq<Event>)
    requires !Truthy(s.lastPost) && s.mode != Refine
    requires forall k :: 0 <= k < |es| && es[k].Message? && Succeeded(es[k].outcome) ==> !Truthy(es[k].outcome.data.post)
    ensures forall c :: c in Calls(s, es) ==> !c.RefineCall?
    decreases |es|
  {
    if es != [] {
      var r := Apply(s, es[0]);
      assert !Truthy(r.state.lastPost) && r.state.mode != Refine;
      assert forall k :: 0 <= k < |es[1..]| && es[1..][k].Message? && Succeeded(es[1..][k].outcome) ==> !Truthy(es[1..][k].outcome.data.post) by {
        forall k | 0 <= k < |es[1..]| && es[1..][k].Message? && Succeeded(es[1..][k].outcome)
          ensures !Truthy(es[1..][k].outcome.data.post)
        {
          assert es[1..][k] == es[k + 1];
        }
      }
      NoRefineCallWithoutPost(r.state, es[1..]);
    }
  }

  /** Generating a post and then refining it: the refine call's `post`
      argument is exactly the generated post. */
  lemma GenerateThenRefine(s: ChatState, idea: string, p: string, d: PostResponse, instruction: string, o: Outcome<PostResponse>)
    requires s.mode == Idle || s.mode == Generate
    requires !Skipped(Some(idea)) && !Skipped(Some(instruction))
    requires !Reported(d.error) && d.post == Some(p) && p != ""
    ensures var es := [Message(Some(idea), Returned(d)), RefineCommand, Message(Some(instruction), o)];
      && Calls(s, es) == [GenerateCall(Trim(idea), OPTIMAL_LENGTH), RefineCall(Some(p), Trim(instruction))]
      && Final(s, es).mode == Idle
      && Final(s, es).lastPost == (if Succeeded(o) then Or(o.data.post, o.data.content) else Some(p))
  {
    var es := [Message(Some(idea), Returned(d)), RefineCommand, Message(Some(instruction), o)];
    var s1 := OnMessage(s, Some(idea), Returned(d)).state;
    assert s1 == ChatState(Idle, Some(p));
    var s2 := OnRefine(s1).state;
    assert s2 == ChatState(Refine, Some(p));
    assert es[1..] == [RefineCommand, Message(Some(instruction), o)];
    assert es[1..][1..] == [Message(Some(instruction), o)];
    assert Calls(s, es) == [GenerateCall(Trim(idea), OPTIMAL_LENGTH)] + Calls(s1, es[1..]);
    assert Calls(s1, es[1..]) == Calls(s2, es[1..][1..]);
    var s3 := OnMessage(s2, Some(instruction), o).state;
    assert Final(s, es) == Final(s1, es[1..]) == Final(s2, es[1..][1..]) == Final(s3, []);
  }

  /** A message that starts with a command, sent in capture mode, is not
      captured and changes nothing here; only the command's own handler
      acts on it. */
  lemma CommandInCaptureMode(s: ChatState, text: string, c: Command, o: Outcome<PostResponse>)
    requires s.mode == Capture
    requires StartsWith(text, Pattern(c))
    ensures c in Fired(Some(text))
    ensures OnMessage(s, Some(text), o) == Step(false, s, None, [])
  {
    CommandPrefixIsOnlyCommand(text, c);
  }

  /** A command after other text, sent in capture mode, is captured as
      content (and its command handler fires too). */
  lemma CommandInsideTextIsCaptured(s: ChatState, note: string, c: Command, o: Outcome<PostResponse>)
    requires s.mode == Capture
    requires note != [] && note[0] != '/'
    ensures var text := note + " " + Pattern(c);
      && c in Fired(Some(text))
      && OnMessage(s, Some(text), o).call == Some(CaptureCall(Trim(text)))
  {
    CommandInsideTextFallsThrough(note, c);
  }

  /** Which entry a handler run leaves in the store: the written state, or
      the untouched store when it wrote nothing. */
  function Written(m: map<ChatId, ChatState>, id: ChatId, r: Step): map<ChatId, ChatState> {
    if r.wrote then m[id := r.state] else m
  }
}
