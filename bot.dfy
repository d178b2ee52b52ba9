/** The bot process: the process-wide `userState` table and the handlers
    that read and write it step by step. Each method is proved to leave the
    table, make the call and send the replies that the transition of the
    same name in `Handlers` describes. */
module Bot {
  import opened Js
  import opened Service
  import opened Chat
  import opened State
  import Handlers

  class Conversations {
    /** `userState`: one entry per chat that has been written. */
    var userState: map<ChatId, ChatState>

    constructor ()
      ensures userState == map[]
    {
      userState := map[];
    }

    /** `getState`: the chat's entry, or the default for a chat that has
        none; reading never creates an entry. */
    function GetState(chatId: ChatId): (s: ChatState)
      reads this
      ensures chatId in userState ==> s == userState[chatId]
      ensures chatId !in userState ==> s == DefaultState && s.mode == Idle && s.lastPost == None
    {
      if chatId in userState then userState[chatId] else DefaultState
    }

    /** `setState`: merges the update into the chat's current (or default)
        state and stores the result; other chats keep their entries. */
    method SetState(chatId: ChatId, u: Update)
      modifies this
      ensures userState == old(userState)[chatId := Merge(old(GetState(chatId)), u)]
      ensures forall c :: c != chatId ==> GetState(c) == old(GetState(c))
    {
      userState := userState[chatId := Merge(GetState(chatId), u)];
    }

    /** The `/capture` handler. */
    method OnCapture(chatId: ChatId) returns (replies: seq<Reply>)
      modifies this
      ensures var r := Handlers.OnCapture(old(GetState(chatId)));
        replies == r.replies && userState == Handlers.Written(old(userState), chatId, r)
    {
      SetState(chatId, SetMode(Capture));
      replies := [CapturePrompt];
    }

    /** The `/generate` handler. */
    method OnGenerate(chatId: ChatId) returns (replies: seq<Reply>)
      modifies this
      ensures var r := Handlers.OnGenerate(old(GetState(chatId)));
        replies == r.replies && userState == Handlers.Written(old(userState), chatId, r)
    {
      SetState(chatId, SetMode(Generate));
      replies := [GeneratePrompt];
    }

    /** The `/refine` handler. */
    method OnRefine(chatId: ChatId) returns (replies: seq<Reply>)
      modifies this
      ensures var r := Handlers.OnRefine(old(GetState(chatId)));
        replies == r.replies && userState == Handlers.Written(old(userState), chatId, r)
    {
      var state := GetState(chatId);
      if !Truthy(state.lastPost) {
        return [NothingToRefine];
      }
      SetState(chatId, SetMode(Refine));
      replies := [RefinePrompt];
    }

    /** The main message handler; `outcome` is what the awaited remote
        call produced. */
    method OnMessage(chatId: ChatId, text: Option<string>, outcome: Outcome<PostResponse>)
      returns (call: Option<Call>, replies: seq<Reply>)
      modifies this
      ensures var r := Handlers.OnMessage(old(GetState(chatId)), text, outcome);
        call == r.call && replies == r.replies && userState == Handlers.Written(old(userState), chatId, r)
    {
      if Skipped(text) {
        return None, [];
      }
      var t := Trim(text.value);
      var state := GetState(chatId);

      if state.mode == Capture {
        SetState(chatId, SetMode(Idle));
        replies := [SavingToVault];
        call := Some(CaptureCall(t));
        match outcome {
          case Threw =>
            replies := replies + [CouldNotSave];
          case Returned(data) =>
            if Reported(data.error) {
              return call, replies + [ErrorText(data.error.value)];
            }
            replies := replies + [SavedToVault];
        }
        return;
      }

      if state.mode == Refine {
        SetState(chatId, SetMode(Idle));
        replies := [RefiningPost];
        call := Some(RefineCall(state.lastPost, t));
        match outcome {
          case Threw =>
            replies := replies + [RefineFailed];
          case Returned(data) =>
            if Reported(data.error) {
              return call, replies + [ErrorText(data.error.value)];
            }
            var refined := Or(data.post, data.content);
            SetState(chatId, SetLastPost(refined));
            replies := replies + [PostText(refined)];
        }
        return;
      }

      SetState(chatId, SetMode(Idle));
      replies := [GeneratingPost];
      call := Some(GenerateCall(t, OPTIMAL_LENGTH));
      match outcome {
        case Threw =>
          replies := replies + [GenerationFailed];
        case Returned(data) =>
          if Reported(data.error) {
            return call, replies + [ErrorText(data.error.value)];
          }
          var post := data.post;
          SetState(chatId, SetLastPost(post));
          replies := replies + [PostText(post)];
      }
    }
  }

  /** Two chats do not disturb each other: a message to one leaves the
      other's state as it was. */
  method Isolation(bot: Conversations, a: ChatId, b: ChatId, text: Option<string>, o: Outcome<PostResponse>)
    requires a != b
    modifies bot
    ensures bot.GetState(b) == old(bot.GetState(b))
  {
    var _, _ := bot.OnMessage(a, text, o);
  }

  /** A conversation driven through the handlers themselves: a generated
      post is what the following refine call sends, whatever the chat held
      before. */
  method GenerateThenRefine(bot: Conversations, chatId: ChatId, idea: string, d: PostResponse, instruction: string, o: Outcome<PostResponse>)
    returns (refineCall: Option<Call>)
    requires bot.GetState(chatId).mode == Idle || bot.GetState(chatId).mode == Generate
    requires !Skipped(Some(idea)) && !Skipped(Some(instruction))
    requires !Reported(d.error) && Truthy(d.post)
    modifies bot
    ensures refineCall == Some(RefineCall(d.post, Trim(instruction)))
    ensures bot.GetState(chatId).mode == Idle
  {
    var generateCall, generated := bot.OnMessage(chatId, Some(idea), Returned(d));
    assert bot.GetState(chatId) == ChatState(Idle, d.post);
    var prompt := bot.OnRefine(chatId);
    assert bot.GetState(chatId).mode == Refine;
    var refined;
    refineCall, refined := bot.OnMessage(chatId, Some(instruction), o);
  }
}
