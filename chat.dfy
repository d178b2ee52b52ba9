/** What the chat transport delivers to the bot's handlers and what they
    send back. Replies are abstract: each constructor stands for one of the
    fixed texts of the bot, with the variable part it carries. */
module Chat {
  import opened Js
  import Formatting

  datatype Reply =
    | CapturePrompt
    | GeneratePrompt
    | RefinePrompt
    | NothingToRefine
    | SavingToVault
    | SavedToVault
    | CouldNotSave
    | RefiningPost
    | RefineFailed
    | GeneratingPost
    | GenerationFailed
      /** The generated or refined post itself (possibly `undefined`). */
    | PostText(post: Option<string>)
      /** "Error: " followed by the service's error text. */
    | ErrorText(error: string)
    | CheckingAccount
    | StatusReport(view: Formatting.StatusView)
    | FetchingVault
    | VaultEmpty
    | VaultListing(list: string)
    | CouldNotReach

  /** The commands registered with `onText`, in registration order. */
  datatype Command = StartCmd | HelpCmd | StatusCmd | VaultCmd | CaptureCmd | GenerateCmd | RefineCmd

  const Registered: seq<Command> := [StartCmd, HelpCmd, StatusCmd, VaultCmd, CaptureCmd, GenerateCmd, RefineCmd]

  /** The literal each command's regex searches for. */
  function Pattern(c: Command): string {
    match c
    case StartCmd => "/start"
    case HelpCmd => "/help"
    case StatusCmd => "/status"
    case VaultCmd => "/vault"
    case CaptureCmd => "/capture"
    case GenerateCmd => "/generate"
    case RefineCmd => "/refine"
  }

  /** A command's position in the registration order. */
  function Rank(c: Command): nat {
    match c
    case StartCmd => 0
    case HelpCmd => 1
    case StatusCmd => 2
    case VaultCmd => 3
    case CaptureCmd => 4
    case GenerateCmd => 5
    case RefineCmd => 6
  }

  /** `Rank` is the command's index in `Registered`, and `Registered` is
      itself in registration order. */
  lemma RankIsIndex(c: Command)
    ensures Rank(c) < |Registered| && Registered[Rank(c)] == c
    ensures Ranked(Registered)
  {
  }

  /** The commands appear in strictly increasing registration order; in
      particular none appears twice. */
  predicate Ranked(cs: seq<Command>) {
    forall i, j :: 0 <= i < j < |cs| ==> Rank(cs[i]) < Rank(cs[j])
  }

  /** The commands of `cs`, in order, whose literal occurs in `text`. */
  function Matching(cs: seq<Command>, text: string): (r: seq<Command>)
    ensures forall c :: c in r <==> c in cs && Contains(text, Pattern(c))
    ensures |r| <= |cs|
    ensures Ranked(cs) ==> Ranked(r)
  {
    if cs == [] then []
    else
      var rest := Matching(cs[1..], text);
      var r := (if Contains(text, Pattern(cs[0])) then [cs[0]] else []) + rest;
      if Ranked(cs) then
        RankedTail(cs);
        RankedCons(cs[0], rest);
        r
      else r
  }

  lemma RankedTail(cs: seq<Command>)
    requires cs != [] && Ranked(cs)
    ensures Ranked(cs[1..])
    ensures forall c :: c in cs[1..] ==> Rank(cs[0]) < Rank(c)
  {
    forall c | c in cs[1..] ensures Rank(cs[0]) < Rank(c) {
      var j :| 0 <= j < |cs[1..]| && cs[1..][j] == c;
      assert cs[j + 1] == c;
    }
  }

  lemma RankedCons(x: Command, rest: seq<Command>)
    requires Ranked(rest)
    requires forall c :: c in rest ==> Rank(x) < Rank(c)
    ensures Ranked([x] + rest)
  {
    var r := [x] + rest;
    forall i, j | 0 <= i < j < |r| ensures Rank(r[i]) < Rank(r[j]) {
      assert r[j] == rest[j - 1];
      if i > 0 {
        assert r[i] == rest[i - 1];
      }
    }
  }

  /** The command handlers a message triggers, each once and in
      registration order. The regexes carry no anchor, so a command
      anywhere in the text triggers its handler. */
  function Fired(text: Option<string>): (r: seq<Command>)
    ensures forall c :: c in r <==> text.Some? && Contains(text.value, Pattern(c))
    ensures Ranked(r)
  {
    RankIsIndex(StartCmd);
    if text.None? then [] else Matching(Registered, text.value)
  }

  /** The main message handler ignores a message without (non-empty) text
      and one whose raw, untrimmed text starts with "/". */
  predicate Skipped(text: Option<string>): (b: bool)
    ensures b <==> text.None? || text.value == [] || text.value[0] == '/'
  {
    !Truthy(text) || StartsWith(text.value, "/")
  }

  /** A command whose literal occurs in the text fires. */
  lemma FiresAt(text: string, c: Command, i: int)
    requires OccursAt(text, Pattern(c), i)
    ensures c in Fired(Some(text))
  {
  }

  /** A message that starts with a command triggers that command's handler
      and is ignored by the main message handler. */
  lemma CommandPrefixIsOnlyCommand(text: string, c: Command)
    requires StartsWith(text, Pattern(c))
    ensures c in Fired(Some(text))
    ensures Skipped(Some(text))
  {
    FiresAt(text, c, 0);
    assert text[..1] == Pattern(c)[..1];
  }

  /** A command written after some other text, such as "note /capture",
      triggers that command's handler AND reaches the main message handler,
      which treats the whole text as content. */
  lemma CommandInsideTextFallsThrough(note: string, c: Command)
    requires note != [] && note[0] != '/'
    ensures c in Fired(Some(note + " " + Pattern(c)))
    ensures !Skipped(Some(note + " " + Pattern(c)))
  {
    var t := note + " " + Pattern(c);
    assert t[|note| + 1..] == Pattern(c);
    FiresAt(t, c, |note| + 1);
    assert t[0] == note[0];
  }

  /** A command preceded by a space passes the "/" test of the main
      handler, its regex still fires, and trimming hands the bare command to
      the text branch as content. */
  lemma LeadingSpaceCommandFallsThrough(c: Command)
    ensures c in Fired(Some(" " + Pattern(c)))
    ensures !Skipped(Some(" " + Pattern(c)))
    ensures Trim(" " + Pattern(c)) == Pattern(c)
  {
    var p := Pattern(c);
    var t := " " + p;
    assert t[1..] == p;
    FiresAt(t, c, 1);
    assert t[0] == ' ';
    PatternShape(c);
    TrimOneSpace(p);
  }

  /** Every command literal starts with "/" and ends with a letter. */
  lemma PatternShape(c: Command)
    ensures |Pattern(c)| >= 2 && Pattern(c)[0] == '/'
    ensures 'a' <= Pattern(c)[|Pattern(c)| - 1] <= 'z'
  {
    match c
    case StartCmd =>
    case HelpCmd =>
    case StatusCmd =>
    case VaultCmd =>
    case CaptureCmd =>
    case GenerateCmd =>
    case RefineCmd =>
  }

  /** Trimming a single leading space from a text with non-whitespace ends. */
  lemma TrimOneSpace(p: string)
    requires p != [] && !IsWhitespace(p[0]) && !IsWhitespace(p[|p| - 1])
    ensures Trim(" " + p) == p
  {
    var e: string := "";
    assert AllWhitespace(" ") && AllWhitespace(e);
    TrimPadded(" ", p, e);
    assert " " + p + e == " " + p;
  }
}
