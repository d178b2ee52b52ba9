/** The per-chat conversation state and the shallow merge that every write
    of it performs. */
module State {
  import opened Js

  type ChatId = int

  /** The modes the bot stores. The source keeps them as the strings
      "idle", "capture", "generate" and "refine". */
  datatype Mode = Idle | Capture | Generate | Refine

  function ModeName(m: Mode): string {
    match m
    case Idle => "idle"
    case Capture => "capture"
    case Generate => "generate"
    case Refine => "refine"
  }

  /** `{mode, lastPost}`; `lastPost` is missing (`null` or `undefined`) or
      a string. */
  datatype ChatState = ChatState(mode: Mode, lastPost: Option<string>)

  /** What `getState` yields for a chat without an entry. */
  const DefaultState: ChatState := ChatState(Idle, None)

  /** The object handed to `setState`: each field is either absent from it
      (None) or given a value. */
  datatype Update = Update(mode: Option<Mode>, lastPost: Option<Option<string>>)

  function SetMode(m: Mode): Update {
    Update(Some(m), None)
  }

  function SetLastPost(p: Option<string>): Update {
    Update(None, Some(p))
  }

  /** `{ ...s, ...u }`: a field the update names takes the update's value,
      every other field keeps the value it had. */
  function Merge(s: ChatState, u: Update): (r: ChatState)
    ensures u.mode.Some? ==> r.mode == u.mode.value
    ensures u.mode.None? ==> r.mode == s.mode
    ensures u.lastPost.Some? ==> r.lastPost == u.lastPost.value
    ensures u.lastPost.None? ==> r.lastPost == s.lastPost
  {
    ChatState(
      match u.mode case Some(m) => m case None => s.mode,
      match u.lastPost case Some(p) => p case None => s.lastPost)
  }

  /** `{ ...u, ...v }`: the fields of `v` override those of `u`. */
  function Combine(u: Update, v: Update): (w: Update)
    ensures v.mode.Some? ==> w.mode == v.mode
    ensures v.mode.None? ==> w.mode == u.mode
    ensures v.lastPost.Some? ==> w.lastPost == v.lastPost
    ensures v.lastPost.None? ==> w.lastPost == u.lastPost
  {
    Update(
      if v.mode.Some? then v.mode else u.mode,
      if v.lastPost.Some? then v.lastPost else u.lastPost)
  }

  /** Two updates that name different fields. */
  predicate Disjoint(u: Update, v: Update) {
    !(u.mode.Some? && v.mode.Some?) && !(u.lastPost.Some? && v.lastPost.Some?)
  }

  /** Two writes in a row are one write of the combined update. */
  lemma MergeTwice(s: ChatState, u: Update, v: Update)
    ensures Merge(Merge(s, u), v) == Merge(s, Combine(u, v))
  {
  }

  /** Writes of different fields can be made in either order. */
  lemma MergeDisjointCommutes(s: ChatState, u: Update, v: Update)
    requires Disjoint(u, v)
    ensures Merge(Merge(s, u), v) == Merge(Merge(s, v), u)
  {
  }

  /** Writing the mode and then the last post sets both, whatever the chat
      held before. */
  lemma ModeThenPost(s: ChatState, m: Mode, p: Option<string>)
    ensures Merge(Merge(s, SetMode(m)), SetLastPost(p)) == ChatState(m, p)
  {
  }

  /** The stored mode strings are pairwise distinct, so the enumeration
      loses nothing. */
  lemma ModeNamesDistinct(m: Mode, n: Mode)
    requires m != n
    ensures ModeName(m) != ModeName(n)
  {
  }
}
