/** The two pure formatting rules of the bot: the numbered vault listing
    and the fields of the status report. */
module Formatting {
  import opened Js
  import opened Service

  /** How many characters of a capture the vault listing shows. */
  const PREVIEW_LIMIT: nat := 80

  const ELLIPSIS: string := "..."

  const SHAPED_MARK: string := "\U{2705}"
  const UNSHAPED_MARK: string := "\U{2B55}"

  // ---------------------------------------------------------------- numbers

  predicate IsDigit(c: char) {
    '0' <= c <= '9'
  }

  predicate AllDigits(s: string) {
    forall k :: 0 <= k < |s| ==> IsDigit(s[k])
  }

  function DigitChar(d: nat): (c: char)
    requires d < 10
    ensures IsDigit(c) && (c as int) - ('0' as int) == d
  {
    ('0' as int + d) as char
  }

  /** Decimal text of a non-negative number, as template interpolation
      `${n}` produces it: at least one digit and no leading zero. */
  function NatToString(n: nat): (r: string)
    ensures |r| >= 1 && AllDigits(r)
    ensures r[0] == '0' ==> n == 0
    decreases n
  {
    if n < 10 then [DigitChar(n)] else NatToString(n / 10) + [DigitChar(n % 10)]
  }

  /** The number a string of decimal digits denotes. */
  function DecimalValue(s: string): nat
    requires AllDigits(s)
  {
    if s == [] then 0
    else DecimalValue(s[..|s| - 1]) * 10 + ((s[|s| - 1] as int) - ('0' as int))
  }

  /** Reading back the printed number gives the number. */
  lemma {:induction false} DecimalRoundTrip(n: nat)
    ensures DecimalValue(NatToString(n)) == n
    decreases n
  {
    if n >= 10 {
      var prefix := NatToString(n / 10);
      var r := NatToString(n);
      assert r[..|r| - 1] == prefix;
      DecimalRoundTrip(n / 10);
    }
  }

  // ------------------------------------------------------------------ vault

  /** `raw.substring(0, 80)` followed by "..." when the text is longer. */
  function Preview(raw: string): (r: string)
    ensures |raw| <= PREVIEW_LIMIT ==> r == raw
    ensures |raw| > PREVIEW_LIMIT ==>
      |r| == PREVIEW_LIMIT + |ELLIPSIS| && r[..PREVIEW_LIMIT] == raw[..PREVIEW_LIMIT] && r[PREVIEW_LIMIT..] == ELLIPSIS
    ensures |r| <= PREVIEW_LIMIT + |ELLIPSIS|
  {
    var shown := if |raw| <= PREVIEW_LIMIT then raw else raw[..PREVIEW_LIMIT];
    shown + (if |raw| > PREVIEW_LIMIT then ELLIPSIS else "")
  }

  function Mark(shaped: bool): string {
    if shaped then SHAPED_MARK else UNSHAPED_MARK
  }

  /** The line for the capture at index `i` of the answer. */
  function VaultLine(i: nat, c: CaptureEntry): string {
    NatToString(i + 1) + ". " + Preview(c.rawText) + " " + Mark(c.shaped)
  }

  /** `captures.map((c, i) => ...)`: one line per capture, in order, each
      numbered by its own index. */
  function VaultLines(cs: seq<CaptureEntry>): (r: seq<string>)
    ensures |r| == |cs|
    ensures forall k :: 0 <= k < |cs| ==> r[k] == VaultLine(k, cs[k])
  {
    seq(|cs|, k requires 0 <= k < |cs| => VaultLine(k, cs[k]))
  }

  /** `parts.join(sep)`. */
  function Join(parts: seq<string>, sep: string): (r: string)
    ensures parts == [] ==> r == ""
    ensures |parts| == 1 ==> r == parts[0]
    ensures |parts| >= 1 ==> StartsWith(r, parts[0])
  {
    if parts == [] then ""
    else if |parts| == 1 then parts[0]
    else parts[0] + sep + Join(parts[1..], sep)
  }

  /** Where part `k` starts in `Join(parts, sep)`: the total length of the
      parts before it, each followed by one separator. */
  function Offset(parts: seq<string>, sep: string, k: nat): nat
    requires k <= |parts|
  {
    if k == 0 then 0 else |parts[0]| + |sep| + Offset(parts[1..], sep, k - 1)
  }

  /** Each part moves the next offset on by its own length and one
      separator, so `Offset(parts, sep, k)` is the sum over `j < k` of
      `|parts[j]| + |sep|`. */
  lemma {:induction false} OffsetStep(parts: seq<string>, sep: string, k: nat)
    requires 0 < k <= |parts|
    ensures Offset(parts, sep, k) == Offset(parts, sep, k - 1) + |parts[k - 1]| + |sep|
  {
    if k > 1 {
      OffsetStep(parts[1..], sep, k - 1);
      assert parts[1..][k - 2] == parts[k - 1];
    }
  }

  /** An occurrence in `b` is an occurrence in `a + b`, shifted by `|a|`. */
  lemma OccursAfter(a: string, b: string, p: string, i: int)
    requires OccursAt(b, p, i)
    ensures OccursAt(a + b, p, |a| + i)
  {
    assert (a + b)[|a| + i..|a| + i + |p|] == b[i..i + |p|];
  }

  /** The layout of a join: every part at its offset, in order; the
      separator after every part but the last; and nothing after the last
      part. */
  lemma JoinLayout(parts: seq<string>, sep: string)
    requires |parts| >= 1
    ensures |Join(parts, sep)| == Offset(parts, sep, |parts|) - |sep|
    ensures forall k :: 0 <= k < |parts| ==> OccursAt(Join(parts, sep), parts[k], Offset(parts, sep, k))
    ensures forall k :: 0 <= k < |parts| - 1 ==> OccursAt(Join(parts, sep), sep, Offset(parts, sep, k) + |parts[k]|)
  {
    JoinLength(parts, sep);
    forall k | 0 <= k < |parts| ensures OccursAt(Join(parts, sep), parts[k], Offset(parts, sep, k)) {
      JoinPartAt(parts, sep, k);
    }
    forall k | 0 <= k < |parts| - 1 ensures OccursAt(Join(parts, sep), sep, Offset(parts, sep, k) + |parts[k]|) {
      JoinSeparatorAt(parts, sep, k);
    }
  }

  lemma {:induction false} JoinLength(parts: seq<string>, sep: string)
    requires |parts| >= 1
    ensures |Join(parts, sep)| == Offset(parts, sep, |parts|) - |sep|
  {
    if |parts| > 1 {
      JoinLength(parts[1..], sep);
    }
  }

  lemma {:induction false} JoinPartAt(parts: seq<string>, sep: string, k: nat)
    requires k < |parts|
    ensures OccursAt(Join(parts, sep), parts[k], Offset(parts, sep, k))
  {
    var j := Join(parts, sep);
    if k == 0 {
      assert j[..|parts[0]|] == parts[0];
    } else {
      var tail := parts[1..];
      assert j == (parts[0] + sep) + Join(tail, sep);
      JoinPartAt(tail, sep, k - 1);
      assert tail[k - 1] == parts[k];
      OccursAfter(parts[0] + sep, Join(tail, sep), parts[k], Offset(tail, sep, k - 1));
    }
  }

  lemma {:induction false} JoinSeparatorAt(parts: seq<string>, sep: string, k: nat)
    requires k < |parts| - 1
    ensures OccursAt(Join(parts, sep), sep, Offset(parts, sep, k) + |parts[k]|)
  {
    var j := Join(parts, sep);
    var tail := parts[1..];
    assert j == (parts[0] + sep) + Join(tail, sep);
    if k == 0 {
      assert j[|parts[0]|..|parts[0]| + |sep|] == sep;
    } else {
      JoinSeparatorAt(tail, sep, k - 1);
      assert tail[k - 1] == parts[k];
      OccursAfter(parts[0] + sep, Join(tail, sep), sep, Offset(tail, sep, k - 1) + |tail[k - 1]|);
    }
  }

  /** The listing the vault reply shows: the lines joined by blank lines.
      Line `k` sits at its offset, and a blank line separates it from the
      next. */
  function VaultList(cs: seq<CaptureEntry>): (r: string)
    ensures cs == [] ==> r == ""
    ensures cs != [] ==> |r| == Offset(VaultLines(cs), "\n\n", |cs|) - 2
    ensures forall k :: 0 <= k < |cs| ==> OccursAt(r, VaultLines(cs)[k], Offset(VaultLines(cs), "\n\n", k))
    ensures forall k :: 0 <= k < |cs| - 1 ==>
      OccursAt(r, "\n\n", Offset(VaultLines(cs), "\n\n", k) + |VaultLines(cs)[k]|)
  {
    var lines := VaultLines(cs);
    if cs != [] then JoinLayout(lines, "\n\n"); Join(lines, "\n\n")
    else Join(lines, "\n\n")
  }

  /** A line begins with the one-based number (read back from the text
      before the first "."), then ". " and the preview, then a space, and
      ends with the one-character mark. */
  lemma VaultLineShape(k: nat, c: CaptureEntry)
    ensures var line := VaultLine(k, c);
            var d := |NatToString(k + 1)|;
            var p := Preview(c.rawText);
            && |line| == d + 2 + |p| + 2
            && AllDigits(line[..d]) && DecimalValue(line[..d]) == k + 1
            && line[d..d + 2] == ". " && line[d] == '.'
            && line[d + 2..d + 2 + |p|] == p && line[d + 2 + |p|] == ' '
            && line[|line| - 1..] == Mark(c.shaped)
  {
    var line := VaultLine(k, c);
    var n := NatToString(k + 1);
    var p := Preview(c.rawText);
    var m := Mark(c.shaped);
    assert |m| == 1;
    assert line == n + ". " + p + " " + m;
    assert line[..|n|] == n;
    assert line[|n|..|n| + 2] == ". ";
    assert line[|n| + 2..|n| + 2 + |p|] == p;
    assert line[|line| - 1..] == m;
    DecimalRoundTrip(k + 1);
  }

  /** Line `k` of the listing, the line numbered `k + 1`, appears in the
      listing at its offset, followed by a blank line unless it is the
      last; and the listing begins with the first line. */
  lemma VaultLineListed(cs: seq<CaptureEntry>, k: nat)
    requires k < |cs|
    ensures OccursAt(VaultList(cs), VaultLine(k, cs[k]), Offset(VaultLines(cs), "\n\n", k))
    ensures k < |cs| - 1 ==>
      OccursAt(VaultList(cs), "\n\n", Offset(VaultLines(cs), "\n\n", k) + |VaultLine(k, cs[k])|)
    ensures StartsWith(VaultList(cs), VaultLine(0, cs[0]))
  {
    var lines := VaultLines(cs);
    var list := VaultList(cs);
    assert lines[k] == VaultLine(k, cs[k]) && lines[0] == VaultLine(0, cs[0]);
    assert OccursAt(list, lines[0], Offset(lines, "\n\n", 0));
  }

  // ----------------------------------------------------------------- status

  /** A `Limit:`/`Remaining:` field: the word "Unlimited", or whatever the
      service reported (None prints as `undefined`). */
  datatype Shown = Unlimited | Value(value: Option<int>)

  /** The fields of the status report. */
  datatype StatusView = StatusView(plan: Option<string>, used: int, limit: Shown, remaining: Shown)

  function GenerationsOf(d: StatusResponse): Option<Generations> {
    if d.usage.Some? then d.usage.value.generations else None
  }

  /** Derives the status fields from `data.usage?.generations`: `used`
      defaults to 0 only when absent, `limit` and `remaining` read
      "Unlimited" exactly when the `unlimited` flag is set. */
  function StatusOf(d: StatusResponse): (v: StatusView)
    ensures v.plan == d.tier
    ensures GenerationsOf(d).None? ==> v.used == 0 && v.limit == Value(None) && v.remaining == Value(None)
    ensures GenerationsOf(d).Some? ==>
      var g := GenerationsOf(d).value;
      && (g.used.Some? ==> v.used == g.used.value)
      && (g.used.None? ==> v.used == 0)
      && (g.unlimited <==> v.limit == Unlimited)
      && (g.unlimited <==> v.remaining == Unlimited)
      && (!g.unlimited ==> v.limit == Value(g.limit) && v.remaining == Value(g.remaining))
  {
    match GenerationsOf(d)
    case None => StatusView(d.tier, 0, Value(None), Value(None))
    case Some(g) =>
      StatusView(
        d.tier,
        Coalesce(g.used, 0),
        if g.unlimited then Unlimited else Value(g.limit),
        if g.unlimited then Unlimited else Value(g.remaining))
  }
}
