/**
 * The image sniffing of the ingestion route: `content.match(/<img[^>]+src="([^">]+)"/)`
 * and its first capture group, with JavaScript's backtracking semantics written out.
 *
 * A match is an `<img` at index `tag`, at least one character that is not `>`,
 * then `src="` at index `src`, then a non-empty run of characters that are neither
 * `"` nor `>`, closed by `"`. The engine tries start indices left to right; for one
 * start, the greedy `[^>]+` is tried longest first, so the LAST `src="` before the
 * tag's first `>` that has a well-formed value wins (`data-src="…"` also matches,
 * because `src="` is a substring of it).
 */
module ImageSniff {
  import opened Wrappers
  import opened JsText

  const IMG_OPEN: string := "<img"
  const SRC_OPEN: string := "src=\""

  /** The first index at or after `k` holding `"` or `>`, or `|c|` if there is none. */
  function RunEnd(c: string, k: nat): (e: nat)
    requires k <= |c|
    ensures k <= e <= |c|
    ensures forall m :: k <= m < e ==> c[m] != '"' && c[m] != '>'
    ensures e < |c| ==> c[e] == '"' || c[e] == '>'
    decreases |c| - k
  {
    if k == |c| || c[k] == '"' || c[k] == '>' then k else RunEnd(c, k + 1)
  }

  /** The regular expression matches with `<img` at `tag` and `src="` at `src`. */
  predicate MatchAt(c: string, tag: nat, src: nat) {
    && tag + |IMG_OPEN| < src
    && src + |SRC_OPEN| <= |c|
    && c[tag..tag + |IMG_OPEN|] == IMG_OPEN
    && (forall m :: tag + |IMG_OPEN| <= m < src ==> c[m] != '>')
    && c[src..src + |SRC_OPEN|] == SRC_OPEN
    && var e := RunEnd(c, src + |SRC_OPEN|);
       src + |SRC_OPEN| < e < |c| && c[e] == '"'
  }

  /** The capture group of a match whose `src="` is at `src`. */
  function Capture(c: string, src: nat): string
    requires src + |SRC_OPEN| <= |c|
  {
    c[src + |SRC_OPEN|..RunEnd(c, src + |SRC_OPEN|)]
  }

  /** The match JavaScript reports: no match starts further left, and for its
      start no later `src="` matches. */
  ghost predicate Selected(c: string, tag: nat, src: nat) {
    && MatchAt(c, tag, src)
    && (forall t: nat, s: nat :: t < tag ==> !MatchAt(c, t, s))
    && (forall s: nat :: src < s ==> !MatchAt(c, tag, s))
  }

  datatype Match = Match(tag: nat, src: nat)

  /** The largest `src <= hi` that matches for an `<img` at `tag` (greedy `[^>]+`). */
  function LastSrc(c: string, tag: nat, hi: nat): (r: Option<nat>)
    ensures r.Some? ==> r.value <= hi && MatchAt(c, tag, r.value)
    ensures forall s: nat :: s <= hi && (r.None? || r.value < s) ==> !MatchAt(c, tag, s)
    decreases hi
  {
    if hi <= tag + |IMG_OPEN| then None
    else if MatchAt(c, tag, hi) then Some(hi)
    else LastSrc(c, tag, hi - 1)
  }

  /** The leftmost start at or after `from` that has a match, with its selected `src`. */
  function FirstMatchFrom(c: string, from: nat): (r: Option<Match>)
    ensures r.Some? ==> from <= r.value.tag && MatchAt(c, r.value.tag, r.value.src)
    ensures r.Some? ==> forall s: nat :: r.value.src < s ==> !MatchAt(c, r.value.tag, s)
    ensures forall t: nat, s: nat :: from <= t && (r.None? || t < r.value.tag) ==> !MatchAt(c, t, s)
    decreases |c| - from
  {
    if from >= |c| then None
    else match LastSrc(c, from, |c|)
      case Some(s) => Some(Match(from, s))
      case None => FirstMatchFrom(c, from + 1)
  }

  /** `content.match(…)?.[1]`: the captured image URL of the reported match, if any. */
  function FirstImgSrc(c: string): (r: Option<string>)
    ensures r.None? <==> forall t: nat, s: nat :: !MatchAt(c, t, s)
    ensures r.Some? ==> exists t: nat, s: nat :: Selected(c, t, s) && r.value == Capture(c, s)
  {
    match FirstMatchFrom(c, 0)
    case None => None
    case Some(m) =>
      assert Selected(c, m.tag, m.src);
      Some(Capture(c, m.src))
  }

  /** What any captured URL looks like: non-empty, free of `"` and `>`, and found
      verbatim in the content right after `src="`. */
  lemma CaptureShape(c: string, tag: nat, src: nat)
    requires MatchAt(c, tag, src)
    ensures var u := Capture(c, src);
      && u != []
      && '"' !in u && '>' !in u
      && c[src..src + |SRC_OPEN|] == SRC_OPEN
      && c[src + |SRC_OPEN|..src + |SRC_OPEN| + |u|] == u
      && src + |SRC_OPEN| + |u| < |c| && c[src + |SRC_OPEN| + |u|] == '"'
  {
  }

  /** The sniffed URL has the properties of every capture. */
  lemma FirstImgSrcShape(c: string)
    requires FirstImgSrc(c).Some?
    ensures var u := FirstImgSrc(c).value;
      u != [] && '"' !in u && '>' !in u
      && exists p :: OccursAt(u, c, p)
  {
    var t: nat, s: nat :| Selected(c, t, s) && FirstImgSrc(c).value == Capture(c, s);
    CaptureShape(c, t, s);
    assert OccursAt(FirstImgSrc(c).value, c, s + |SRC_OPEN|);
  }
}
