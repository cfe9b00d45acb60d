/** The status line of the dashboard:
    `analysis?.match(/<STATUS>(.*?)<\/STATUS>/)?.[1] || 'Unknown'`.
    The regular expression has no flags: it finds the leftmost opening tag that
    is followed, on the same line, by a closing tag, and captures the shortest
    text in between (`.` does not match a line terminator). */
module StatusLine {
  import opened JsValues

  const OpenTag := "<STATUS>"
  const CloseTag := "</STATUS>"
  const Unknown := "Unknown"

  /** The characters `.` does not match. */
  predicate IsLineTerminator(c: char) {
    c == '\n' || c == '\r' || c == '\U{2028}' || c == '\U{2029}'
  }

  predicate OpensAt(s: string, p: int) {
    OccursAt(s, OpenTag, p)
  }

  predicate ClosesAt(s: string, q: int) {
    OccursAt(s, CloseTag, q)
  }

  /** No line terminator in `s[i..j]`. */
  predicate SameLine(s: string, i: int, j: int)
    requires 0 <= i <= j <= |s|
  {
    forall k :: i <= k < j ==> !IsLineTerminator(s[k])
  }

  /** The pattern matches from `p` with the group capturing `s[p + 8 .. q]`. */
  predicate CaptureAt(s: string, p: int, q: int) {
    OpensAt(s, p) && p + |OpenTag| <= q && ClosesAt(s, q) && SameLine(s, p + |OpenTag|, q)
  }

  /** No closing tag starts strictly inside `s[p + 8 .. q]` (the `?` of `.*?`). */
  predicate Shortest(s: string, p: int, q: int) {
    forall k :: p + |OpenTag| <= k < q ==> !ClosesAt(s, k)
  }

  /** The match the regular expression returns: shortest at the leftmost start. */
  ghost predicate FirstCapture(s: string, p: int, q: int) {
    CaptureAt(s, p, q) && Shortest(s, p, q) && forall k, r :: 0 <= k < p ==> !CaptureAt(s, k, r)
  }

  /** The lazy group scanning forward from `q` for a closing tag, giving up at a
      line terminator or at the end of the text. */
  function FindClose(s: string, q: nat): (r: Option<nat>)
    requires q <= |s|
    decreases |s| - q
    ensures r.Some? ==> q <= r.value && ClosesAt(s, r.value) && SameLine(s, q, r.value)
                        && forall k :: q <= k < r.value ==> !ClosesAt(s, k)
    ensures r.None? ==> forall k :: q <= k <= |s| && ClosesAt(s, k) ==> !SameLine(s, q, k)
  {
    if ClosesAt(s, q) then Some(q)
    else if q == |s| || IsLineTerminator(s[q]) then None
    else FindClose(s, q + 1)
  }

  /** The regular expression tried at `p`, then at each later start. */
  function Search(s: string, p: nat): (r: Option<(nat, nat)>)
    requires p <= |s|
    decreases |s| - p
    ensures r.Some? ==> p <= r.value.0 && CaptureAt(s, r.value.0, r.value.1) && Shortest(s, r.value.0, r.value.1)
                        && forall k, q :: p <= k < r.value.0 ==> !CaptureAt(s, k, q)
    ensures r.None? ==> forall k, q :: p <= k ==> !CaptureAt(s, k, q)
  {
    var found := if OpensAt(s, p) then FindClose(s, p + |OpenTag|) else None;
    if found.Some? then Some((p, found.value))
    else if p == |s| then None
    else Search(s, p + 1)
  }

  /** `analysis.match(...)?.[1]`: the captured text, if the pattern matches. */
  function Captured(s: string): (c: Option<string>)
    ensures c.Some? ==> exists p, q :: FirstCapture(s, p, q) && c.value == s[p + |OpenTag| .. q]
    ensures c.None? ==> forall p, q :: !CaptureAt(s, p, q)
  {
    var r := Search(s, 0);
    if r.Some? then
      var (p, q) := r.value;
      assert FirstCapture(s, p, q);
      Some(s[p + |OpenTag| .. q])
    else
      None
  }

  /** The text shown after "Status:". */
  function StatusOf(analysis: Option<string>): (r: string)
    ensures r != ""
    ensures analysis.None? ==> r == Unknown
    ensures analysis.Some? && (forall p, q :: !CaptureAt(analysis.value, p, q)) ==> r == Unknown
    ensures r != Unknown ==>
              && analysis.Some?
              && exists p, q :: FirstCapture(analysis.value, p, q) && r == analysis.value[p + |OpenTag| .. q]
  {
    match analysis
    case None => Unknown
    case Some(s) =>
      match Captured(s)
      case Some(c) => if c == "" then Unknown else c
      case None => Unknown
  }

  /** The regular expression's match is unique. */
  lemma FirstCaptureUnique(s: string, p: int, q: int, p': int, q': int)
    requires FirstCapture(s, p, q) && FirstCapture(s, p', q')
    ensures p == p' && q == q'
  {
    assert p < p' ==> !CaptureAt(s, p, q);
    assert p' < p ==> !CaptureAt(s, p', q');
    assert q < q' ==> !ClosesAt(s, q);
    assert q' < q ==> !ClosesAt(s, q');
  }

  /** Whenever the pattern matches with a non-empty capture, the status line shows
      exactly that capture. */
  lemma StatusShowsCapture(s: string, p: int, q: int)
    requires FirstCapture(s, p, q) && p + |OpenTag| < q
    ensures StatusOf(Some(s)) == s[p + |OpenTag| .. q]
  {
    var c := Captured(s);
    assert c.Some?;
    var p', q' :| FirstCapture(s, p', q') && c.value == s[p' + |OpenTag| .. q'];
    FirstCaptureUnique(s, p, q, p', q');
  }
}
