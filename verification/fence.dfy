/** Extraction of the first fenced JSON block from a reply body, i.e. the
    first match of the pattern ```json\s*([\s\S]*?)\s*``` (services/geminiService.ts).
    The pattern is matched the way a backtracking engine does: leftmost
    opener, greedy leading whitespace, the shortest capture that is followed
    by optional whitespace and a closing fence. */
module Fence {
  import opened Wrappers

  const Opener: string := "```json"
  const Closer: string := "```"

  /** The characters the \s class matches in JavaScript. */
  predicate IsJsWhitespace(c: char)
  {
    var n := c as int;
    n == 0x09 || n == 0x0A || n == 0x0B || n == 0x0C || n == 0x0D || n == 0x20
    || n == 0xA0 || n == 0x1680 || (0x2000 <= n <= 0x200A) || n == 0x2028 || n == 0x2029
    || n == 0x202F || n == 0x205F || n == 0x3000 || n == 0xFEFF
  }

  predicate AllWhitespace(t: string, lo: int, hi: int)
    requires 0 <= lo <= hi <= |t|
  {
    forall k :: lo <= k < hi ==> IsJsWhitespace(t[k])
  }

  /** `pat` occurs in `t` starting at position `i`. */
  predicate OccursAt(t: string, pat: string, i: nat)
  {
    i + |pat| <= |t| && forall m :: 0 <= m < |pat| ==> t[i + m] == pat[m]
  }

  /** Leftmost occurrence of `pat` at or after `from`. */
  function FindFrom(t: string, pat: string, from: nat): (r: Option<nat>)
    ensures r.Some? ==> from <= r.value && OccursAt(t, pat, r.value)
    ensures r.Some? ==> forall k: nat :: from <= k < r.value ==> !OccursAt(t, pat, k)
    ensures r.None? ==> forall k: nat :: from <= k ==> !OccursAt(t, pat, k)
    decreases |t| - from
  {
    if from + |pat| > |t| then None
    else if OccursAt(t, pat, from) then Some(from)
    else FindFrom(t, pat, from + 1)
  }

  /** End of the whitespace run starting at `i` (greedy \s*). */
  function SkipWhitespace(t: string, i: nat): (r: nat)
    requires i <= |t|
    ensures i <= r <= |t| && AllWhitespace(t, i, r)
    ensures r == |t| || !IsJsWhitespace(t[r])
    decreases |t| - i
  {
    if i < |t| && IsJsWhitespace(t[i]) then SkipWhitespace(t, i + 1) else i
  }

  /** Start of the whitespace run that ends at `k`, not going below `lo`. */
  function BackOverWhitespace(t: string, lo: nat, k: nat): (q: nat)
    requires lo <= k <= |t|
    ensures lo <= q <= k && AllWhitespace(t, q, k)
    ensures q == lo || !IsJsWhitespace(t[q - 1])
    decreases k - lo
  {
    if lo < k && IsJsWhitespace(t[k - 1]) then BackOverWhitespace(t, lo, k - 1) else k
  }

  /** The capture of the first fenced JSON block, if there is one. */
  function ExtractFence(t: string): (r: Option<string>)
    ensures r.Some? ==> forall k: nat :: !OccursAt(r.value, Closer, k)
    ensures r.Some? && r.value != [] ==>
      !IsJsWhitespace(r.value[0]) && !IsJsWhitespace(r.value[|r.value| - 1])
  {
    match FindFrom(t, Opener, 0)
    case None => None
    case Some(i) =>
      var j := SkipWhitespace(t, i + |Opener|);
      match FindFrom(t, Closer, j)
      case None => None
      case Some(k) =>
        var q := BackOverWhitespace(t, j, k);
        CaptureHasNoCloser(t, j, q, k);
        Some(t[j..q])
  }

  /** A slice that ends before the first closer at or after its start holds no closer. */
  lemma CaptureHasNoCloser(t: string, j: nat, q: nat, k: nat)
    requires j <= q <= k <= |t|
    requires forall p: nat :: j <= p < k ==> !OccursAt(t, Closer, p)
    ensures forall p: nat :: !OccursAt(t[j..q], Closer, p)
  {
    forall p: nat
      ensures !OccursAt(t[j..q], Closer, p)
    {
      if p + |Closer| <= q - j {
        assert !OccursAt(t, Closer, j + p);
        var m :| 0 <= m < |Closer| && t[j + p + m] != Closer[m];
        assert t[j..q][p + m] == t[j + p + m];
      }
    }
  }

  /** Some opener is followed, after its own text, by a closer. */
  predicate HasFencedBlock(t: string)
  {
    exists i: nat, k: nat :: i < k < |t| && OccursAt(t, Opener, i) && i + |Opener| <= k && OccursAt(t, Closer, k)
  }

  /** A block is extracted exactly when the body holds an opener followed by a closer. */
  lemma ExtractFenceSomeIff(t: string)
    ensures ExtractFence(t).Some? <==> HasFencedBlock(t)
  {
    match FindFrom(t, Opener, 0)
    case None =>
    case Some(i) =>
      var j := SkipWhitespace(t, i + |Opener|);
      match FindFrom(t, Closer, j)
      case Some(k) =>
        assert OccursAt(t, Opener, i) && i + |Opener| <= k && OccursAt(t, Closer, k);
      case None =>
        forall i': nat, k: nat | OccursAt(t, Opener, i') && i' + |Opener| <= k
          ensures !OccursAt(t, Closer, k)
        {
          assert i <= i';
          if k < j {
            assert IsJsWhitespace(t[k]);
            assert Closer[0] == '`';
            assert t[k + 0] != Closer[0];
          }
        }
  }

  /** The leftmost occurrence is determined by where `pat` occurs. */
  lemma FindFromIs(t: string, pat: string, from: nat, x: nat)
    requires from <= x && OccursAt(t, pat, x)
    requires forall y: nat :: from <= y < x ==> !OccursAt(t, pat, y)
    ensures FindFrom(t, pat, from) == Some(x)
  {
  }

  /** The end of a whitespace run is determined by the text. */
  lemma SkipWhitespaceIs(t: string, i: nat, r: nat)
    requires i <= r <= |t| && AllWhitespace(t, i, r)
    requires r == |t| || !IsJsWhitespace(t[r])
    ensures SkipWhitespace(t, i) == r
  {
  }

  /** The start of a whitespace run is determined by the text. */
  lemma BackOverWhitespaceIs(t: string, lo: nat, k: nat, q: nat)
    requires lo <= q <= k <= |t| && AllWhitespace(t, q, k)
    requires q == lo || !IsJsWhitespace(t[q - 1])
    ensures BackOverWhitespace(t, lo, k) == q
  {
  }

  /** An opener at `p` with none wholly before it is the leftmost one: no
      occurrence can straddle `p`, since the opener's three backticks are
      followed by 'j'. */
  lemma NoOpenerBefore(t: string, p: nat)
    requires p + |Opener| <= |t|
    requires forall y: nat :: y + |Opener| <= p ==> !OccursAt(t, Opener, y)
    requires forall m :: 0 <= m < |Opener| ==> t[p + m] == Opener[m]
    ensures forall x: nat :: x < p ==> !OccursAt(t, Opener, x)
  {
    forall x: nat | x < p && x + |Opener| > p
      ensures !OccursAt(t, Opener, x)
    {
      if x + 3 >= p {
        assert t[x + 3] == Opener[x + 3 - p];
        assert t[x + 3] != Opener[3];
      } else {
        assert t[x + (p - x)] == Opener[0];
        assert t[x + (p - x)] != Opener[p - x];
      }
    }
  }

  /** Between the start `j` of the capture and the closer after `body`, no
      closer occurs: one inside the body is excluded, and any window reaching
      the line break after the body contains a character that is no backtick. */
  lemma NoCloserBeforeEnd(t: string, p: nat, body: string, j: nat)
    requires p + 12 + |body| <= |t|
    requires p + 8 <= j
    requires forall x :: 0 <= x < |body| ==> t[p + 8 + x] == body[x]
    requires t[p + 8 + |body|] == '\n'
    requires forall y: nat :: !OccursAt(body, Closer, y)
    ensures forall x: nat :: j <= x < p + 9 + |body| ==> !OccursAt(t, Closer, x)
  {
    var b := |body|;
    forall x: nat | j <= x < p + 9 + b
      ensures !OccursAt(t, Closer, x)
    {
      if x + |Closer| <= p + 8 + b {
        if OccursAt(t, Closer, x) {
          forall m | 0 <= m < |Closer|
            ensures body[x - p - 8 + m] == Closer[m]
          {
            assert t[p + 8 + (x - p - 8 + m)] == body[x - p - 8 + m];
          }
          assert OccursAt(body, Closer, x - p - 8);
        }
      } else {
        assert t[x + (p + 8 + b - x)] == '\n';
        assert Closer[p + 8 + b - x] == '`';
      }
    }
  }

  /** The extraction is the slice the four scanning steps delimit. */
  lemma ExtractFenceAt(t: string, i: nat, j: nat, k: nat, q: nat)
    requires i + |Opener| <= j <= |t|
    requires FindFrom(t, Opener, 0) == Some(i)
    requires SkipWhitespace(t, i + |Opener|) == j
    requires FindFrom(t, Closer, j) == Some(k)
    requires j <= q <= k && BackOverWhitespace(t, j, k) == q
    ensures ExtractFence(t) == Some(t[j..q])
  {
  }

  /** The extraction of a block laid out at position `p` of `t` as an opener,
      a line break, `body`, a line break and a closer, with no opener before it. */
  lemma ExtractFenceOfLayout(t: string, p: nat, body: string)
    requires p + 12 + |body| <= |t|
    requires forall y: nat :: y + |Opener| <= p ==> !OccursAt(t, Opener, y)
    requires forall m :: 0 <= m < |Opener| ==> t[p + m] == Opener[m]
    requires t[p + 7] == '\n'
    requires forall x :: 0 <= x < |body| ==> t[p + 8 + x] == body[x]
    requires t[p + 8 + |body|] == '\n'
    requires forall m :: 0 <= m < |Closer| ==> t[p + 9 + |body| + m] == Closer[m]
    requires forall y: nat :: !OccursAt(body, Closer, y)
    requires body == [] || (!IsJsWhitespace(body[0]) && !IsJsWhitespace(body[|body| - 1]))
    ensures ExtractFence(t) == Some(body)
  {
    var b := |body|;
    var k := p + 9 + b;
    assert Closer[0] == '`';

    NoOpenerBefore(t, p);
    FindFromIs(t, Opener, 0, p);

    // the leading whitespace is the one line break
    var j := if b == 0 then p + 9 else p + 8;
    SkipWhitespaceIs(t, p + 7, j);

    NoCloserBeforeEnd(t, p, body, j);
    FindFromIs(t, Closer, j, k);

    // the trailing whitespace is the other line break
    var q := if b == 0 then k else k - 1;
    BackOverWhitespaceIs(t, j, k, q);
    ExtractFenceAt(t, p, j, k, q);
    assert t[j..q] == body;
  }

  /** A block written as an opener, a line break, a body, a line break and a
      closer is read back as the body, whatever text follows it, provided the
      text before it holds no opener and the body holds no closer and neither
      starts nor ends with whitespace. */
  lemma ExtractFenceOfFencedBody(prefix: string, body: string, suffix: string)
    requires forall y: nat :: !OccursAt(prefix, Opener, y)
    requires forall y: nat :: !OccursAt(body, Closer, y)
    requires body == [] || (!IsJsWhitespace(body[0]) && !IsJsWhitespace(body[|body| - 1]))
    ensures ExtractFence(prefix + Opener + "\n" + body + "\n" + Closer + suffix) == Some(body)
  {
    var t := prefix + Opener + "\n" + body + "\n" + Closer + suffix;
    var p := |prefix|;
    var b := |body|;
    assert forall x :: 0 <= x < p ==> t[x] == prefix[x];
    forall y: nat | y + |Opener| <= p
      ensures !OccursAt(t, Opener, y)
    {
      if OccursAt(t, Opener, y) {
        forall m | 0 <= m < |Opener|
          ensures prefix[y + m] == Opener[m]
        {
          assert t[y + m] == prefix[y + m];
        }
        assert OccursAt(prefix, Opener, y);
      }
    }
    assert forall m :: 0 <= m < |Opener| ==> t[p + m] == Opener[m];
    assert t[p + 7] == '\n';
    assert forall x :: 0 <= x < b ==> t[p + 8 + x] == body[x];
    assert t[p + 8 + b] == '\n';
    assert forall m :: 0 <= m < |Closer| ==> t[p + 9 + b + m] == Closer[m];
    ExtractFenceOfLayout(t, p, body);
  }
}
